/** A parsed XML document as a tree of elements, with the three searches the
    report generator performs on it:
      find(".//x")                -- the first descendant tagged x in document order,
      findall(".//x")             -- every descendant tagged x in document order,
      findall("x")                -- the direct children tagged x,
    and the path ".//statistics/total/stat". A descendant search never returns the
    element it starts from. */
module ElementTree {
  import opened Base

  datatype Element = Element(
    tag: string,
    attrib: map<string, string>,
    text: Option<string>,
    children: seq<Element>)

  /** The element followed by all of its descendants, in document (pre-)order. */
  function Subtree(e: Element): (r: seq<Element>)
    ensures |r| >= 1 && r[0] == e
    decreases e, 1
  {
    [e] + Forest(e.children)
  }

  /** The subtrees of a list of siblings, one after the other. */
  function Forest(cs: seq<Element>): seq<Element>
    decreases cs, 0
  {
    if cs == [] then [] else Subtree(cs[0]) + Forest(cs[1..])
  }

  /** Every element strictly below `e`, in document order. */
  function Descendants(e: Element): seq<Element> {
    Forest(e.children)
  }

  function HasTag(t: string): Element -> bool {
    (x: Element) => x.tag == t
  }

  /** findall(".//t") */
  function FindAll(e: Element, t: string): seq<Element> {
    Filter(HasTag(t), Descendants(e))
  }

  /** The first element of `s` tagged `t`, scanning from the front. */
  function FirstTagged(s: seq<Element>, t: string): Option<Element> {
    if s == [] then None
    else if s[0].tag == t then Some(s[0])
    else FirstTagged(s[1..], t)
  }

  /** find(".//t"): the first descendant tagged `t` in document order. */
  function Find(e: Element, t: string): Option<Element> {
    FirstTagged(Descendants(e), t)
  }

  /** findall("t"): the direct children tagged `t`. */
  function ChildrenNamed(e: Element, t: string): seq<Element> {
    Filter(HasTag(t), e.children)
  }

  /** One child step of a path applied to every element of `es`, in order. */
  function ChildStep(es: seq<Element>, t: string): seq<Element> {
    if es == [] then [] else ChildrenNamed(es[0], t) + ChildStep(es[1..], t)
  }

  /** Every match of ".//statistics/total/stat", in document order. */
  function StatCandidates(root: Element): seq<Element> {
    ChildStep(ChildStep(FindAll(root, "statistics"), "total"), "stat")
  }

  /** find(".//statistics/total/stat") */
  function FindStat(root: Element): Option<Element> {
    var c := StatCandidates(root);
    if c == [] then None else Some(c[0])
  }

  /** elem.get(name) */
  function Get(e: Element, name: string): (r: Option<string>)
    ensures r.Some? <==> name in e.attrib
    ensures r.Some? ==> r.value == e.attrib[name]
  {
    if name in e.attrib then Some(e.attrib[name]) else None
  }

  /** elem.get(name, default) with a string default */
  function GetOr(e: Element, name: string, default: string): (r: string)
    ensures name !in e.attrib ==> r == default
    ensures name in e.attrib ==> r == e.attrib[name]
  {
    Get(e, name).GetOr(default)
  }

  // ---------------------------------------------------------------------------
  // Properties of the searches

  /** findall(".//t") returns descendants tagged `t`, and every such descendant. */
  lemma FindAllMeaning(e: Element, t: string)
    ensures forall x :: x in FindAll(e, t) ==> x.tag == t && x in Descendants(e)
    ensures forall x :: x in Descendants(e) && x.tag == t ==> x in FindAll(e, t)
  {
    forall x | x in Descendants(e) && x.tag == t
      ensures x in FindAll(e, t)
    {
      FilterKeeps(HasTag(t), Descendants(e), x);
    }
  }

  /** The scan finds something exactly when some element is tagged `t`, and
      then it finds the first one. */
  lemma {:induction false} FirstTaggedMeaning(s: seq<Element>, t: string)
    ensures FirstTagged(s, t).Some? <==> exists i :: 0 <= i < |s| && s[i].tag == t
    ensures FirstTagged(s, t).Some? ==>
      exists i :: 0 <= i < |s| && s[i] == FirstTagged(s, t).value && s[i].tag == t &&
                  forall j :: 0 <= j < i ==> s[j].tag != t
    decreases |s|
  {
    if s != [] && s[0].tag != t {
      FirstTaggedMeaning(s[1..], t);
      assert forall i :: 1 <= i < |s| ==> s[i] == s[1..][i - 1];
      var r := FirstTagged(s[1..], t);
      if r.Some? {
        var i :| 0 <= i < |s[1..]| && s[1..][i] == r.value && r.value.tag == t &&
                 forall j :: 0 <= j < i ==> s[1..][j].tag != t;
        assert s[i + 1] == r.value;
        forall j | 0 <= j < i + 1 ensures s[j].tag != t {
          if j > 0 { assert s[j] == s[1..][j - 1]; }
        }
      }
    }
  }

  /** find(".//t") succeeds exactly when a descendant is tagged `t`, and
      returns the first one in document order. */
  lemma FindMeaning(e: Element, t: string)
    ensures Find(e, t).Some? <==> exists i :: 0 <= i < |Descendants(e)| && Descendants(e)[i].tag == t
    ensures Find(e, t).Some? ==>
      exists i :: 0 <= i < |Descendants(e)| && Descendants(e)[i] == Find(e, t).value && Find(e, t).value.tag == t &&
                  forall j :: 0 <= j < i ==> Descendants(e)[j].tag != t
  {
    FirstTaggedMeaning(Descendants(e), t);
  }

  /** One child step yields children tagged `t` of the elements it started from. */
  lemma {:induction false} ChildStepMeaning(es: seq<Element>, t: string)
    ensures forall x :: x in ChildStep(es, t) ==> x.tag == t && exists p :: p in es && x in p.children
    decreases |es|
  {
    if es != [] {
      ChildStepMeaning(es[1..], t);
      forall x | x in ChildStep(es, t)
        ensures x.tag == t && exists p :: p in es && x in p.children
      {
        if x in ChildrenNamed(es[0], t) {
          assert x.tag == t && x in es[0].children;
        } else {
          assert x in ChildStep(es[1..], t);
          var p :| p in es[1..] && x in p.children;
          assert p in es;
        }
      }
    }
  }

  /** One child step yields every child tagged `t` of the elements it started from. */
  lemma {:induction false} ChildStepComplete(es: seq<Element>, t: string)
    ensures forall p, x :: p in es && x in p.children && x.tag == t ==> x in ChildStep(es, t)
    decreases |es|
  {
    if es != [] {
      ChildStepComplete(es[1..], t);
      forall p, x | p in es && x in p.children && x.tag == t
        ensures x in ChildStep(es, t)
      {
        if p == es[0] {
          FilterKeeps(HasTag(t), es[0].children, x);
        } else {
          assert p in es[1..];
        }
      }
    }
  }

  /** The path ".//statistics/total/stat" leads to a `stat` child of a `total`
      child of a `statistics` descendant. */
  lemma FindStatMeaning(root: Element)
    ensures FindStat(root).Some? ==> FindStat(root).value.tag == "stat"
    ensures FindStat(root).Some? ==>
      exists stats: Element, total: Element ::
        stats in FindAll(root, "statistics") && total in stats.children &&
        total.tag == "total" && FindStat(root).value in total.children
    ensures forall stats: Element, total: Element, stat: Element ::
      (stats in FindAll(root, "statistics") && total in stats.children && total.tag == "total" &&
       stat in total.children && stat.tag == "stat") ==> FindStat(root).Some?
  {
    ChildStepComplete(FindAll(root, "statistics"), "total");
    ChildStepComplete(ChildStep(FindAll(root, "statistics"), "total"), "stat");
    var c := StatCandidates(root);
    if c != [] {
      var totals := ChildStep(FindAll(root, "statistics"), "total");
      ChildStepMeaning(totals, "stat");
      ChildStepMeaning(FindAll(root, "statistics"), "total");
      assert c[0] in c;
      var total :| total in totals && c[0] in total.children;
      var stats :| stats in FindAll(root, "statistics") && total in stats.children;
    }
  }

  lemma {:induction false} ForestConcat(a: seq<Element>, b: seq<Element>)
    ensures Forest(a + b) == Forest(a) + Forest(b)
    decreases |a|
  {
    if a == [] {
      assert a + b == b;
    } else {
      assert (a + b)[0] == a[0];
      assert (a + b)[1..] == a[1..] + b;
      ForestConcat(a[1..], b);
    }
  }

  /** Each child's whole subtree lies below the parent, in child order. */
  lemma ChildSubtreeInDescendants(e: Element, i: int)
    requires 0 <= i < |e.children|
    ensures forall x :: x in Subtree(e.children[i]) ==> x in Descendants(e)
  {
    var cs := e.children;
    assert cs == cs[..i] + [cs[i]] + cs[i + 1..];
    ForestConcat(cs[..i] + [cs[i]], cs[i + 1..]);
    ForestConcat(cs[..i], [cs[i]]);
    assert Forest([cs[i]]) == Subtree(cs[i]) + Forest([]);
  }

  /** find(".//t") is the head of findall(".//t"): the two searches agree. */
  lemma {:induction false} FirstTaggedIsFilterHead(s: seq<Element>, t: string)
    ensures FirstTagged(s, t) == if Filter(HasTag(t), s) == [] then None else Some(Filter(HasTag(t), s)[0])
    decreases |s|
  {
    if s != [] {
      assert s == [s[0]] + s[1..];
      FilterConcat(HasTag(t), [s[0]], s[1..]);
      assert [s[0]][..0] == [];
      assert Filter(HasTag(t), [s[0]]) == Filter(HasTag(t), []) + (if s[0].tag == t then [s[0]] else []);
      FirstTaggedIsFilterHead(s[1..], t);
    }
  }

  lemma FindIsHeadOfFindAll(e: Element, t: string)
    ensures Find(e, t) == if FindAll(e, t) == [] then None else Some(FindAll(e, t)[0])
  {
    FirstTaggedIsFilterHead(Descendants(e), t);
  }

  /** The status Robot Framework writes as a test's own last child is not what
      find(".//status") returns when a keyword with its own status comes
      first: the search takes the keyword's status. */
  lemma StatusIsFirstNestedStatus()
    ensures
      var kwStatus := Element("status", map["status" := "PASS"], None, []);
      var kw := Element("kw", map["name" := "Open Browser"], None, [kwStatus]);
      var testStatus := Element("status", map["status" := "FAIL"], Some("boom"), []);
      var test := Element("test", map["name" := "Login"], None, [kw, testStatus]);
      Find(test, "status") == Some(kwStatus)
  {
    var kwStatus := Element("status", map["status" := "PASS"], None, []);
    var kw := Element("kw", map["name" := "Open Browser"], None, [kwStatus]);
    var testStatus := Element("status", map["status" := "FAIL"], Some("boom"), []);
    var test := Element("test", map["name" := "Login"], None, [kw, testStatus]);
    assert Forest([kwStatus]) == [kwStatus];
    assert Subtree(kw) == [kw, kwStatus];
    assert Forest([testStatus]) == [testStatus];
    assert Descendants(test) == [kw, kwStatus, testStatus];
  }
}
