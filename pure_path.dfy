/** The part of pathlib's PurePosixPath that the test runner relies on:
    reading a path text into a root and parts, joining with `/`, and str().
    Reading drops empty parts (repeated and trailing slashes) and "." parts
    and keeps "..". Exactly two leading slashes form a root of their own; one,
    or three or more, form "/". A part that has a root replaces the path it is
    joined to, and a path with no root and no parts reads as ".". */
module PurePath {
  import opened Base

  /** text.split("/") */
  function SplitSlash(s: string): (r: seq<string>)
    ensures |r| >= 1
    ensures forall k :: 0 <= k < |r| ==> '/' !in r[k]
  {
    if s == [] then [""]
    else
      var rest := SplitSlash(s[1..]);
      if s[0] == '/' then [""] + rest
      else [[s[0]] + rest[0]] + rest[1..]
  }

  /** "/".join(parts) */
  function JoinSlash(parts: seq<string>): string {
    if parts == [] then ""
    else if |parts| == 1 then parts[0]
    else parts[0] + "/" + JoinSlash(parts[1..])
  }

  /** A part that survives reading: neither "" nor ".". */
  predicate IsPart(p: string) {
    |p| > 0 && !(|p| == 1 && p[0] == '.')
  }

  /** The parts of a path text, in order. */
  function Parts(s: string): seq<string> {
    Filter(IsPart, SplitSlash(s))
  }

  /** The root of a path text. */
  function RootOf(s: string): string {
    if |s| >= 2 && s[0] == '/' && s[1] == '/' && (|s| == 2 || s[2] != '/') then "//"
    else if |s| >= 1 && s[0] == '/' then "/"
    else ""
  }

  /** str() of the path with this root and these parts. */
  function Render(root: string, parts: seq<string>): string {
    if root == "" && parts == [] then "." else root + JoinSlash(parts)
  }

  /** str(PurePosixPath(s)) */
  function PathStr(s: string): string {
    Render(RootOf(s), Parts(s))
  }

  /** str(PurePosixPath(base) / part) */
  function JoinPath(base: string, part: string): string {
    if RootOf(part) != "" then PathStr(part)
    else Render(RootOf(base), Parts(base) + Parts(part))
  }

  // ---------------------------------------------------------------------------
  // Splitting and joining

  /** Joining the pieces of a split gives the text back. */
  lemma {:induction false} SplitJoin(s: string)
    ensures JoinSlash(SplitSlash(s)) == s
    decreases |s|
  {
    if s != [] {
      var rest := SplitSlash(s[1..]);
      SplitJoin(s[1..]);
      if s[0] == '/' {
        assert JoinSlash([""] + rest) == "" + "/" + JoinSlash(rest);
      } else if |rest| == 1 {
        assert [[s[0]] + rest[0]] + rest[1..] == [[s[0]] + rest[0]];
      } else {
        assert ([[s[0]] + rest[0]] + rest[1..])[1..] == rest[1..];
        assert JoinSlash(rest) == rest[0] + "/" + JoinSlash(rest[1..]);
      }
    }
  }

  /** Text without a slash is one piece. */
  lemma {:induction false} SplitNoSlash(p: string)
    requires '/' !in p
    ensures SplitSlash(p) == [p]
    decreases |p|
  {
    if p != [] {
      assert '/' !in p[1..] by {
        forall k | 0 <= k < |p[1..]| ensures p[1..][k] != '/' { assert p[1..][k] == p[k + 1]; }
      }
      SplitNoSlash(p[1..]);
      assert [p[0]] + p[1..] == p;
    }
  }

  /** A slash-free piece followed by a slash splits off as the first piece. */
  lemma {:induction false} SplitAfterPiece(p: string, t: string)
    requires '/' !in p
    ensures SplitSlash(p + "/" + t) == [p] + SplitSlash(t)
    decreases |p|
  {
    if p == [] {
      assert (p + "/" + t)[1..] == t;
    } else {
      assert '/' !in p[1..] by {
        forall k | 0 <= k < |p[1..]| ensures p[1..][k] != '/' { assert p[1..][k] == p[k + 1]; }
      }
      SplitAfterPiece(p[1..], t);
      assert (p + "/" + t)[1..] == p[1..] + "/" + t;
      assert [p[0]] + p[1..] == p;
    }
  }

  /** Splitting a join of slash-free pieces gives the pieces back. */
  lemma {:induction false} JoinSplit(parts: seq<string>)
    requires |parts| >= 1
    requires forall k :: 0 <= k < |parts| ==> '/' !in parts[k]
    ensures SplitSlash(JoinSlash(parts)) == parts
    decreases |parts|
  {
    if |parts| == 1 {
      SplitNoSlash(parts[0]);
    } else {
      JoinSplit(parts[1..]);
      SplitAfterPiece(parts[0], JoinSlash(parts[1..]));
      assert [parts[0]] + parts[1..] == parts;
    }
  }

  /** A join starts with its first piece. */
  lemma {:induction false} JoinStartsWithFirst(parts: seq<string>)
    requires |parts| >= 1
    ensures |JoinSlash(parts)| >= |parts[0]| && JoinSlash(parts)[..|parts[0]|] == parts[0]
    decreases |parts|
  {
  }

  /** Joining one more piece adds a slash and the piece. */
  lemma {:induction false} JoinSnoc(parts: seq<string>, x: string)
    requires |parts| >= 1
    ensures JoinSlash(parts + [x]) == JoinSlash(parts) + "/" + x
    decreases |parts|
  {
    if |parts| > 1 {
      assert (parts + [x])[1..] == parts[1..] + [x];
      JoinSnoc(parts[1..], x);
    }
  }

  /** An empty piece in front is dropped. */
  lemma EmptyPieceDropped(ps: seq<string>)
    ensures Filter(IsPart, [""] + ps) == Filter(IsPart, ps)
  {
    FilterConcat(IsPart, [""], ps);
    assert [""][..0] == [];
  }

  // ---------------------------------------------------------------------------
  // Properties of str(Path(...))

  /** A well-formed root. */
  predicate IsRoot(root: string) {
    root == "" || root == "/" || root == "//"
  }

  /** Parts that reading can produce. */
  predicate PartList(parts: seq<string>) {
    forall k :: 0 <= k < |parts| ==> IsPart(parts[k]) && '/' !in parts[k]
  }

  /** Reading a path gives a well-formed root and parts. */
  lemma PartsArePartList(s: string)
    ensures IsRoot(RootOf(s)) && PartList(Parts(s))
  {
    var sp := SplitSlash(s);
    forall k | 0 <= k < |Parts(s)| ensures IsPart(Parts(s)[k]) && '/' !in Parts(s)[k] {
      assert Parts(s)[k] in Parts(s);
      var j :| 0 <= j < |sp| && sp[j] == Parts(s)[k];
    }
  }

  /** "." reads as the empty relative path. */
  lemma ReadDot()
    ensures RootOf(".") == "" && Parts(".") == []
  {
    SplitNoSlash(".");
    assert ["."][..0] == [];
  }

  /** "/" reads as the root alone. */
  lemma ReadSlash()
    ensures RootOf("/") == "/" && Parts("/") == []
  {
    var t: string := "";
    assert t + "/" + t == "/";
    SplitAfterPiece(t, t);
    EmptyPieceDropped([t]);
    EmptyPieceDropped([]);
    assert [t] + [] == [t];
  }

  /** "//" reads as the two-slash root alone. */
  lemma ReadTwoSlashes()
    ensures RootOf("//") == "//" && Parts("//") == []
  {
    var t: string := "";
    assert t + "/" + "/" == "//";
    SplitAfterPiece(t, "/");
    ReadSlash();
    EmptyPieceDropped(SplitSlash("/"));
  }

  /** The empty relative path, "/" and "//" read back as themselves. */
  lemma RenderReadNoParts(root: string)
    requires IsRoot(root)
    ensures RootOf(Render(root, [])) == root
    ensures Parts(Render(root, [])) == []
  {
    if root == "" {
      ReadDot();
    } else if root == "/" {
      assert Render(root, []) == "/";
      ReadSlash();
    } else {
      assert Render(root, []) == "//";
      ReadTwoSlashes();
    }
  }

  /** "/" in front of a join splits off as one empty piece. */
  lemma SplitOneSlash(parts: seq<string>)
    requires parts != [] && PartList(parts)
    ensures SplitSlash("/" + JoinSlash(parts)) == [""] + parts
  {
    var j := JoinSlash(parts);
    JoinSplit(parts);
    assert "/" + j == "" + "/" + j;
    SplitAfterPiece("", j);
  }

  /** "//" in front of a join splits off as two empty pieces. */
  lemma SplitTwoSlashes(parts: seq<string>)
    requires parts != [] && PartList(parts)
    ensures SplitSlash("//" + JoinSlash(parts)) == [""] + ([""] + parts)
  {
    var j := JoinSlash(parts);
    JoinSplit(parts);
    assert "//" + j == "" + "/" + ("/" + j);
    assert "/" + j == "" + "/" + j;
    SplitAfterPiece("", "/" + j);
    SplitAfterPiece("", j);
  }

  /** A root put in front of a join of parts is read back as that root. */
  lemma RootOfRooted(root: string, parts: seq<string>)
    requires IsRoot(root) && parts != [] && PartList(parts)
    ensures RootOf(root + JoinSlash(parts)) == root
  {
    var j := JoinSlash(parts);
    JoinStartsWithFirst(parts);
    assert j[0] == parts[0][0];
    assert j[0] != '/';
    if root == "/" {
      assert (root + j)[0] == '/' && (root + j)[1] == j[0];
    } else if root == "//" {
      assert (root + j)[0] == '/' && (root + j)[1] == '/' && (root + j)[2] == j[0];
    } else {
      assert (root + j)[0] == j[0];
    }
  }

  /** Reading the rendered text gives back the same root and parts. */
  lemma RenderRead(root: string, parts: seq<string>)
    requires IsRoot(root) && PartList(parts)
    ensures RootOf(Render(root, parts)) == root
    ensures Parts(Render(root, parts)) == parts
  {
    if parts == [] {
      RenderReadNoParts(root);
    } else {
      RootOfRooted(root, parts);
      FilterAll(IsPart, parts);
      if root == "" {
        JoinSplit(parts);
        assert Render(root, parts) == JoinSlash(parts);
      } else if root == "/" {
        SplitOneSlash(parts);
        EmptyPieceDropped(parts);
      } else {
        SplitTwoSlashes(parts);
        EmptyPieceDropped([""] + parts);
        EmptyPieceDropped(parts);
      }
    }
  }

  /** str(Path(str(Path(s)))) == str(Path(s)): rendering is already normal. */
  lemma PathStrIdempotent(s: string)
    ensures PathStr(PathStr(s)) == PathStr(s)
  {
    PartsArePartList(s);
    RenderRead(RootOf(s), Parts(s));
  }

  /** A relative part is appended part by part under the base's root; a part
      with a root replaces the base. */
  lemma JoinPathMeaning(base: string, part: string)
    ensures RootOf(part) != "" ==> JoinPath(base, part) == PathStr(part)
    ensures RootOf(part) == "" ==>
      RootOf(JoinPath(base, part)) == RootOf(base) &&
      Parts(JoinPath(base, part)) == Parts(base) + Parts(part)
  {
    if RootOf(part) == "" {
      PartsArePartList(base);
      PartsArePartList(part);
      RenderRead(RootOf(base), Parts(base) + Parts(part));
    }
  }

  /** A joined path is already in normal form. */
  lemma JoinPathNormal(base: string, part: string)
    ensures PathStr(JoinPath(base, part)) == JoinPath(base, part)
  {
    if RootOf(part) != "" {
      PathStrIdempotent(part);
    } else {
      PartsArePartList(base);
      PartsArePartList(part);
      RenderRead(RootOf(base), Parts(base) + Parts(part));
    }
  }

  /** A plain name under a directory with at least one part is that
      directory's text, a slash and the name. */
  lemma JoinPlainName(base: string, name: string)
    requires Parts(base) != []
    requires IsPart(name) && '/' !in name
    ensures JoinPath(base, name) == PathStr(base) + "/" + name
  {
    ReadPlainName(name);
    JoinUnderBase(base, name);
  }

  /** A relative part that reads as one name is appended to the base's text. */
  lemma JoinUnderBase(base: string, part: string)
    requires Parts(base) != []
    requires RootOf(part) == "" && |Parts(part)| == 1
    ensures JoinPath(base, part) == PathStr(base) + "/" + Parts(part)[0]
  {
    assert Parts(part) == [Parts(part)[0]];
    JoinSnoc(Parts(base), Parts(part)[0]);
  }

  /** A name read alone is one part and no root. */
  lemma ReadPlainName(name: string)
    requires IsPart(name) && '/' !in name
    ensures RootOf(name) == "" && Parts(name) == [name]
  {
    SplitNoSlash(name);
    FilterAll(IsPart, [name]);
    assert name[0] != '/';
  }

  /** A name followed by a slash reads as that name alone. */
  lemma ReadNameSlash(name: string)
    requires IsPart(name) && '/' !in name
    ensures RootOf(name + "/") == "" && Parts(name + "/") == [name]
  {
    var t: string := "";
    assert name + "/" == name + "/" + t;
    SplitAfterPiece(name, t);
    FilterConcat(IsPart, [name], [t]);
    assert [t][..0] == [];
    FilterAll(IsPart, [name]);
    assert (name + "/")[0] == name[0];
  }

  /** A trailing slash goes: `Path(d) / "ui/"` is `Path(d) / "ui"`. */
  lemma TrailingSlashDropped(base: string, name: string)
    requires Parts(base) != []
    requires IsPart(name) && '/' !in name
    ensures JoinPath(base, name + "/") == PathStr(base) + "/" + name
  {
    ReadNameSlash(name);
    JoinUnderBase(base, name + "/");
  }

  /** A leading "." part goes: `Path("./a.robot")` is "a.robot". */
  lemma DotPartDropped(name: string)
    requires IsPart(name) && '/' !in name
    ensures PathStr("./" + name) == name
  {
    SplitDotName(name);
    EmptyDotDropped(name);
    assert ("./" + name)[0] == '.';
    assert RootOf("./" + name) == "";
  }

  /** "./" followed by a name splits into "." and the name. */
  lemma SplitDotName(name: string)
    requires '/' !in name
    ensures SplitSlash("./" + name) == ["."] + [name]
  {
    assert "./" + name == "." + "/" + name;
    SplitAfterPiece(".", name);
    SplitNoSlash(name);
  }

  /** Of "." and a name, only the name is a part. */
  lemma EmptyDotDropped(name: string)
    requires IsPart(name)
    ensures Filter(IsPart, ["."] + [name]) == [name]
  {
    FilterConcat(IsPart, ["."], [name]);
    assert ["."][..0] == [];
    FilterAll(IsPart, [name]);
  }

  /** A part with a root replaces the base: `Path(d) / "/x"` is "/x". */
  lemma AbsoluteNameReplaces(base: string, name: string)
    requires IsPart(name) && '/' !in name
    ensures JoinPath(base, "/" + name) == "/" + name
  {
    assert JoinSlash([name]) == name;
    assert PartList([name]);
    RootOfRooted("/", [name]);
    SplitOneSlash([name]);
    EmptyPieceDropped([name]);
    FilterAll(IsPart, [name]);
  }
}
