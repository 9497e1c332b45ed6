/** A Python dict from strings to strings, as its items in insertion order:
    assignment, deletion and lookup, with the laws the scripts rely on. */
module OrderedDict {
  import opened Base

  /** A Python dict from strings to strings: its items in insertion order. */
  type Dict = seq<(string, string)>

  predicate DistinctKeys(d: Dict) {
    forall i, j :: 0 <= i < j < |d| ==> d[i].0 != d[j].0
  }

  predicate HasKey(d: Dict, k: string) {
    exists i :: 0 <= i < |d| && d[i].0 == k
  }

  /** d.get(k) */
  function Get(d: Dict, k: string): Option<string> {
    if d == [] then None else if d[0].0 == k then Some(d[0].1) else Get(d[1..], k)
  }

  /** Assigning `v` to key `k`: an existing key keeps its place and gets the
      new value, a new key goes to the end. */
  function DictSet(d: Dict, k: string, v: string): Dict {
    if d == [] then [(k, v)]
    else if d[0].0 == k then [(k, v)] + d[1..]
    else [d[0]] + DictSet(d[1..], k, v)
  }

  /** After the assignment, k maps to v and every other key keeps its value. */
  lemma {:induction false} DictSetGet(d: Dict, k: string, v: string, k': string)
    ensures Get(DictSet(d, k, v), k') == if k' == k then Some(v) else Get(d, k')
    decreases |d|
  {
    if d != [] && d[0].0 != k {
      DictSetGet(d[1..], k, v, k');
      assert DictSet(d, k, v)[1..] == DictSet(d[1..], k, v);
    }
  }

  /** A new key is appended; an existing key is updated where it stands. */
  lemma {:induction false} DictSetPlace(d: Dict, k: string, v: string)
    ensures !HasKey(d, k) ==> DictSet(d, k, v) == d + [(k, v)]
    ensures HasKey(d, k) ==> (|DictSet(d, k, v)| == |d|
      && forall i :: 0 <= i < |d| ==> DictSet(d, k, v)[i].0 == d[i].0)
    decreases |d|
  {
    if d != [] && d[0].0 != k {
      DictSetPlace(d[1..], k, v);
      if HasKey(d, k) {
        var i :| 0 <= i < |d| && d[i].0 == k;
        assert d[1..][i - 1].0 == k;
      } else {
        assert forall i :: 0 <= i < |d| - 1 ==> d[1..][i].0 == d[i + 1].0;
        assert [d[0]] + (d[1..] + [(k, v)]) == d + [(k, v)];
      }
    } else if d != [] && d[0].0 == k {
      assert HasKey(d, k);
    }
  }

  /** Keys stay distinct under an assignment. */
  lemma DictSetDistinct(d: Dict, k: string, v: string)
    requires DistinctKeys(d)
    ensures DistinctKeys(DictSet(d, k, v))
  {
    DictSetPlace(d, k, v);
    if !HasKey(d, k) {
      var r := d + [(k, v)];
      forall i, j | 0 <= i < j < |r| ensures r[i].0 != r[j].0 {
        if j == |d| { assert r[i] == d[i]; }
      }
    }
  }

  /** The assignments `updates` applied in order. */
  function SetAll(d: Dict, updates: seq<(string, string)>): Dict {
    if updates == [] then d
    else
      var last := updates[|updates| - 1];
      DictSet(SetAll(d, updates[..|updates| - 1]), last.0, last.1)
  }

  lemma {:induction false} SetAllConcat(d: Dict, a: seq<(string, string)>, b: seq<(string, string)>)
    ensures SetAll(d, a + b) == SetAll(SetAll(d, a), b)
    decreases |b|
  {
    if b == [] {
      assert a + b == a;
    } else {
      assert (a + b)[..|a + b| - 1] == a + b[..|b| - 1];
      SetAllConcat(d, a, b[..|b| - 1]);
    }
  }

  lemma SetAllStep(d: Dict, updates: seq<(string, string)>, k: string, v: string)
    ensures SetAll(d, updates + [(k, v)]) == DictSet(SetAll(d, updates), k, v)
  {
    assert (updates + [(k, v)])[..|updates|] == updates;
  }

  lemma {:induction false} SetAllDistinct(d: Dict, updates: seq<(string, string)>)
    requires DistinctKeys(d)
    ensures DistinctKeys(SetAll(d, updates))
    decreases |updates|
  {
    if updates != [] {
      SetAllDistinct(d, updates[..|updates| - 1]);
      var last := updates[|updates| - 1];
      DictSetDistinct(SetAll(d, updates[..|updates| - 1]), last.0, last.1);
    }
  }

  /** The value the last assignment to k in `updates` gives, if any. */
  function LastFor(updates: seq<(string, string)>, k: string): Option<string> {
    if updates == [] then None
    else if updates[|updates| - 1].0 == k then Some(updates[|updates| - 1].1)
    else LastFor(updates[..|updates| - 1], k)
  }

  /** With distinct keys, the last assignment to a key is its only one. */
  lemma {:induction false} LastForDistinct(updates: seq<(string, string)>, i: nat)
    requires DistinctKeys(updates) && i < |updates|
    ensures LastFor(updates, updates[i].0) == Some(updates[i].1)
    decreases |updates|
  {
    if i < |updates| - 1 {
      var init := updates[..|updates| - 1];
      assert init[i] == updates[i];
      LastForDistinct(init, i);
    }
  }

  /** After a run of assignments, a key has the value last assigned to it,
      or its old value when it was not assigned. */
  lemma {:induction false} SetAllGet(d: Dict, updates: seq<(string, string)>, k: string)
    ensures Get(SetAll(d, updates), k) == if LastFor(updates, k).Some? then LastFor(updates, k) else Get(d, k)
    decreases |updates|
  {
    if updates != [] {
      var last := updates[|updates| - 1];
      SetAllGet(d, updates[..|updates| - 1], k);
      DictSetGet(SetAll(d, updates[..|updates| - 1]), last.0, last.1, k);
    }
  }

  /** A key has a value exactly when it is present. */
  lemma {:induction false} GetHasKey(d: Dict, k: string)
    ensures Get(d, k).Some? <==> HasKey(d, k)
    decreases |d|
  {
    if d != [] && d[0].0 != k {
      GetHasKey(d[1..], k);
      if HasKey(d, k) {
        var i :| 0 <= i < |d| && d[i].0 == k;
        assert d[1..][i - 1].0 == k;
      }
    }
  }

  /** del d[k]: the item with key k leaves, the others keep their order. */
  function Remove(d: Dict, k: string): Dict {
    if d == [] then []
    else if d[0].0 == k then d[1..]
    else [d[0]] + Remove(d[1..], k)
  }

  /** Removing a key that is not there changes nothing. */
  lemma {:induction false} RemoveAbsent(d: Dict, k: string)
    requires !HasKey(d, k)
    ensures Remove(d, k) == d
    decreases |d|
  {
    if d != [] {
      assert forall i :: 0 <= i < |d[1..]| ==> d[1..][i] == d[i + 1];
      RemoveAbsent(d[1..], k);
    }
  }

  /** The items left after del d[k] are items of d. */
  lemma {:induction false} RemoveSubset(d: Dict, k: string)
    ensures forall e :: e in Remove(d, k) ==> e in d
    decreases |d|
  {
    if d != [] && d[0].0 != k {
      RemoveSubset(d[1..], k);
    }
  }

  /** With distinct keys, del d[k] leaves no item under k. */
  lemma {:induction false} RemoveNoKey(d: Dict, k: string)
    requires DistinctKeys(d)
    ensures forall e :: e in Remove(d, k) ==> e.0 != k
    decreases |d|
  {
    if d != [] {
      var rest := d[1..];
      if d[0].0 == k {
        forall e | e in rest ensures e.0 != k {
          var i :| 0 <= i < |rest| && rest[i] == e;
          assert rest[i] == d[i + 1];
        }
      } else {
        assert DistinctKeys(rest) by {
          forall i, j | 0 <= i < j < |rest| ensures rest[i].0 != rest[j].0 {
            assert rest[i] == d[i + 1] && rest[j] == d[j + 1];
          }
        }
        RemoveNoKey(rest, k);
      }
    }
  }

  /** Keys stay distinct under del d[k]. */
  lemma {:induction false} RemoveDistinct(d: Dict, k: string)
    requires DistinctKeys(d)
    ensures DistinctKeys(Remove(d, k))
    decreases |d|
  {
    if d != [] && d[0].0 != k {
      var rest := d[1..];
      assert DistinctKeys(rest) by {
        forall i, j | 0 <= i < j < |rest| ensures rest[i].0 != rest[j].0 {
          assert rest[i] == d[i + 1] && rest[j] == d[j + 1];
        }
      }
      RemoveDistinct(rest, k);
      RemoveSubset(rest, k);
      var tail := Remove(rest, k);
      var r := [d[0]] + tail;
      assert Remove(d, k) == r;
      forall j | 0 <= j < |tail| ensures tail[j].0 != d[0].0 {
        assert tail[j] in rest;
        var m :| 0 <= m < |rest| && rest[m] == tail[j];
        assert rest[m] == d[m + 1];
      }
      forall i, j | 0 <= i < j < |r| ensures r[i].0 != r[j].0 {
        assert r[j] == tail[j - 1];
        if i > 0 {
          assert r[i] == tail[i - 1];
        }
      }
    }
  }

  /** del d[k] removes k and keeps the keys distinct. */
  lemma RemoveItems(d: Dict, k: string)
    requires DistinctKeys(d)
    ensures DistinctKeys(Remove(d, k)) && !HasKey(Remove(d, k), k)
  {
    RemoveNoKey(d, k);
    RemoveDistinct(d, k);
    var r := Remove(d, k);
    forall i | 0 <= i < |r| ensures r[i].0 != k {
      assert r[i] in r;
    }
  }

  /** After del d[k], k has no value and every other key keeps its value. */
  lemma {:induction false} RemoveGet(d: Dict, k: string, k': string)
    requires DistinctKeys(d)
    ensures Get(Remove(d, k), k') == if k' == k then None else Get(d, k')
    decreases |d|
  {
    RemoveItems(d, k);
    GetHasKey(Remove(d, k), k);
    if d != [] && d[0].0 != k {
      var rest := d[1..];
      assert forall i, j :: 0 <= i < j < |rest| ==> rest[i] == d[i + 1] && rest[j] == d[j + 1];
      RemoveGet(rest, k, k');
    }
  }

  /** Deleting twice is deleting once. */
  lemma RemoveIdempotent(d: Dict, k: string)
    requires DistinctKeys(d)
    ensures Remove(Remove(d, k), k) == Remove(d, k)
  {
    RemoveItems(d, k);
    RemoveAbsent(Remove(d, k), k);
  }

  /** Deleting a key just appended restores the dictionary. */
  lemma {:induction false} RemoveAppended(d: Dict, k: string, v: string)
    requires !HasKey(d, k)
    ensures Remove(d + [(k, v)], k) == d
    decreases |d|
  {
    if d != [] {
      var rest := d[1..];
      assert forall i :: 0 <= i < |rest| ==> rest[i] == d[i + 1];
      assert (d + [(k, v)])[1..] == rest + [(k, v)];
      RemoveAppended(rest, k, v);
    }
  }

  /** For assignments with distinct keys, the last value assigned to a key
      is its value in them read as a dictionary. */
  lemma {:induction false} LastForGet(updates: seq<(string, string)>, k: string)
    requires DistinctKeys(updates)
    ensures LastFor(updates, k) == Get(updates, k)
    decreases |updates|
  {
    if updates != [] {
      var rest := updates[1..];
      assert forall i, j :: 0 <= i < j < |rest| ==> rest[i] == updates[i + 1] && rest[j] == updates[j + 1];
      if updates[0].0 == k {
        LastForDistinct(updates, 0);
      } else {
        LastForGet(rest, k);
        LastForSkipFirst(updates, k);
      }
    }
  }

  /** The last assignment to k does not look at a first item under another key. */
  lemma {:induction false} LastForSkipFirst(updates: seq<(string, string)>, k: string)
    requires updates != [] && updates[0].0 != k
    ensures LastFor(updates, k) == LastFor(updates[1..], k)
    decreases |updates|
  {
    if |updates| > 1 {
      var init := updates[..|updates| - 1];
      assert init[1..] == updates[1..][..|updates[1..]| - 1];
      LastForSkipFirst(init, k);
    }
  }
}
