/** The requirements list of the package metadata: the lines of the
    requirements file, each stripped, without blank lines and without lines
    whose first character is '#'. The comment test looks at the raw line,
    so an indented comment is kept (stripped). */
module SetupRequirements {
  import opened Base

  /** A line survives when it is not blank and does not start with '#'. */
  predicate Kept(line: string) {
    Strip(line) != [] && !StartsWith(line, "#")
  }

  /** The list comprehension over the lines of the file. */
  function Requirements(lines: seq<string>): (r: seq<string>)
    ensures |r| <= |lines|
  {
    if lines == [] then []
    else (if Kept(lines[0]) then [Strip(lines[0])] else []) + Requirements(lines[1..])
  }

  /** The filter works line by line: the file split anywhere gives the two
      results one after the other, i.e. order is preserved. */
  lemma {:induction false} RequirementsConcat(a: seq<string>, b: seq<string>)
    ensures Requirements(a + b) == Requirements(a) + Requirements(b)
    decreases |a|
  {
    if a == [] {
      assert a + b == b;
    } else {
      ConcatTail(a, b);
      RequirementsConcat(a[1..], b);
      var head := if Kept(a[0]) then [Strip(a[0])] else [];
      ConcatAssoc(head, Requirements(a[1..]), Requirements(b));
    }
  }

  /** Every requirement is the strip of a kept line. */
  lemma {:induction false} RequirementFromKeptLine(lines: seq<string>, k: int)
    requires 0 <= k < |Requirements(lines)|
    ensures exists j :: 0 <= j < |lines| && Kept(lines[j]) && Requirements(lines)[k] == Strip(lines[j])
    decreases |lines|
  {
    var rest := lines[1..];
    if Kept(lines[0]) && k == 0 {
      assert Requirements(lines)[0] == Strip(lines[0]);
    } else {
      var k' := if Kept(lines[0]) then k - 1 else k;
      assert Requirements(lines)[k] == Requirements(rest)[k'];
      RequirementFromKeptLine(rest, k');
      var j :| 0 <= j < |rest| && Kept(rest[j]) && Requirements(rest)[k'] == Strip(rest[j]);
      assert lines[j + 1] == rest[j];
    }
  }

  /** Every kept line contributes its strip. */
  lemma {:induction false} KeptLineIsRequirement(lines: seq<string>, j: int)
    requires 0 <= j < |lines| && Kept(lines[j])
    ensures Strip(lines[j]) in Requirements(lines)
    decreases |lines|
  {
    if j > 0 {
      var rest := lines[1..];
      assert lines[j] == rest[j - 1];
      KeptLineIsRequirement(rest, j - 1);
    }
  }

  /** Every requirement is non-empty and has no surrounding whitespace. */
  lemma RequirementStripped(lines: seq<string>, k: int)
    requires 0 <= k < |Requirements(lines)|
    ensures Requirements(lines)[k] != []
    ensures Strip(Requirements(lines)[k]) == Requirements(lines)[k]
  {
    RequirementFromKeptLine(lines, k);
    var j :| 0 <= j < |lines| && Kept(lines[j]) && Requirements(lines)[k] == Strip(lines[j]);
    StripIdempotent(lines[j]);
  }

  /** A blank or whitespace-only line contributes nothing. */
  lemma BlankLineDropped(line: string)
    requires forall k :: 0 <= k < |line| ==> IsSpace(line[k])
    ensures Requirements([line]) == []
  {
    StripMeaning(line);
  }

  /** A line whose first character is '#' contributes nothing. */
  lemma CommentLineDropped(line: string)
    requires |line| > 0 && line[0] == '#'
    ensures Requirements([line]) == []
  {
    assert line[..1] == "#";
  }

  /** An indented comment is not recognised as a comment: it is kept, stripped. */
  lemma IndentedCommentKept()
    ensures Requirements([" #x\n"]) == ["#x"]
  {
    var line := " #x\n";
    assert LeadingSpaces(line[1..]) == 0;
    assert LeadingSpaces(line) == 1;
    assert TrailingSpaces(line[..3]) == 0;
    assert TrailingSpaces(line) == 1;
    assert line[1..3] == "#x";
    assert !StartsWith(line, "#");
  }
}
