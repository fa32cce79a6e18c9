/**
 * Counting added and removed lines between two texts: the smallest single block of
 * lines whose replacement turns the old text into the new one.
 */
module LineDiff {
  import opened JsText

  // ---- Lines ----

  /** A text broken at its newlines; a text without one is a single line. */
  function SplitLines(text: Text): (lines: seq<Text>)
    ensures lines != []
  {
    if text == [] then [[]]
    else
      var rest := SplitLines(text[1..]);
      if text[0] == NEWLINE then [[]] + rest else [[text[0]] + rest[0]] + rest[1..]
  }

  /** The empty text has no line at all. */
  function LinesOf(text: Text): seq<Text> {
    if text == [] then [] else SplitLines(text)
  }

  function JoinLines(lines: seq<Text>): Text {
    if lines == [] then []
    else if |lines| == 1 then lines[0]
    else lines[0] + [NEWLINE] + JoinLines(lines[1..])
  }

  /** Putting a unit before the lines of a text, as a break or as part of the first line. */
  lemma JoinOneMore(unit: CodeUnit, rest: seq<Text>)
    requires rest != []
    ensures JoinLines([[]] + rest) == [NEWLINE] + JoinLines(rest)
    ensures JoinLines([[unit] + rest[0]] + rest[1..]) == [unit] + JoinLines(rest)
  {
    assert ([[]] + rest)[1..] == rest;
    assert ([[unit] + rest[0]] + rest[1..])[1..] == rest[1..];
    if |rest| > 1 {
      assert [unit] + rest[0] + [NEWLINE] + JoinLines(rest[1..]) == [unit] + (rest[0] + [NEWLINE] + JoinLines(rest[1..]));
    }
  }

  /** Joining the lines gives the text back, so texts with the same lines are the same. */
  lemma {:induction false} JoinUndoesSplit(text: Text)
    ensures JoinLines(LinesOf(text)) == text
    ensures JoinLines(SplitLines(text)) == text
  {
    if text != [] {
      hide JoinLines;
      JoinUndoesSplit(text[1..]);
      JoinOneMore(text[0], SplitLines(text[1..]));
      assert text == [text[0]] + text[1..];
    }
  }

  /** No line holds a newline. */
  lemma {:induction false} LinesAreUnbroken(text: Text)
    ensures forall i :: 0 <= i < |SplitLines(text)| ==> NEWLINE !in SplitLines(text)[i]
  {
    if text != [] { LinesAreUnbroken(text[1..]); }
  }

  function Newlines(text: Text): nat {
    if text == [] then 0 else (if text[0] == NEWLINE then 1 else 0) + Newlines(text[1..])
  }

  /** The empty text has no lines, any other text one more than it has newlines. */
  lemma {:induction false} LinesFollowNewlines(text: Text)
    ensures |LinesOf(text)| == if text == [] then 0 else Newlines(text) + 1
    ensures |SplitLines(text)| == Newlines(text) + 1
  {
    if text != [] { LinesFollowNewlines(text[1..]); }
  }

  // ---- Edits ----

  /** Replacing `removed` old lines at `at` by `added` new lines turns the old lines into the new ones. */
  predicate EditsAt(oldLines: seq<Text>, newLines: seq<Text>, at: nat, removed: nat, added: nat) {
    && at + removed <= |oldLines|
    && at + added <= |newLines|
    && oldLines[..at] + newLines[at..at + added] + oldLines[at + removed..] == newLines
  }

  ghost predicate Edits(oldLines: seq<Text>, newLines: seq<Text>, removed: nat, added: nat) {
    exists at: nat :: EditsAt(oldLines, newLines, at, removed, added)
  }

  /** Both counts are as small as in any single-block edit. */
  ghost predicate Smallest(oldLines: seq<Text>, newLines: seq<Text>, removed: nat, added: nat) {
    forall r: nat, a: nat :: Edits(oldLines, newLines, r, a) ==> removed <= r && added <= a
  }

  /** An edit leaves a common prefix and, behind the block, a common suffix. */
  lemma EditKeepsEnds(oldLines: seq<Text>, newLines: seq<Text>, at: nat, removed: nat, added: nat)
    ensures EditsAt(oldLines, newLines, at, removed, added) <==>
      && at + removed <= |oldLines|
      && at + added <= |newLines|
      && oldLines[..at] == newLines[..at]
      && oldLines[at + removed..] == newLines[at + added..]
  {
    if at + removed <= |oldLines| && at + added <= |newLines| {
      var edited := oldLines[..at] + newLines[at..at + added] + oldLines[at + removed..];
      assert edited[..at] == oldLines[..at] && edited[at + added..] == oldLines[at + removed..];
      assert newLines == newLines[..at] + newLines[at..at + added] + newLines[at + added..];
    }
  }

  /** The difference of the counts is that of the lengths, and nothing changes exactly for equal lines. */
  lemma SmallestEditCounts(oldLines: seq<Text>, newLines: seq<Text>, removed: nat, added: nat)
    requires Edits(oldLines, newLines, removed, added) && Smallest(oldLines, newLines, removed, added)
    ensures added - removed == |newLines| - |oldLines|
    ensures added == removed == 0 <==> oldLines == newLines
  {
    var at: nat :| EditsAt(oldLines, newLines, at, removed, added);
    EditKeepsEnds(oldLines, newLines, at, removed, added);
    assert |oldLines| - (at + removed) == |oldLines[at + removed..]|;
    if oldLines == newLines {
      EditKeepsEnds(oldLines, newLines, 0, 0, 0);
      assert EditsAt(oldLines, newLines, 0, 0, 0);
      assert Edits(oldLines, newLines, 0, 0);
    }
    if added == removed == 0 {
      assert oldLines == oldLines[..at] + oldLines[at..];
      assert newLines == newLines[..at] + newLines[at..];
    }
  }

  // ---- The computation ----

  predicate CommonPrefix(a: seq<Text>, b: seq<Text>, n: nat) {
    n <= |a| && n <= |b| && a[..n] == b[..n]
  }

  predicate CommonSuffix(a: seq<Text>, b: seq<Text>, n: nat) {
    n <= |a| && n <= |b| && a[|a| - n..] == b[|b| - n..]
  }

  function Min(a: nat, b: nat): nat {
    if a <= b then a else b
  }

  lemma PrefixContinues(a: seq<Text>, b: seq<Text>, n: nat, i: nat)
    requires CommonPrefix(a, b, n) && i < n
    ensures a[i] == b[i]
  {
    assert a[..n][i] == b[..n][i];
  }

  lemma SuffixContinues(a: seq<Text>, b: seq<Text>, n: nat, i: nat)
    requires CommonSuffix(a, b, n) && i < n
    ensures a[|a| - 1 - i] == b[|b| - 1 - i]
  {
    assert a[|a| - n..][n - 1 - i] == b[|b| - n..][n - 1 - i];
  }

  /** A common prefix, and beside it a common suffix, that cannot be made longer. */
  predicate LongestEnds(a: seq<Text>, b: seq<Text>, prefix: nat, suffix: nat) {
    && CommonPrefix(a, b, prefix)
    && CommonSuffix(a, b, suffix)
    && prefix + suffix <= Min(|a|, |b|)
    && (prefix < Min(|a|, |b|) ==> a[prefix] != b[prefix])
    && (prefix + suffix < Min(|a|, |b|) ==> a[|a| - 1 - suffix] != b[|b| - 1 - suffix])
  }

  /** No other pair of ends covers more lines. */
  lemma LongestEndsCoverMost(a: seq<Text>, b: seq<Text>, prefix: nat, suffix: nat, p: nat, s: nat)
    requires LongestEnds(a, b, prefix, suffix)
    requires CommonPrefix(a, b, p) && CommonSuffix(a, b, s) && p + s <= Min(|a|, |b|)
    ensures p + s <= prefix + suffix
  {
    if p > prefix { PrefixContinues(a, b, p, prefix); }
    if s > suffix && prefix + suffix < Min(|a|, |b|) { SuffixContinues(a, b, s, suffix); }
  }

  /** Prefix and suffix as long as they can be without overlapping leave the smallest block. */
  lemma LongestEndsLeaveSmallestBlock(oldLines: seq<Text>, newLines: seq<Text>, prefix: nat, suffix: nat)
    requires LongestEnds(oldLines, newLines, prefix, suffix)
    ensures Edits(oldLines, newLines, |oldLines| - prefix - suffix, |newLines| - prefix - suffix)
    ensures Smallest(oldLines, newLines, |oldLines| - prefix - suffix, |newLines| - prefix - suffix)
  {
    var removed, added := |oldLines| - prefix - suffix, |newLines| - prefix - suffix;
    EditKeepsEnds(oldLines, newLines, prefix, removed, added);
    assert EditsAt(oldLines, newLines, prefix, removed, added);
    hide LongestEnds, EditsAt;
    forall r: nat, a: nat | Edits(oldLines, newLines, r, a) ensures removed <= r && added <= a {
      var at: nat :| EditsAt(oldLines, newLines, at, r, a);
      EditLeavesEnds(oldLines, newLines, at, r, a);
      LongestEndsCoverMost(oldLines, newLines, prefix, suffix, at, |oldLines| - at - r);
    }
  }

  /** An edit leaves ends that do not overlap. */
  lemma EditLeavesEnds(oldLines: seq<Text>, newLines: seq<Text>, at: nat, removed: nat, added: nat)
    requires EditsAt(oldLines, newLines, at, removed, added)
    ensures
      var behind := |oldLines| - at - removed;
      && behind >= 0 && behind == |newLines| - at - added
      && CommonPrefix(oldLines, newLines, at) && CommonSuffix(oldLines, newLines, behind)
      && at + behind <= Min(|oldLines|, |newLines|)
  {
    EditKeepsEnds(oldLines, newLines, at, removed, added);
    hide EditsAt;
    assert |oldLines[at + removed..]| == |newLines[at + added..]|;
  }

  method ComputeLineDiff(oldStr: Text, newStr: Text) returns (added: nat, removed: nat)
    ensures Edits(LinesOf(oldStr), LinesOf(newStr), removed, added)
    ensures Smallest(LinesOf(oldStr), LinesOf(newStr), removed, added)
    ensures added == removed == 0 <==> oldStr == newStr
    ensures added - removed == |LinesOf(newStr)| - |LinesOf(oldStr)|
  {
    var oldLines, newLines := LinesOf(oldStr), LinesOf(newStr);
    var prefixLen := 0;
    var minLen := Min(|oldLines|, |newLines|);
    while prefixLen < minLen && oldLines[prefixLen] == newLines[prefixLen]
      invariant prefixLen <= minLen && CommonPrefix(oldLines, newLines, prefixLen)
    {
      prefixLen := prefixLen + 1;
    }
    var suffixLen := 0;
    var maxSuffix := minLen - prefixLen;
    while suffixLen < maxSuffix
          && oldLines[|oldLines| - 1 - suffixLen] == newLines[|newLines| - 1 - suffixLen]
      invariant suffixLen <= maxSuffix && CommonSuffix(oldLines, newLines, suffixLen)
    {
      suffixLen := suffixLen + 1;
    }
    LongestEndsLeaveSmallestBlock(oldLines, newLines, prefixLen, suffixLen);
    // The clamps never act: prefix and suffix fit into the shorter list.
    added := ClampAtZero(|newLines| - prefixLen - suffixLen);
    removed := ClampAtZero(|oldLines| - prefixLen - suffixLen);
    assert added == |newLines| - prefixLen - suffixLen && removed == |oldLines| - prefixLen - suffixLen;
    SmallestEditCounts(oldLines, newLines, removed, added);
    SameLinesSameText(oldStr, newStr);
  }

  function ClampAtZero(n: int): nat {
    if n < 0 then 0 else n
  }

  lemma SameLinesSameText(a: Text, b: Text)
    ensures LinesOf(a) == LinesOf(b) <==> a == b
  {
    JoinUndoesSplit(a);
    JoinUndoesSplit(b);
  }
}
