/**
 * Splitting a long message into chunks at paragraph or line boundaries, outside
 * Markdown code fences where possible.
 */
module MessageSplitting {
  import opened JsText

  const BACKTICK: CodeUnit := 96
  const LINE: Text := [NEWLINE]
  const PARAGRAPH: Text := [NEWLINE, NEWLINE]
  const FENCE: Text := [BACKTICK, BACKTICK, BACKTICK]

  // ---- Searching ----

  predicate At(text: Text, needle: Text, i: int) {
    0 <= i <= |text| - |needle| && text[i..i + |needle|] == needle
  }

  /** The last occurrence that starts at `from` or before; -1 when there is none. */
  function LastIndexOf(text: Text, needle: Text, from: int): (r: int)
    ensures r == -1 || (r <= from && At(text, needle, r))
    ensures forall i :: r < i <= from ==> !At(text, needle, i)
    decreases from
  {
    if from < 0 then -1
    else if At(text, needle, from) then from
    else LastIndexOf(text, needle, from - 1)
  }

  /** The first occurrence that starts at `from` or after; -1 when there is none. */
  function IndexOf(text: Text, needle: Text, from: nat): (r: int)
    ensures r == -1 ==> forall i :: from <= i ==> !At(text, needle, i)
    ensures r != -1 ==> from <= r && At(text, needle, r) && forall i :: from <= i < r ==> !At(text, needle, i)
    decreases |text| - from
  {
    if from > |text| - |needle| then -1
    else if At(text, needle, from) then from
    else IndexOf(text, needle, from + 1)
  }

  /** How often a global match finds a fence: from left to right, without overlap. */
  function CountFences(text: Text): nat
    decreases |text|
  {
    if |text| < 3 then 0
    else if text[..3] == FENCE then 1 + CountFences(text[3..])
    else CountFences(text[1..])
  }

  // ---- One split ----

  /** Splitting at the limit would leave a small rest. */
  predicate LeavesSmall(remaining: Text, maxLength: nat) {
    10 * |remaining| < 13 * maxLength
  }

  function SearchLimit(remaining: Text, maxLength: nat): nat {
    if LeavesSmall(remaining, maxLength) then |remaining| / 2 + 300 else maxLength
  }

  /** No boundary, or one too close to the start. */
  predicate TooEarly(splitAt: int, maxLength: nat) {
    splitAt == -1 || 5 * splitAt < maxLength
  }

  /** Paragraph, then line, then the hard limit. */
  function Boundary(remaining: Text, maxLength: nat): (r: int)
    requires maxLength >= 1
    ensures 1 <= r <= SearchLimit(remaining, maxLength)
  {
    var limit := SearchLimit(remaining, maxLength);
    var paragraph := LastIndexOf(remaining, PARAGRAPH, limit);
    if !TooEarly(paragraph, maxLength) then paragraph
    else
      var line := LastIndexOf(remaining, LINE, limit);
      if !TooEarly(line, maxLength) then line else limit
  }

  function Take(text: Text, n: nat): Text {
    if n <= |text| then text[..n] else text
  }

  function Drop(text: Text, n: nat): Text {
    if n <= |text| then text[n..] else []
  }

  predicate InsideFence(remaining: Text, splitAt: nat) {
    CountFences(Take(remaining, splitAt)) % 2 != 0
  }

  /** Just after the line of the closing fence, or after the fence when its line has no end. */
  function AfterFence(remaining: Text, closing: nat): nat {
    var newline := IndexOf(remaining, LINE, closing + 3);
    if newline != -1 then newline + 1 else closing + 3
  }

  /** The boundary lies inside a fence that closes within twice the limit. */
  predicate Extends(remaining: Text, maxLength: nat)
    requires maxLength >= 1
  {
    var splitAt := Boundary(remaining, maxLength);
    var closing := IndexOf(remaining, FENCE, splitAt);
    InsideFence(remaining, splitAt) && closing != -1 && AfterFence(remaining, closing) <= 2 * maxLength
  }

  function SplitPoint(remaining: Text, maxLength: nat): (r: nat)
    requires maxLength >= 1
    ensures r >= 1
  {
    if Extends(remaining, maxLength)
    then AfterFence(remaining, IndexOf(remaining, FENCE, Boundary(remaining, maxLength)))
    else Boundary(remaining, maxLength)
  }

  function LeadingNewlines(text: Text): (n: nat)
    ensures n <= |text|
    ensures forall i :: 0 <= i < n ==> text[i] == NEWLINE
    ensures n < |text| ==> text[n] != NEWLINE
  {
    if text != [] && text[0] == NEWLINE then 1 + LeadingNewlines(text[1..]) else 0
  }

  function Rest(remaining: Text, maxLength: nat): (rest: Text)
    requires maxLength >= 1
    ensures remaining != [] ==> |rest| < |remaining|
    ensures rest != [] ==> rest[0] != NEWLINE
  {
    var after := Drop(remaining, SplitPoint(remaining, maxLength));
    after[LeadingNewlines(after)..]
  }

  // ---- The whole message ----

  function Chunks(remaining: Text, maxLength: nat): seq<Text>
    requires maxLength >= 1
    decreases |remaining|
  {
    if remaining == [] then []
    else if |remaining| <= maxLength then [remaining]
    else [Take(remaining, SplitPoint(remaining, maxLength))] + Chunks(Rest(remaining, maxLength), maxLength)
  }

  function Split(text: Text, maxLength: nat): seq<Text>
    requires maxLength >= 1
  {
    if |text| <= maxLength then [text] else Chunks(text, maxLength)
  }

  // ---- Nothing is lost ----

  function Newlines(n: nat): Text {
    seq(n, _ => NEWLINE)
  }

  /** The chunks in order, each followed by a run of newlines. */
  function Weave(chunks: seq<Text>, runs: seq<nat>): Text
    requires |chunks| == |runs|
  {
    if chunks == [] then [] else chunks[0] + Newlines(runs[0]) + Weave(chunks[1..], runs[1..])
  }

  predicate Tidy(chunks: seq<Text>) {
    && (forall i :: 0 <= i < |chunks| ==> chunks[i] != [])
    && (forall i :: 1 <= i < |chunks| ==> chunks[i][0] != NEWLINE)
  }

  lemma WeaveOneMore(chunk: Text, run: nat, chunks: seq<Text>, runs: seq<nat>)
    requires |chunks| == |runs|
    ensures Weave([chunk] + chunks, [run] + runs) == chunk + Newlines(run) + Weave(chunks, runs)
  {
    assert ([chunk] + chunks)[1..] == chunks && ([run] + runs)[1..] == runs;
  }

  /** One split takes the text apart into a chunk, a run of newlines and the rest. */
  lemma OneSplit(text: Text, maxLength: nat) returns (run: nat)
    requires maxLength >= 1
    ensures text == Take(text, SplitPoint(text, maxLength)) + Newlines(run) + Rest(text, maxLength)
  {
    hide SplitPoint;
    var after := Drop(text, SplitPoint(text, maxLength));
    run := LeadingNewlines(after);
    assert after[..run] == Newlines(run);
    assert after == after[..run] + after[run..];
  }

  lemma {:induction false} ChunksReassemble(text: Text, maxLength: nat) returns (runs: seq<nat>)
    requires maxLength >= 1
    ensures |runs| == |Chunks(text, maxLength)| && Weave(Chunks(text, maxLength), runs) == text
    decreases |text|
  {
    hide SplitPoint, Rest, Take, Newlines;
    if text == [] {
      runs := [];
    } else if |text| <= maxLength {
      runs := [0];
      WholeText(text);
    } else {
      var run := OneSplit(text, maxLength);
      var later := ChunksReassemble(Rest(text, maxLength), maxLength);
      runs := [run] + later;
      WeaveOneMore(Take(text, SplitPoint(text, maxLength)), run, Chunks(Rest(text, maxLength), maxLength), later);
    }
  }

  lemma WholeText(text: Text)
    ensures Weave([text], [0]) == text
  {
    WeaveOneMore(text, 0, [], []);
    assert [text] + [] == [text] && [0] + [] == [0];
  }

  lemma {:induction false} ChunksAreTidy(text: Text, maxLength: nat)
    requires maxLength >= 1
    ensures Tidy(Chunks(text, maxLength))
    ensures text != [] ==> Chunks(text, maxLength) != [] && Chunks(text, maxLength)[0][0] == text[0]
    decreases |text|
  {
    hide SplitPoint;
    if |text| > maxLength {
      var rest := Rest(text, maxLength);
      ChunksAreTidy(rest, maxLength);
      var later := Chunks(rest, maxLength);
      assert rest != [] ==> later[0][0] != NEWLINE;
      var all := [Take(text, SplitPoint(text, maxLength))] + later;
      forall i | 1 <= i < |all| ensures all[i] != [] && all[i][0] != NEWLINE {
        assert all[i] == later[i - 1];
      }
    }
  }

  /**
   * For every text and every limit of at least 1, the text is the chunks in order separated, or
   * followed, by newlines only; a non-empty text has no empty chunk, and no chunk but the first
   * starts with a newline.
   */
  lemma SplitReassembles(text: Text, maxLength: nat) returns (runs: seq<nat>)
    requires maxLength >= 1
    ensures |runs| == |Split(text, maxLength)| && Weave(Split(text, maxLength), runs) == text
    ensures text != [] ==> Tidy(Split(text, maxLength))
    ensures text == [] ==> Split(text, maxLength) == [[]]
  {
    if |text| <= maxLength {
      runs := [0];
      WholeText(text);
    } else {
      runs := ChunksReassemble(text, maxLength);
      ChunksAreTidy(text, maxLength);
    }
  }

  // ---- How long a chunk may be ----

  predicate AllWithin(chunks: seq<Text>, n: nat) {
    forall i :: 0 <= i < |chunks| ==> |chunks[i]| <= n
  }

  lemma OneChunkIsBounded(text: Text, maxLength: nat)
    requires maxLength >= 1
    ensures |Take(text, SplitPoint(text, maxLength))| <= 2 * maxLength
  {
    hide CountFences, IndexOf, LastIndexOf, AfterFence;
  }

  /** No chunk of any message is longer than twice the limit. */
  lemma {:induction false} ChunksAreBounded(text: Text, maxLength: nat)
    requires maxLength >= 1
    ensures AllWithin(Chunks(text, maxLength), 2 * maxLength)
    decreases |text|
  {
    hide SplitPoint, Rest, Take;
    OneChunkIsBounded(text, maxLength);
    if |text| > maxLength { ChunksAreBounded(Rest(text, maxLength), maxLength); }
  }

  /** No fence extension is taken anywhere in the message. */
  predicate NeverExtends(text: Text, maxLength: nat)
    requires maxLength >= 1
    decreases |text|
  {
    |text| <= maxLength || (!Extends(text, maxLength) && NeverExtends(Rest(text, maxLength), maxLength))
  }

  /** Half of a small rest plus 300 is within the limit from 855 on; up to 3 no rest counts as small. */
  lemma {:induction false} UnextendedChunksFit(text: Text, maxLength: nat)
    requires maxLength >= 1 && (maxLength <= 3 || maxLength >= 855)
    requires NeverExtends(text, maxLength)
    ensures AllWithin(Chunks(text, maxLength), maxLength)
    decreases |text|
  {
    hide Rest, Extends, Boundary;
    if |text| > maxLength {
      assert SplitPoint(text, maxLength) <= SearchLimit(text, maxLength);
      assert |Take(text, SplitPoint(text, maxLength))| <= maxLength;
      hide Take, SplitPoint;
      UnextendedChunksFit(Rest(text, maxLength), maxLength);
    }
  }

  function Letters(n: nat): Text {
    seq(n, _ => 97)
  }

  lemma {:induction false} NoFenceInLetters(n: nat)
    ensures CountFences(Letters(n)) == 0
  {
    if n >= 3 {
      assert Letters(n)[0] != FENCE[0];
      assert Letters(n)[1..] == Letters(n - 1);
      NoFenceInLetters(n - 1);
    }
  }

  /** Between 4 and 854 a word just too long for one chunk gives a first chunk over the limit. */
  lemma LongestSmallRest(maxLength: nat) returns (text: Text)
    requires 4 <= maxLength <= 854
    ensures NeverExtends(text, maxLength) && !AllWithin(Chunks(text, maxLength), maxLength)
  {
    var n := (13 * maxLength - 1) / 10;
    text := Letters(n);
    var limit := SearchLimit(text, maxLength);
    assert LastIndexOf(text, PARAGRAPH, limit) == -1 by { NoNewlineInLetters(n, PARAGRAPH); }
    assert LastIndexOf(text, LINE, limit) == -1 by { NoNewlineInLetters(n, LINE); }
    assert Boundary(text, maxLength) == limit;
    assert Take(text, limit) == Letters(if limit <= n then limit else n);
    NoFenceInLetters(if limit <= n then limit else n);
    assert !Extends(text, maxLength);
    assert |Rest(text, maxLength)| <= maxLength;
    assert |Chunks(text, maxLength)[0]| > maxLength;
  }

  lemma NoNewlineInLetters(n: nat, needle: Text)
    requires needle != [] && needle[0] == NEWLINE
    ensures forall i :: !At(Letters(n), needle, i)
  {
    forall i ensures !At(Letters(n), needle, i) {
      if 0 <= i <= n - |needle| { assert Letters(n)[i..i + |needle|][0] == 97; }
    }
  }

  ghost predicate FitsWithoutFences(maxLength: nat)
    requires maxLength >= 1
  {
    forall text :: NeverExtends(text, maxLength) ==> AllWithin(Chunks(text, maxLength), maxLength)
  }

  /** The limits that messages without fence extensions keep to, exactly. */
  lemma LimitsThatHold(maxLength: nat)
    requires maxLength >= 1
    ensures FitsWithoutFences(maxLength) <==> maxLength <= 3 || maxLength >= 855
  {
    if maxLength <= 3 || maxLength >= 855 {
      forall text | NeverExtends(text, maxLength) ensures AllWithin(Chunks(text, maxLength), maxLength) {
        UnextendedChunksFit(text, maxLength);
      }
    } else {
      var text := LongestSmallRest(maxLength);
    }
  }

  // ---- Where a chunk ends ----

  /** How far a boundary may lie: at the limit, or, for a text less than 1.3 times as long, 300 behind its middle. */
  function Reach(remaining: Text, maxLength: nat): nat {
    if 10 * |remaining| < 13 * maxLength then |remaining| / 2 + 300 else maxLength
  }

  /** `i` is far enough from the start and within reach. */
  predicate Eligible(remaining: Text, maxLength: nat, needle: Text, i: int) {
    At(remaining, needle, i) && 5 * i >= maxLength && i <= Reach(remaining, maxLength)
  }

  ghost predicate LastEligible(remaining: Text, maxLength: nat, needle: Text, i: int) {
    && Eligible(remaining, maxLength, needle, i)
    && forall j :: Eligible(remaining, maxLength, needle, j) ==> j <= i
  }

  lemma LastOccurrence(remaining: Text, maxLength: nat, needle: Text)
    requires maxLength >= 1
    ensures
      var i := LastIndexOf(remaining, needle, SearchLimit(remaining, maxLength));
      if TooEarly(i, maxLength) then forall j :: !Eligible(remaining, maxLength, needle, j)
      else LastEligible(remaining, maxLength, needle, i)
  {
    assert SearchLimit(remaining, maxLength) == Reach(remaining, maxLength);
    hide At, SearchLimit, Reach;
  }

  /** The boundary is the last eligible paragraph, or else the last eligible line, or else the limit. */
  lemma BoundaryIsLastBreak(remaining: Text, maxLength: nat)
    requires maxLength >= 1
    ensures
      var b := Boundary(remaining, maxLength);
      || LastEligible(remaining, maxLength, PARAGRAPH, b)
      || ((forall i :: !Eligible(remaining, maxLength, PARAGRAPH, i))
          && (|| LastEligible(remaining, maxLength, LINE, b)
              || ((forall i :: !Eligible(remaining, maxLength, LINE, i)) && b == Reach(remaining, maxLength))))
  {
    assert SearchLimit(remaining, maxLength) == Reach(remaining, maxLength);
    LastOccurrence(remaining, maxLength, PARAGRAPH);
    LastOccurrence(remaining, maxLength, LINE);
    hide LastEligible, Eligible, SearchLimit, LastIndexOf, Reach;
  }

  lemma Shifted(text: Text, k: nat, i: int)
    requires k <= |text|
    ensures 0 <= i ==> (At(text[k..], FENCE, i) <==> At(text, FENCE, i + k))
  {
    if 0 <= i <= |text| - k - 3 { assert text[k..][i..i + 3] == text[i + k..i + k + 3]; }
  }

  lemma {:induction false} FirstFenceCounts(text: Text, p: nat)
    requires At(text, FENCE, p) && forall i :: 0 <= i < p ==> !At(text, FENCE, i)
    ensures CountFences(text[..p + 3]) == 1
  {
    var head := text[..p + 3];
    if p == 0 {
      assert head[..3] == text[0..3] == FENCE && head[3..] == [];
      assert CountFences(head[3..]) == 0;
    } else {
      assert !At(text, FENCE, 0);
      assert head[..3] == text[0..3] != FENCE;
      assert head[1..] == text[1..][..p - 1 + 3];
      forall i | 0 <= i < p - 1 ensures !At(text[1..], FENCE, i) {
        Shifted(text, 1, i);
      }
      Shifted(text, 1, p - 1);
      FirstFenceCounts(text[1..], p - 1);
    }
  }

  /** The next fence after a stretch that no fence straddles adds one to the count. */
  lemma {:induction false} NextFenceCounts(text: Text, s: nat, p: nat)
    requires s <= p && At(text, FENCE, p)
    requires forall i :: s - 2 <= i < p ==> !At(text, FENCE, i)
    ensures CountFences(text[..p + 3]) == CountFences(text[..s]) + 1
    decreases s
  {
    if s < 3 {
      FirstFenceCounts(text, p);
    } else {
      var k := if text[..3] == FENCE then 3 else 1;
      assert text[..s][..3] == text[..3] == text[..p + 3][..3];
      assert text[..s][k..] == text[k..][..s - k] && text[..p + 3][k..] == text[k..][..p - k + 3];
      if k == 3 { assert At(text, FENCE, 0); }
      forall i | s - k - 2 <= i < p - k ensures !At(text[k..], FENCE, i) {
        Shifted(text, k, i);
      }
      Shifted(text, k, p - k);
      NextFenceCounts(text[k..], s - k, p - k);
    }
  }

  /** A stretch without a fence has none to count. */
  lemma {:induction false} NoFenceCountsNothing(text: Text)
    requires forall i :: !At(text, FENCE, i)
    ensures CountFences(text) == 0
  {
    if |text| >= 3 {
      assert !At(text, FENCE, 0) && text[..3] == text[0..3];
      forall i ensures !At(text[1..], FENCE, i) {
        if 0 <= i { Shifted(text, 1, i); }
      }
      NoFenceCountsNothing(text[1..]);
    }
  }

  /** The first fence that starts at `from` or after. */
  predicate NextFence(text: Text, from: nat, closing: nat) {
    from <= closing && At(text, FENCE, closing) && forall i :: from <= i < closing ==> !At(text, FENCE, i)
  }

  /** Behind the line break that ends the line of the fence, or right behind the fence when nothing ends its line. */
  predicate LineOfFenceEnds(text: Text, closing: nat, end: nat) {
    && closing + 3 <= end <= |text|
    && if end == closing + 3 then NEWLINE !in text[end..]
       else text[end - 1] == NEWLINE && NEWLINE !in text[closing + 3..end - 1]
  }

  /** Where a chunk ends: at the boundary, unless an odd number of fences comes before that and the line of the next
      fence ends within twice the limit; then it ends there. */
  lemma ExtensionIsDueExactly(remaining: Text, maxLength: nat, closing: nat, end: nat)
    requires maxLength >= 1
    requires NextFence(remaining, Boundary(remaining, maxLength), closing) && LineOfFenceEnds(remaining, closing, end)
    ensures
      var b := Boundary(remaining, maxLength);
      var inside := CountFences(if b <= |remaining| then remaining[..b] else remaining) % 2 == 1;
      SplitPoint(remaining, maxLength) == if inside && end <= 2 * maxLength then end else b
  {
    hide Boundary, CountFences, IndexOf, AfterFence, At;
    AfterFenceEndsLine(remaining, closing);
    OneLineEnd(remaining, closing, end, AfterFence(remaining, closing));
    var found := IndexOf(remaining, FENCE, Boundary(remaining, maxLength));
    assert found == closing;
  }

  lemma OneLineEnd(text: Text, closing: nat, end: nat, other: nat)
    requires LineOfFenceEnds(text, closing, end) && LineOfFenceEnds(text, closing, other)
    ensures end == other
  {
  }

  /** Without a further fence the chunk ends at its boundary. */
  lemma NoFenceNoExtension(remaining: Text, maxLength: nat)
    requires maxLength >= 1 && forall i :: Boundary(remaining, maxLength) <= i ==> !At(remaining, FENCE, i)
    ensures SplitPoint(remaining, maxLength) == Boundary(remaining, maxLength)
  {
    hide Boundary, CountFences, At;
  }

  /**
   * How a message falls into its first chunk and the rest: within the limit it is one chunk; otherwise the chunk ends
   * at the split point, the newlines after it are dropped, and the rest, if any, is split in the same way.
   */
  lemma FirstChunkEndsAtSplitPoint(text: Text, maxLength: nat) returns (next: nat)
    requires maxLength >= 1
    ensures |text| <= maxLength ==> Split(text, maxLength) == [text]
    ensures |text| > maxLength ==>
      var n := SplitPoint(text, maxLength);
      if n >= |text| then Split(text, maxLength) == [text]
      else
        && n <= next <= |text| && (forall i :: n <= i < next ==> text[i] == NEWLINE)
        && (next < |text| ==> text[next] != NEWLINE)
        && Split(text, maxLength)
             == [text[..n]] + if next == |text| then [] else Split(text[next..], maxLength)
  {
    next := 0;
    if |text| > maxLength {
      var n := SplitPoint(text, maxLength);
      next := RestStarts(text, maxLength);
      hide SplitPoint, Rest, Take;
      assert Chunks(text, maxLength) == [Take(text, n)] + Chunks(Rest(text, maxLength), maxLength);
      if |Rest(text, maxLength)| <= maxLength { hide SplitPoint; }
    }
  }

  /** Where the rest starts after one split. */
  lemma RestStarts(text: Text, maxLength: nat) returns (next: nat)
    requires maxLength >= 1
    ensures
      var n := SplitPoint(text, maxLength);
      if n >= |text| then Take(text, n) == text && Rest(text, maxLength) == []
      else
        && n <= next <= |text| && (forall i :: n <= i < next ==> text[i] == NEWLINE)
        && (next < |text| ==> text[next] != NEWLINE)
        && Take(text, n) == text[..n] && Rest(text, maxLength) == text[next..]
  {
    var n := SplitPoint(text, maxLength);
    next := 0;
    hide SplitPoint;
    if n < |text| {
      var after := text[n..];
      var run := LeadingNewlines(after);
      next := n + run;
      assert after[run..] == text[next..];
      forall i | n <= i < next ensures text[i] == NEWLINE { assert after[i - n] == text[i]; }
    }
  }

  /**
   * A chunk that would end inside a fence ends after the line of the next fence instead, if that
   * is within twice the limit; up to that fence the chunk's fences are then balanced, unless a
   * fence straddles the boundary.
   */
  lemma ExtensionClosesFence(remaining: Text, maxLength: nat) returns (closing: nat)
    requires maxLength >= 1 && Extends(remaining, maxLength)
    ensures
      var b, n := Boundary(remaining, maxLength), SplitPoint(remaining, maxLength);
      && b <= closing && closing + 3 <= n <= |remaining| && n <= 2 * maxLength
      && At(remaining, FENCE, closing)
      && (forall i :: b <= i < closing ==> !At(remaining, FENCE, i))
      && (n == closing + 3 || remaining[n - 1] == NEWLINE)
      && (n == closing + 3 ==> NEWLINE !in remaining[n..])
      && NEWLINE !in remaining[closing + 3..if n == closing + 3 then n else n - 1]
      && (!At(remaining, FENCE, b - 2) && !At(remaining, FENCE, b - 1) ==>
            CountFences(remaining[..closing + 3]) % 2 == 0)
  {
    hide Boundary, CountFences, IndexOf, AfterFence, At;
    var b := Boundary(remaining, maxLength);
    closing := IndexOf(remaining, FENCE, b);
    AfterFenceEndsLine(remaining, closing);
    if !At(remaining, FENCE, b - 2) && !At(remaining, FENCE, b - 1) {
      BalancedByNextFence(remaining, b, closing);
    }
  }

  lemma BalancedByNextFence(remaining: Text, b: nat, closing: nat)
    requires b <= closing && At(remaining, FENCE, closing) && InsideFence(remaining, b)
    requires forall i :: b - 2 <= i < closing ==> !At(remaining, FENCE, i)
    ensures CountFences(remaining[..closing + 3]) % 2 == 0
  {
    NextFenceCounts(remaining, b, closing);
    assert Take(remaining, b) == remaining[..b];
  }

  /** The extended chunk ends with the line of its last fence. */
  lemma AfterFenceEndsLine(text: Text, closing: nat)
    requires At(text, FENCE, closing)
    ensures
      var n := AfterFence(text, closing);
      && closing + 3 <= n <= |text|
      && (n == closing + 3 || text[n - 1] == NEWLINE)
      && (n == closing + 3 ==> NEWLINE !in text[n..])
      && NEWLINE !in text[closing + 3..if n == closing + 3 then n else n - 1]
  {
    hide IndexOf;
    LineEnd(text, closing + 3);
  }

  /** The first newline from `from` on, as a search for a line break finds it. */
  lemma LineEnd(text: Text, from: nat)
    requires from <= |text|
    ensures
      var i := IndexOf(text, LINE, from);
      if i == -1 then NEWLINE !in text[from..]
      else from <= i < |text| && text[i] == NEWLINE && NEWLINE !in text[from..i]
  {
    hide IndexOf;
    forall j | from <= j < |text| ensures At(text, LINE, j) <==> text[j] == NEWLINE {
      assert text[j..j + 1] == [text[j]];
    }
  }

  // ---- The loop ----

  method FindBoundary(remaining: Text, maxLength: nat) returns (splitAt: nat)
    requires maxLength >= 1
    ensures splitAt == Boundary(remaining, maxLength)
  {
    var wouldLeaveSmall := 10 * |remaining| < 13 * maxLength;
    var searchLimit := if wouldLeaveSmall then |remaining| / 2 + 300 else maxLength;
    var at := LastIndexOf(remaining, PARAGRAPH, searchLimit);
    if at == -1 || 5 * at < maxLength {
      at := LastIndexOf(remaining, LINE, searchLimit);
    }
    if at == -1 || 5 * at < maxLength {
      at := searchLimit;
    }
    splitAt := at;
  }

  method ExtendPastFence(remaining: Text, maxLength: nat, boundary: nat) returns (splitAt: nat)
    requires maxLength >= 1 && boundary == Boundary(remaining, maxLength)
    ensures splitAt == SplitPoint(remaining, maxLength)
  {
    hide Boundary, CountFences;
    splitAt := boundary;
    if CountFences(Take(remaining, splitAt)) % 2 != 0 {
      var closingFence := IndexOf(remaining, FENCE, splitAt);
      if closingFence != -1 {
        var afterFence := IndexOf(remaining, LINE, closingFence + 3);
        var fenceSplit := if afterFence != -1 then afterFence + 1 else closingFence + 3;
        if fenceSplit <= maxLength * 2 { splitAt := fenceSplit; }
      }
    }
  }

  method SplitMessage(text: Text, maxLength: nat) returns (chunks: seq<Text>)
    requires maxLength >= 1
    ensures chunks == Split(text, maxLength)
  {
    hide SplitPoint, Boundary, Take, Rest;
    if |text| <= maxLength { return [text]; }
    chunks := [];
    var remaining := text;
    while |remaining| > 0
      invariant chunks + Chunks(remaining, maxLength) == Chunks(text, maxLength)
      decreases |remaining|
    {
      if |remaining| <= maxLength {
        chunks := chunks + [remaining];
        break;
      }
      var boundary := FindBoundary(remaining, maxLength);
      var splitAt := ExtendPastFence(remaining, maxLength, boundary);
      Regroup(chunks, Take(remaining, splitAt), Chunks(Rest(remaining, maxLength), maxLength));
      chunks := chunks + [Take(remaining, splitAt)];
      remaining := AfterSplit(remaining, maxLength, splitAt);
    }
  }

  method AfterSplit(remaining: Text, maxLength: nat, splitAt: nat) returns (rest: Text)
    requires maxLength >= 1 && splitAt == SplitPoint(remaining, maxLength)
    ensures rest == Rest(remaining, maxLength)
  {
    hide SplitPoint;
    rest := Drop(remaining, splitAt);
    rest := rest[LeadingNewlines(rest)..];
  }

  lemma Regroup(chunks: seq<Text>, chunk: Text, later: seq<Text>)
    ensures chunks + ([chunk] + later) == (chunks + [chunk]) + later
  {
  }

  /** A limit of zero would make no progress: the split point of such a text is its start. */
  lemma ZeroLimitStandsStill(text: Text)
    requires text != [] && text[0] != NEWLINE
    ensures SearchLimit(text, 0) == 0 && LastIndexOf(text, PARAGRAPH, 0) == -1 && LastIndexOf(text, LINE, 0) == -1
    ensures Take(text, 0) == [] && Drop(text, 0)[LeadingNewlines(Drop(text, 0))..] == text
  {
    if |text| >= 2 { assert text[0..2][0] == text[0]; }
    assert text[0..1][0] == text[0];
  }
}
