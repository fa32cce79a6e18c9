/**
 * Answering a skills request: clean the names, sort them, and pack them into as few
 * bounded chunks as possible.
 */
module SkillPacking {
  import opened JsText
  import opened Wrappers

  const MAX_SKILL_NAMES := 256
  const MAX_SKILL_NAME_LENGTH := 96
  const MAX_LOCAL_ACTION_CHUNK_LENGTH := 4000
  const EMPTY_SKILLS_MESSAGE: Text := Ascii("No skills available.")

  // ---- Packing lines ----

  /** The lines, one below the other. */
  function Join(lines: seq<Text>): Text {
    if lines == [] then []
    else if |lines| == 1 then lines[0]
    else lines[0] + [NEWLINE] + Join(lines[1..])
  }

  predicate Fits(group: seq<Text>) {
    |Join(group)| <= MAX_LOCAL_ACTION_CHUNK_LENGTH
  }

  /** The groups the packing loop makes of `lines` when `current` is the group under way. */
  function Greedy(current: seq<Text>, lines: seq<Text>): seq<seq<Text>>
    decreases |lines|
  {
    if lines == [] then if current == [] then [] else [current]
    else if current == [] || Fits(current + [lines[0]]) then Greedy(current + [lines[0]], lines[1..])
    else [current] + Greedy([lines[0]], lines[1..])
  }

  function Flatten(groups: seq<seq<Text>>): seq<Text> {
    if groups == [] then [] else groups[0] + Flatten(groups[1..])
  }

  function JoinEach(groups: seq<seq<Text>>): seq<Text> {
    if groups == [] then [] else [Join(groups[0])] + JoinEach(groups[1..])
  }

  function Pack(lines: seq<Text>): seq<Text> {
    JoinEach(Greedy([], lines))
  }

  /** A division of `lines`, in order, into non-empty groups that fit into one chunk each. */
  predicate Partition(groups: seq<seq<Text>>, lines: seq<Text>) {
    && Flatten(groups) == lines
    && (forall i :: 0 <= i < |groups| ==> groups[i] != [] && |Join(groups[i])| <= 4000)
  }

  predicate Lines(lines: seq<Text>) {
    forall i :: 0 <= i < |lines| ==> lines[i] != [] && |lines[i]| <= MAX_LOCAL_ACTION_CHUNK_LENGTH
  }

  lemma {:induction false} JoinAppend(a: seq<Text>, b: seq<Text>)
    requires a != [] && b != []
    ensures Join(a + b) == Join(a) + [NEWLINE] + Join(b)
    decreases |a|
  {
    assert (a + b)[1..] == a[1..] + b;
    if |a| > 1 {
      JoinAppend(a[1..], b);
      assert Join(a) + [NEWLINE] + Join(b) == a[0] + [NEWLINE] + (Join(a[1..]) + [NEWLINE] + Join(b));
    }
  }

  lemma {:induction false} GreedyPartitions(current: seq<Text>, lines: seq<Text>)
    requires Lines(lines) && (current == [] || Fits(current))
    ensures Partition(Greedy(current, lines), current + lines)
    decreases |lines|
  {
    if lines != [] {
      var line, rest := lines[0], lines[1..];
      assert lines == [line] + rest;
      assert Join([line]) == line;
      if current == [] || Fits(current + [line]) {
        assert current == [] ==> current + [line] == [line];
        GreedyPartitions(current + [line], rest);
        assert (current + [line]) + rest == current + lines;
      } else {
        GreedyPartitions([line], rest);
        var later := Greedy([line], rest);
        assert ([current] + later)[1..] == later;
      }
    } else if current != [] {
      assert [current][1..] == [];
    }
  }

  /** Joining the joined groups is joining the lines. */
  lemma {:induction false} JoinOfJoined(groups: seq<seq<Text>>)
    requires forall i :: 0 <= i < |groups| ==> groups[i] != []
    ensures Join(JoinEach(groups)) == Join(Flatten(groups))
    ensures |JoinEach(groups)| == |groups| && (groups != [] ==> Flatten(groups) != [])
  {
    if groups != [] {
      var rest := groups[1..];
      JoinOfJoined(rest);
      if rest == [] {
        assert Flatten(groups) == groups[0] + [] == groups[0];
        assert JoinEach(groups) == [Join(groups[0])] + [] == [Join(groups[0])];
      } else {
        JoinAppend(groups[0], Flatten(rest));
        JoinAppend([Join(groups[0])], JoinEach(rest));
      }
    }
  }

  lemma {:induction false} JoinEachAt(groups: seq<seq<Text>>, i: nat)
    requires i < |groups|
    ensures i < |JoinEach(groups)| == |groups| && JoinEach(groups)[i] == Join(groups[i])
  {
    if i > 0 { JoinEachAt(groups[1..], i - 1); } else if |groups| > 1 { JoinEachAt(groups[1..], 0); }
  }

  /** Packing keeps every line in order, and no chunk is empty or over the limit. */
  lemma PackKeepsLines(lines: seq<Text>)
    requires Lines(lines)
    ensures Join(Pack(lines)) == Join(lines)
    ensures forall i :: 0 <= i < |Pack(lines)| ==> 0 < |Pack(lines)[i]| <= MAX_LOCAL_ACTION_CHUNK_LENGTH
    ensures lines != [] ==> Pack(lines) != []
  {
    var groups := Greedy([], lines);
    GreedyPartitions([], lines);
    assert [] + lines == lines;
    JoinOfJoined(groups);
    forall i | 0 <= i < |Pack(lines)| ensures 0 < |Pack(lines)[i]| <= MAX_LOCAL_ACTION_CHUNK_LENGTH {
      JoinEachAt(groups, i);
      FlattenHolds(groups, i);
      assert groups[i][0] in lines;
      assert |Join(groups[i])| >= |groups[i][0]|;
    }
  }

  lemma {:induction false} FlattenHolds(groups: seq<seq<Text>>, i: nat)
    requires i < |groups|
    ensures forall line :: line in groups[i] ==> line in Flatten(groups)
  {
    if i > 0 { FlattenHolds(groups[1..], i - 1); }
  }

  // ---- As few chunks as possible ----

  lemma {:induction false} JoinGrows(a: seq<Text>, b: seq<Text>)
    ensures |Join(a)| <= |Join(a + b)| && |Join(b)| <= |Join(a + b)|
  {
    if a == [] {
      assert a + b == b;
    } else if b == [] {
      assert a + b == a;
    } else {
      JoinAppend(a, b);
    }
  }

  /** Leaving out the first line leaves a division with no more groups. */
  lemma WithoutFirst(groups: seq<seq<Text>>, lines: seq<Text>) returns (fewer: seq<seq<Text>>)
    requires Partition(groups, lines) && lines != []
    ensures Partition(fewer, lines[1..]) && |fewer| <= |groups|
  {
    var first, rest := groups[0], groups[1..];
    assert lines[1..] == first[1..] + Flatten(rest);
    if |first| == 1 {
      fewer := rest;
    } else {
      fewer := [first[1..]] + rest;
      assert fewer[1..] == rest;
      assert first == [first[0]] + first[1..];
      JoinGrows([first[0]], first[1..]);
    }
  }

  lemma {:induction false} WithoutFirsts(groups: seq<seq<Text>>, a: seq<Text>, b: seq<Text>)
    returns (fewer: seq<seq<Text>>)
    requires Partition(groups, a + b)
    ensures Partition(fewer, b) && |fewer| <= |groups|
    decreases |a|
  {
    if a == [] {
      assert a + b == b;
      fewer := groups;
    } else {
      var next := WithoutFirst(groups, a + b);
      assert (a + b)[1..] == a[1..] + b;
      fewer := WithoutFirsts(next, a[1..], b);
    }
  }

  /** A first group that reaches beyond `current` would hold `current` and the next line, which do not fit. */
  lemma FirstGroupStops(groups: seq<seq<Text>>, current: seq<Text>, line: Text, rest: seq<Text>)
    requires Partition(groups, current + [line] + rest) && !Fits(current + [line])
    ensures groups != [] && |groups[0]| <= |current|
  {
    var first := groups[0];
    var lines := current + [line] + rest;
    assert first == lines[..|first|];
    if |first| > |current| {
      assert first == (current + [line]) + first[|current| + 1..];
      JoinGrows(current + [line], first[|current| + 1..]);
    }
  }

  lemma {:induction false} GreedyIsShortest(current: seq<Text>, lines: seq<Text>, groups: seq<seq<Text>>)
    requires Partition(groups, current + lines)
    ensures |Greedy(current, lines)| <= |groups|
    decreases |lines|
  {
    if lines == [] {
      assert current + lines == current;
    } else {
      var line, rest := lines[0], lines[1..];
      assert current + lines == current + [line] + rest;
      if current == [] || Fits(current + [line]) {
        GreedyIsShortest(current + [line], rest, groups);
      } else {
        FirstGroupStops(groups, current, line, rest);
        var n := |groups[0]|;
        var remaining := current[n..] + [line] + rest;
        assert Flatten(groups[1..]) == (current + [line] + rest)[n..] == remaining;
        assert remaining == current[n..] + ([line] + rest);
        var fewer := WithoutFirsts(groups[1..], current[n..], [line] + rest);
        GreedyIsShortest([line], rest, fewer);
      }
    }
  }

  /** No division of the lines, in order, into chunks within the limit has fewer chunks. */
  lemma PackUsesFewestChunks(lines: seq<Text>, groups: seq<seq<Text>>)
    requires Partition(groups, lines)
    ensures |Pack(lines)| <= |groups|
  {
    assert [] + lines == lines;
    GreedyIsShortest([], lines, groups);
    JoinEachLength(Greedy([], lines));
  }

  lemma {:induction false} JoinEachLength(groups: seq<seq<Text>>)
    ensures |JoinEach(groups)| == |groups|
  {
    if groups != [] { JoinEachLength(groups[1..]); }
  }

  // ---- The names ----

  /** What the language runtime knows about text: trimming, the name pattern, lower case, collation. */
  datatype Locale = Locale(
    trim: Text -> Text,
    isName: Text -> bool,
    fold: Text -> Text,
    atMost: (Text, Text) -> bool)

  function SanitizeSkillName(l: Locale, raw: Text): Option<Text> {
    var trimmed := l.trim(raw);
    var cut := if |trimmed| > MAX_SKILL_NAME_LENGTH + 1 then trimmed[..MAX_SKILL_NAME_LENGTH + 1] else trimmed;
    if cut == [] || |cut| > MAX_SKILL_NAME_LENGTH || !l.isName(cut) then None else Some(cut)
  }

  /** A name, unless the entry is no string, is no valid name, or has no key. */
  function SafeName(l: Locale, raw: Option<Text>): (r: Option<Text>)
    ensures r.Some? ==> 0 < |r.value| <= MAX_SKILL_NAME_LENGTH && l.isName(r.value) && l.fold(r.value) != []
  {
    var text :- raw;
    var name :- SanitizeSkillName(l, text);
    if l.fold(name) == [] then None else Some(name)
  }

  /** A name is what is left of a string after trimming, if that is 1 to 96 units long, matches the pattern and has a key. */
  lemma SafeNameExactly(l: Locale, raw: Option<Text>, name: Text)
    ensures SafeName(l, raw) == Some(name) <==>
      raw.Some? && l.trim(raw.value) == name && 1 <= |name| <= 96 && l.isName(name) && l.fold(name) != []
  {
  }

  function Keys(l: Locale, names: seq<Text>): set<Text> {
    set name | name in names :: l.fold(name)
  }

  /** The first name with each key, in the order of the entries. */
  function SafeNames(l: Locale, raw: seq<Option<Text>>): seq<Text> {
    if raw == [] then []
    else
      var names := SafeNames(l, raw[..|raw| - 1]);
      var name := SafeName(l, raw[|raw| - 1]);
      if name.Some? && l.fold(name.value) !in Keys(l, names) then names + [name.value] else names
  }

  function FirstNames(raw: seq<Option<Text>>): seq<Option<Text>> {
    if |raw| <= MAX_SKILL_NAMES then raw else raw[..MAX_SKILL_NAMES]
  }

  lemma KeysOfOneMore(l: Locale, names: seq<Text>, name: Text)
    ensures Keys(l, names + [name]) == Keys(l, names) + {l.fold(name)}
  {
    assert name in names + [name];
    forall n | n in names ensures n in names + [name] {
    }
  }

  /** `name` is what some entry says, and no earlier entry has its key. */
  predicate First(l: Locale, raw: seq<Option<Text>>, name: Text) {
    exists i :: 0 <= i < |raw| && SafeName(l, raw[i]) == Some(name)
      && forall j :: 0 <= j < i && SafeName(l, raw[j]).Some? ==>
           l.fold(SafeName(l, raw[j]).value) != l.fold(name)
  }

  /** Each key once, held by the first entry that has it. */
  lemma {:induction false} SafeNamesAreFirst(l: Locale, raw: seq<Option<Text>>)
    ensures forall i, j :: 0 <= i < j < |SafeNames(l, raw)| ==>
      l.fold(SafeNames(l, raw)[i]) != l.fold(SafeNames(l, raw)[j])
    ensures forall name :: name in SafeNames(l, raw) <==> First(l, raw, name)
    ensures forall i :: 0 <= i < |raw| && SafeName(l, raw[i]).Some? ==>
      l.fold(SafeName(l, raw[i]).value) in Keys(l, SafeNames(l, raw))
    ensures |SafeNames(l, raw)| <= |raw|
  {
    hide SafeName;
    if raw != [] {
      var n := |raw| - 1;
      var before, last := raw[..n], SafeName(l, raw[n]);
      SafeNamesAreFirst(l, before);
      var names, all := SafeNames(l, before), SafeNames(l, raw);
      assert forall i :: 0 <= i < n ==> before[i] == raw[i];
      if last.Some? { KeysOfOneMore(l, names, last.value); }
      forall name ensures name in all <==> First(l, raw, name) {
        FirstOfOneMore(l, raw, name);
        assert name in names <==> First(l, before, name);
      }
      forall i | 0 <= i < |raw| && SafeName(l, raw[i]).Some?
        ensures l.fold(SafeName(l, raw[i]).value) in Keys(l, all)
      {
        if i < n { assert SafeName(l, before[i]).Some?; }
      }
    }
  }

  lemma FirstOfOneMore(l: Locale, raw: seq<Option<Text>>, name: Text)
    requires raw != []
    ensures
      var before, last := raw[..|raw| - 1], SafeName(l, raw[|raw| - 1]);
      First(l, raw, name) <==>
        || First(l, before, name)
        || (last == Some(name)
            && forall j :: 0 <= j < |before| && SafeName(l, before[j]).Some? ==>
                 l.fold(SafeName(l, before[j]).value) != l.fold(name))
  {
    hide SafeName;
    var before := raw[..|raw| - 1];
    assert forall j :: 0 <= j < |before| ==> before[j] == raw[j];
    if First(l, before, name) {
      var i :| 0 <= i < |before| && SafeName(l, before[i]) == Some(name)
        && forall j :: 0 <= j < i && SafeName(l, before[j]).Some? ==>
             l.fold(SafeName(l, before[j]).value) != l.fold(name);
      assert SafeName(l, raw[i]) == Some(name);
    }
    if First(l, raw, name) {
      var i :| 0 <= i < |raw| && SafeName(l, raw[i]) == Some(name)
        && forall j :: 0 <= j < i && SafeName(l, raw[j]).Some? ==>
             l.fold(SafeName(l, raw[j]).value) != l.fold(name);
      if i < |before| { assert SafeName(l, before[i]) == Some(name); }
    }
  }

  // ---- Order ----

  /** The collation is a total preorder. */
  ghost predicate Collates(l: Locale) {
    && (forall a, b :: l.atMost(a, b) || l.atMost(b, a))
    && (forall a, b, c :: l.atMost(a, b) && l.atMost(b, c) ==> l.atMost(a, c))
  }

  /** Behind everything that comes no later. */
  function InsertName(l: Locale, name: Text, sorted: seq<Text>): seq<Text> {
    if sorted == [] then [name]
    else if l.atMost(sorted[0], name) then [sorted[0]] + InsertName(l, name, sorted[1..])
    else [name] + sorted
  }

  function SortNames(l: Locale, names: seq<Text>): seq<Text> {
    if names == [] then [] else InsertName(l, names[|names| - 1], SortNames(l, names[..|names| - 1]))
  }

  ghost predicate InOrder(l: Locale, names: seq<Text>) {
    forall i, j :: 0 <= i < j < |names| ==> l.atMost(names[i], names[j])
  }

  lemma {:induction false} InsertAddsOne(l: Locale, name: Text, sorted: seq<Text>)
    ensures multiset(InsertName(l, name, sorted)) == multiset(sorted) + multiset{name}
    ensures forall x :: x in InsertName(l, name, sorted) <==> x in sorted || x == name
  {
    if sorted != [] {
      assert sorted == [sorted[0]] + sorted[1..];
      InsertAddsOne(l, name, sorted[1..]);
    }
  }

  lemma InOrderOneMore(l: Locale, first: Text, rest: seq<Text>)
    requires InOrder(l, rest) && forall x :: x in rest ==> l.atMost(first, x)
    ensures InOrder(l, [first] + rest)
  {
    var all := [first] + rest;
    forall i, j | 0 <= i < j < |all| ensures l.atMost(all[i], all[j]) {
      assert all[j] == rest[j - 1];
      if i > 0 { assert all[i] == rest[i - 1]; }
    }
  }

  lemma {:induction false} InsertKeepsOrder(l: Locale, name: Text, sorted: seq<Text>)
    requires Collates(l) && InOrder(l, sorted)
    ensures InOrder(l, InsertName(l, name, sorted))
  {
    if sorted != [] {
      var first, rest := sorted[0], sorted[1..];
      forall x | x in rest ensures l.atMost(first, x) {
        var k :| 0 <= k < |rest| && rest[k] == x;
        assert sorted[k + 1] == x;
      }
      if l.atMost(first, name) {
        InsertKeepsOrder(l, name, rest);
        InsertAddsOne(l, name, rest);
        InOrderOneMore(l, first, InsertName(l, name, rest));
      } else {
        forall x | x in sorted ensures l.atMost(name, x) {
          assert l.atMost(name, first);
        }
        InOrderOneMore(l, name, sorted);
      }
    }
  }

  lemma {:induction false} SortNamesSorts(l: Locale, names: seq<Text>)
    requires Collates(l)
    ensures InOrder(l, SortNames(l, names)) && multiset(SortNames(l, names)) == multiset(names)
  {
    if names != [] {
      var n := |names| - 1;
      SortNamesSorts(l, names[..n]);
      InsertKeepsOrder(l, names[n], SortNames(l, names[..n]));
      InsertAddsOne(l, names[n], SortNames(l, names[..n]));
      assert names == names[..n] + [names[n]];
    }
  }

  /** The names that collation does not tell from x. */
  function Ties(l: Locale, x: Text, names: seq<Text>): seq<Text> {
    if names == [] then []
    else (if l.atMost(x, names[0]) && l.atMost(names[0], x) then [names[0]] else []) + Ties(l, x, names[1..])
  }

  lemma {:induction false} TiesOfOneMore(l: Locale, x: Text, names: seq<Text>, name: Text)
    ensures Ties(l, x, names + [name]) == Ties(l, x, names) + Ties(l, x, [name])
  {
    if names == [] {
      assert names + [name] == [name];
    } else {
      assert (names + [name])[1..] == names[1..] + [name];
      TiesOfOneMore(l, x, names[1..], name);
    }
  }

  lemma {:induction false} NoTies(l: Locale, x: Text, names: seq<Text>)
    requires forall n :: n in names ==> !(l.atMost(x, n) && l.atMost(n, x))
    ensures Ties(l, x, names) == []
  {
    if names != [] { NoTies(l, x, names[1..]); }
  }

  lemma {:induction false} InsertKeepsTies(l: Locale, x: Text, name: Text, sorted: seq<Text>)
    requires Collates(l) && InOrder(l, sorted)
    ensures Ties(l, x, InsertName(l, name, sorted)) == Ties(l, x, sorted) + Ties(l, x, [name])
  {
    if sorted != [] {
      var first, rest := sorted[0], sorted[1..];
      if l.atMost(first, name) {
        InsertKeepsTies(l, x, name, rest);
        assert ([first] + InsertName(l, name, rest))[1..] == InsertName(l, name, rest);
      } else {
        assert ([name] + sorted)[1..] == sorted && [name][1..] == [];
        if l.atMost(x, name) && l.atMost(name, x) {
          forall n | n in sorted ensures !(l.atMost(x, n) && l.atMost(n, x)) {
            var k :| 0 <= k < |sorted| && sorted[k] == n;
            assert k > 0 ==> l.atMost(sorted[0], sorted[k]);
            assert l.atMost(first, n) && (l.atMost(n, x) ==> l.atMost(n, name));
          }
          NoTies(l, x, sorted);
        }
      }
    }
  }

  /** Sorting is stable: names that collation does not tell apart stay in their order. */
  lemma {:induction false} SortIsStable(l: Locale, x: Text, names: seq<Text>)
    requires Collates(l)
    ensures Ties(l, x, SortNames(l, names)) == Ties(l, x, names)
  {
    if names != [] {
      var n := |names| - 1;
      SortIsStable(l, x, names[..n]);
      SortNamesSorts(l, names[..n]);
      InsertKeepsTies(l, x, names[n], SortNames(l, names[..n]));
      TiesOfOneMore(l, x, names[..n], names[n]);
      assert names == names[..n] + [names[n]];
    }
  }

  // ---- The response ----

  function ResponseLines(l: Locale, skillNames: seq<Option<Text>>): seq<Text> {
    SortNames(l, SafeNames(l, FirstNames(skillNames)))
  }

  function Response(l: Locale, skillNames: seq<Option<Text>>): seq<Text> {
    var lines := ResponseLines(l, skillNames);
    if lines == [] then [EMPTY_SKILLS_MESSAGE] else Pack(lines)
  }

  lemma {:induction false} SafeNamesAreShort(l: Locale, raw: seq<Option<Text>>)
    ensures forall name :: name in SafeNames(l, raw) ==> 0 < |name| <= MAX_SKILL_NAME_LENGTH
  {
    if raw != [] { SafeNamesAreShort(l, raw[..|raw| - 1]); }
  }

  lemma ResponseLinesAreLines(l: Locale, skillNames: seq<Option<Text>>)
    requires Collates(l)
    ensures Lines(ResponseLines(l, skillNames))
    ensures |ResponseLines(l, skillNames)| <= MAX_SKILL_NAMES
  {
    var names := SafeNames(l, FirstNames(skillNames));
    SafeNamesAreShort(l, FirstNames(skillNames));
    SafeNamesAreFirst(l, FirstNames(skillNames));
    SortNamesSorts(l, names);
    var lines := SortNames(l, names);
    assert |lines| == |multiset(lines)| == |multiset(names)| == |names|;
    forall i | 0 <= i < |lines| ensures 0 < |lines[i]| <= MAX_LOCAL_ACTION_CHUNK_LENGTH {
      assert lines[i] in multiset(lines);
      assert lines[i] in names;
    }
  }

  lemma {:induction false} AtMostOnce(l: Locale, names: seq<Text>, name: Text)
    requires forall i, j :: 0 <= i < j < |names| ==> l.fold(names[i]) != l.fold(names[j])
    ensures multiset(names)[name] <= 1
  {
    if names != [] {
      assert names == [names[0]] + names[1..];
      AtMostOnce(l, names[1..], name);
    }
  }

  /** Sorting repeats no key. */
  lemma SortedKeysDiffer(l: Locale, names: seq<Text>, lines: seq<Text>, i: nat, j: nat)
    requires forall a, b :: 0 <= a < b < |names| ==> l.fold(names[a]) != l.fold(names[b])
    requires multiset(lines) == multiset(names) && i < j < |lines|
    ensures l.fold(lines[i]) != l.fold(lines[j])
  {
    assert lines[i] in multiset(names) && lines[j] in multiset(names);
    AtMostOnce(l, names, lines[i]);
    assert lines == lines[..j] + [lines[j]] + lines[j + 1..] && lines[..j][i] == lines[i];
    if lines[i] != lines[j] {
      var a :| 0 <= a < |names| && names[a] == lines[i];
      var b :| 0 <= b < |names| && names[b] == lines[j];
    }
  }

  /** What is sent: each safe name among the first 256 entries once, in collation order. */
  lemma ResponseLinesAreNames(l: Locale, skillNames: seq<Option<Text>>)
    requires Collates(l)
    ensures
      var lines := ResponseLines(l, skillNames);
      && InOrder(l, lines)
      && (forall i, j :: 0 <= i < j < |lines| ==> l.fold(lines[i]) != l.fold(lines[j]))
      && (forall name :: name in lines <==>
            First(l, if |skillNames| <= 256 then skillNames else skillNames[..256], name))
  {
    var names := SafeNames(l, FirstNames(skillNames));
    SafeNamesAreFirst(l, FirstNames(skillNames));
    SortNamesSorts(l, names);
    var lines := ResponseLines(l, skillNames);
    forall name ensures name in lines <==> name in names {
      assert name in multiset(lines) <==> name in multiset(names);
    }
    forall i, j | 0 <= i < j < |lines| ensures l.fold(lines[i]) != l.fold(lines[j]) {
      SortedKeysDiffer(l, names, lines, i, j);
    }
    hide First, SafeNames, SortNames, InOrder;
  }

  /**
   * For every list of entries: the chunks hold the first valid name for each key, in collation
   * order and unbroken; none is empty or over the limit, and no other division has fewer.
   */
  lemma ResponseIsComplete(l: Locale, skillNames: seq<Option<Text>>, groups: seq<seq<Text>>)
    requires Collates(l)
    ensures
      var lines, chunks := ResponseLines(l, skillNames), Response(l, skillNames);
      && InOrder(l, lines)
      && (forall i, j :: 0 <= i < j < |lines| ==> l.fold(lines[i]) != l.fold(lines[j]))
      && (forall name :: name in lines <==>
            First(l, if |skillNames| <= 256 then skillNames else skillNames[..256], name))
      && (forall i :: 0 <= i < |chunks| ==> 0 < |chunks[i]| <= 4000)
      && (lines == [] ==> chunks == [Ascii("No skills available.")])
      && (lines != [] ==> Join(chunks) == Join(lines))
      && (lines != [] && Partition(groups, lines) ==> |chunks| <= |groups|)
  {
    var lines := ResponseLines(l, skillNames);
    ResponseLinesAreNames(l, skillNames);
    ResponseLinesAreLines(l, skillNames);
    PackKeepsLines(lines);
    if Partition(groups, lines) { PackUsesFewestChunks(lines, groups); }
    hide First, Pack, Partition, ResponseLines, InOrder;
  }

  lemma {:induction false} JoinEachAppend(done: seq<Text>, group: seq<Text>, later: seq<seq<Text>>)
    ensures done + JoinEach([group] + later) == (done + [Join(group)]) + JoinEach(later)
  {
    assert ([group] + later)[1..] == later;
  }

  method BuildSkillsControlResponse(l: Locale, skillNames: seq<Option<Text>>) returns (chunks: seq<Text>)
    requires Collates(l)
    ensures chunks == Response(l, skillNames)
  {
    var names := CollectNames(l, FirstNames(skillNames));
    var lines := SortNames(l, names);
    if |lines| == 0 { return [EMPTY_SKILLS_MESSAGE]; }
    ResponseLinesAreLines(l, skillNames);
    chunks := PackLines(lines);
  }

  /** The map from keys to names keeps the order of insertion. */
  method CollectNames(l: Locale, raw: seq<Option<Text>>) returns (names: seq<Text>)
    ensures names == SafeNames(l, raw)
  {
    names := [];
    var keys: set<Text> := {};
    for i := 0 to |raw|
      invariant names == SafeNames(l, raw[..i]) && keys == Keys(l, names)
    {
      assert raw[..i + 1][..i] == raw[..i];
      var name := SafeName(l, raw[i]);
      if name.Some? && l.fold(name.value) !in keys {
        KeysOfOneMore(l, names, name.value);
        keys := keys + {l.fold(name.value)};
        names := names + [name.value];
      }
    }
    assert raw[..|raw|] == raw;
  }

  method PackLines(lines: seq<Text>) returns (chunks: seq<Text>)
    requires Lines(lines)
    ensures chunks == Pack(lines)
  {
    chunks := [];
    var current: Text := [];
    ghost var group: seq<Text> := [];
    assert lines[0..] == lines && [] + JoinEach(Greedy([], lines)) == Pack(lines);
    for i := 0 to |lines|
      invariant chunks + JoinEach(Greedy(group, lines[i..])) == Pack(lines)
      invariant current == Join(group) && (current == [] <==> group == [])
    {
      var line := lines[i];
      assert lines[i..][0] == line && lines[i..][1..] == lines[i + 1..];
      assert Join([line]) == line;
      if group != [] { JoinAppend(group, [line]); }
      assert group == [] ==> group + [line] == [line];
      var candidate := if current != [] then current + [NEWLINE] + line else line;
      assert candidate == Join(group + [line]);
      if |candidate| > MAX_LOCAL_ACTION_CHUNK_LENGTH {
        if current != [] {
          JoinEachAppend(chunks, group, Greedy([line], lines[i + 1..]));
          chunks := chunks + [current];
        }
        current := line;
        group := [line];
      } else {
        current := candidate;
        group := group + [line];
      }
    }
    assert lines[|lines|..] == [];
    if current != [] {
      assert JoinEach([group]) == [Join(group)] + [];
      chunks := chunks + [current];
    }
  }
}
