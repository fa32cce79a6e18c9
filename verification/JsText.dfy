/**
 JavaScript strings, as the rest of the model uses them: sequences of UTF-16
 code units, compared by code unit the way Array.prototype.sort compares them,
 and sorting of lists by such a text key.
 */
module JsText {

  type CodeUnit = u: nat | u < 0x10000 witness 0

  type Text = seq<CodeUnit>

  const NEWLINE: CodeUnit := 10

  /** The text that a literal written in ASCII stands for. */
  function Ascii(s: string): (t: Text)
    ensures |t| == |s|
  {
    seq(|s|, i requires 0 <= i < |s| => (s[i] as int) % 0x10000)
  }

  /** a comes no later than b in code-unit order. */
  predicate AtMost(a: Text, b: Text) {
    a == [] || (b != [] && (a[0] < b[0] || (a[0] == b[0] && AtMost(a[1..], b[1..]))))
  }

  lemma {:induction false} AtMostTotal(a: Text, b: Text)
    ensures AtMost(a, b) || AtMost(b, a)
  {
    if a != [] && b != [] {
      AtMostTotal(a[1..], b[1..]);
    }
  }

  lemma {:induction false} AtMostAntisymmetric(a: Text, b: Text)
    requires AtMost(a, b) && AtMost(b, a)
    ensures a == b
  {
    if a != [] {
      AtMostAntisymmetric(a[1..], b[1..]);
      assert a == [a[0]] + a[1..] && b == [b[0]] + b[1..];
    }
  }

  lemma {:induction false} AtMostTransitive(a: Text, b: Text, c: Text)
    requires AtMost(a, b) && AtMost(b, c)
    ensures AtMost(a, c)
  {
    if a != [] && a[0] == b[0] == c[0] {
      AtMostTransitive(a[1..], b[1..], c[1..]);
    }
  }

  // ---------- Sorting by a text key ----------

  datatype Keyed<+T> = Keyed(key: Text, value: T)

  ghost predicate Sorted<T>(xs: seq<Keyed<T>>) {
    forall i, j | 0 <= i < j < |xs| :: AtMost(xs[i].key, xs[j].key)
  }

  function Insert<T>(x: Keyed<T>, xs: seq<Keyed<T>>): (r: seq<Keyed<T>>)
    ensures |r| == |xs| + 1
  {
    if xs == [] || AtMost(x.key, xs[0].key) then [x] + xs
    else [xs[0]] + Insert(x, xs[1..])
  }

  /** Array.prototype.sort on a list of keyed items. */
  function SortByKey<T>(xs: seq<Keyed<T>>): (r: seq<Keyed<T>>)
    ensures |r| == |xs|
  {
    if xs == [] then [] else Insert(xs[0], SortByKey(xs[1..]))
  }

  lemma {:induction false} InsertIsSorted<T>(x: Keyed<T>, xs: seq<Keyed<T>>)
    requires Sorted(xs)
    ensures Sorted(Insert(x, xs))
    ensures multiset(Insert(x, xs)) == multiset(xs) + multiset{x}
  {
    if xs == [] {
    } else if AtMost(x.key, xs[0].key) {
      forall j | 0 <= j < |xs| ensures AtMost(x.key, xs[j].key) {
        if j > 0 {
          AtMostTransitive(x.key, xs[0].key, xs[j].key);
        }
      }
    } else {
      AtMostTotal(x.key, xs[0].key);
      InsertIsSorted(x, xs[1..]);
      assert xs == [xs[0]] + xs[1..];
      var rest := Insert(x, xs[1..]);
      forall j | 0 <= j < |rest| ensures AtMost(xs[0].key, rest[j].key) {
        assert rest[j] in multiset(rest);
        if rest[j] != x {
          assert rest[j] in xs[1..];
        }
      }
    }
  }

  lemma {:induction false} SortByKeyIsSorted<T>(xs: seq<Keyed<T>>)
    ensures Sorted(SortByKey(xs))
    ensures multiset(SortByKey(xs)) == multiset(xs)
  {
    if xs != [] {
      SortByKeyIsSorted(xs[1..]);
      InsertIsSorted(xs[0], SortByKey(xs[1..]));
      assert xs == [xs[0]] + xs[1..];
    }
  }

  /** A sorted list is determined by its contents when equal keys mean equal items. */
  lemma {:induction false} SortedIsUnique<T>(xs: seq<Keyed<T>>, ys: seq<Keyed<T>>)
    requires Sorted(xs) && Sorted(ys)
    requires multiset(xs) == multiset(ys)
    requires forall x, y | x in xs && y in xs && x.key == y.key :: x == y
    ensures xs == ys
  {
    assert |xs| == |multiset(xs)| == |ys|;
    if xs != [] {
      hide AtMost, Sorted;
      SortedFirstsAgree(xs, ys);
      SortedTail(xs);
      SortedTail(ys);
      TailContents(xs, ys);
      forall x, y | x in xs[1..] && y in xs[1..] && x.key == y.key ensures x == y {
        assert x in xs && y in xs;
      }
      SortedIsUnique(xs[1..], ys[1..]);
      assert xs == [xs[0]] + xs[1..] && ys == [ys[0]] + ys[1..];
    }
  }

  lemma SortedTail<T>(xs: seq<Keyed<T>>)
    requires Sorted(xs) && xs != []
    ensures Sorted(xs[1..])
  {
  }

  /** Lists of the same contents and the same first item have tails of the same contents. */
  lemma TailContents<T>(xs: seq<T>, ys: seq<T>)
    requires xs != [] && ys != [] && multiset(xs) == multiset(ys) && xs[0] == ys[0]
    ensures multiset(xs[1..]) == multiset(ys[1..])
  {
    assert xs == [xs[0]] + xs[1..] && ys == [ys[0]] + ys[1..];
    assert multiset(xs[1..]) == multiset(xs) - multiset{xs[0]} == multiset(ys[1..]);
  }

  lemma SortedFirstsAgree<T>(xs: seq<Keyed<T>>, ys: seq<Keyed<T>>)
    requires xs != [] && ys != [] && Sorted(xs) && Sorted(ys)
    requires multiset(xs) == multiset(ys)
    requires forall x, y | x in xs && y in xs && x.key == y.key :: x == y
    ensures xs[0] == ys[0]
  {
    assert xs[0] in multiset(ys) && ys[0] in multiset(xs);
    var i :| 0 <= i < |ys| && ys[i] == xs[0];
    var j :| 0 <= j < |xs| && xs[j] == ys[0];
    if i > 0 && j > 0 {
      AtMostAntisymmetric(xs[0].key, ys[0].key);
    }
  }

  // ---------- Sorting plain texts ----------

  datatype Unit = Unit

  function AsKeys(xs: seq<Text>): (r: seq<Keyed<Unit>>)
    ensures |r| == |xs|
    ensures forall i | 0 <= i < |xs| :: r[i] == Keyed(xs[i], Unit)
  {
    seq(|xs|, i requires 0 <= i < |xs| => Keyed(xs[i], Unit))
  }

  function KeysOf(xs: seq<Keyed<Unit>>): (r: seq<Text>)
    ensures |r| == |xs|
    ensures forall i | 0 <= i < |xs| :: r[i] == xs[i].key
  {
    seq(|xs|, i requires 0 <= i < |xs| => xs[i].key)
  }

  /** `[...xs].sort()` */
  function SortTexts(xs: seq<Text>): (r: seq<Text>)
    ensures |r| == |xs|
  {
    KeysOf(SortByKey(AsKeys(xs)))
  }

  lemma {:induction false} AsKeysMultiset(xs: seq<Text>, ys: seq<Text>)
    ensures multiset(xs) == multiset(ys) <==> multiset(AsKeys(xs)) == multiset(AsKeys(ys))
  {
    forall t ensures multiset(AsKeys(xs))[Keyed(t, Unit)] == multiset(xs)[t] {
      CountKeyed(xs, t);
    }
    forall t ensures multiset(AsKeys(ys))[Keyed(t, Unit)] == multiset(ys)[t] {
      CountKeyed(ys, t);
    }
    if multiset(xs) == multiset(ys) {
      forall k: Keyed<Unit> ensures multiset(AsKeys(xs))[k] == multiset(AsKeys(ys))[k] {
        assert k.value.Unit? && k == Keyed(k.key, Unit);
      }
    }
    if multiset(AsKeys(xs)) == multiset(AsKeys(ys)) {
      forall t: Text ensures multiset(xs)[t] == multiset(ys)[t] {
        assert multiset(AsKeys(xs))[Keyed(t, Unit)] == multiset(AsKeys(ys))[Keyed(t, Unit)];
      }
    }
  }

  lemma {:induction false} CountKeyed(xs: seq<Text>, t: Text)
    ensures multiset(AsKeys(xs))[Keyed(t, Unit)] == multiset(xs)[t]
  {
    if xs != [] {
      CountKeyed(xs[1..], t);
      assert xs == [xs[0]] + xs[1..];
      assert AsKeys(xs) == [Keyed(xs[0], Unit)] + AsKeys(xs[1..]);
    }
  }

  lemma KeysRoundTrip(ks: seq<Keyed<Unit>>)
    ensures AsKeys(KeysOf(ks)) == ks
  {
    forall i | 0 <= i < |ks| ensures AsKeys(KeysOf(ks))[i] == ks[i] {
      assert ks[i].value.Unit?;
    }
  }

  /** Two lists sort to the same list exactly when they hold the same texts equally often. */
  lemma {:induction false} SortTextsCharacterises(xs: seq<Text>, ys: seq<Text>)
    ensures SortTexts(xs) == SortTexts(ys) <==> multiset(xs) == multiset(ys)
    ensures multiset(SortTexts(xs)) == multiset(xs)
  {
    var kx, ky := SortByKey(AsKeys(xs)), SortByKey(AsKeys(ys));
    SortByKeyIsSorted(AsKeys(xs));
    SortByKeyIsSorted(AsKeys(ys));
    KeysRoundTrip(kx);
    KeysRoundTrip(ky);
    AsKeysMultiset(xs, ys);
    AsKeysMultiset(SortTexts(xs), xs);
    if multiset(xs) == multiset(ys) {
      SortedIsUnique(kx, ky);
    }
  }
}
