/**
 The identity of a warm subprocess: canonical JSON of everything it was spawned
 with (agent-manager.ts, canonicalJson and createDefinitionFingerprint).

 Two fingerprints are compared as strings. The theorems below say what that
 comparison means: the texts are equal exactly when the values mean the same
 tree, objects being unordered and undefined properties absent.
 */
module Fingerprint {
  import opened JsText
  import opened Wrappers

  /**
   A JavaScript value as canonicalJson sees it. A finite number is identified
   with its Number::toString text. An object lists its own properties in
   insertion order. `Unserializable` is any other value (a function, a symbol, a bigint).
   */
  datatype Json =
    | Null
    | Bool(b: bool)
    | Number(text: Text)
    | NonFinite
    | String(s: Text)
    | Array(items: seq<Json>)
    | Object(fields: seq<Keyed<Json>>)
    | Undefined
    | Unserializable

  const QUOTE: CodeUnit := 34
  const BACKSLASH: CodeUnit := 92
  const COMMA: CodeUnit := 44
  const COLON: CodeUnit := 58
  const OPEN_BRACKET: CodeUnit := 91
  const CLOSE_BRACKET: CodeUnit := 93
  const OPEN_BRACE: CodeUnit := 123
  const CLOSE_BRACE: CodeUnit := 125

  /** The code units that Number::toString uses for finite numbers: digits, sign, point, exponent. */
  predicate NumberUnit(u: CodeUnit) {
    48 <= u <= 57 || u == 43 || u == 45 || u == 46 || u == 101
  }

  predicate NumberText(t: Text) {
    && t != []
    && (t[0] == 45 || 48 <= t[0] <= 57)
    && forall u | u in t :: NumberUnit(u)
  }

  ghost predicate DistinctKeys<T>(fields: seq<Keyed<T>>) {
    forall i, j | 0 <= i < j < |fields| :: fields[i].key != fields[j].key
  }

  /** What JavaScript guarantees of every value: number texts, and no object with a property twice. */
  ghost predicate WellFormed(v: Json) {
    match v
    case Number(t) => NumberText(t)
    case Array(items) => forall x | x in items :: WellFormed(x)
    case Object(fields) => DistinctKeys(fields) && forall f | f in fields :: WellFormed(f.value)
    case _ => true
  }

  // ---------- JSON.stringify of a string ----------

  predicate LeadSurrogate(u: CodeUnit) { 0xD800 <= u < 0xDC00 }

  predicate TrailSurrogate(u: CodeUnit) { 0xDC00 <= u < 0xE000 }

  function HexDigit(n: nat): CodeUnit
    requires n < 16
  {
    if n < 10 then 48 + n else 87 + n
  }

  function UnicodeEscape(u: CodeUnit): Text {
    [BACKSLASH, 117, HexDigit(u / 16 / 16 / 16), HexDigit(u / 16 / 16 % 16), HexDigit(u / 16 % 16), HexDigit(u % 16)]
  }

  /** One code unit that is not part of a surrogate pair. */
  function EscapeUnit(u: CodeUnit): (t: Text)
  {
    if u == QUOTE || u == BACKSLASH then [BACKSLASH, u]
    else if u == 8 then [BACKSLASH, 98]
    else if u == 9 then [BACKSLASH, 116]
    else if u == 10 then [BACKSLASH, 110]
    else if u == 12 then [BACKSLASH, 102]
    else if u == 13 then [BACKSLASH, 114]
    else if u < 32 || LeadSurrogate(u) || TrailSurrogate(u) then UnicodeEscape(u)
    else [u]
  }

  predicate StartsWithPair(s: Text) {
    |s| >= 2 && LeadSurrogate(s[0]) && TrailSurrogate(s[1])
  }

  function Escape(s: Text): (t: Text) {
    if s == [] then []
    else if StartsWithPair(s) then [s[0], s[1]] + Escape(s[2..])
    else EscapeUnit(s[0]) + Escape(s[1..])
  }

  function Quote(s: Text): (t: Text)
    ensures |t| >= 2 && t[0] == QUOTE
  {
    [QUOTE] + Escape(s) + [QUOTE]
  }

  // ---------- canonicalJson ----------

  predicate Defined(f: Keyed<Json>) { !f.value.Undefined? }

  /** `parts.join(',')` */
  function Join(parts: seq<Text>): Text {
    if parts == [] then [] else parts[0] + JoinMore(parts[1..])
  }

  function JoinMore(parts: seq<Text>): Text {
    if parts == [] then [] else [COMMA] + parts[0] + JoinMore(parts[1..])
  }

  function MemberText(m: Keyed<Text>): Text {
    Quote(m.key) + [COLON] + m.value
  }

  function MemberTexts(ms: seq<Keyed<Text>>): (r: seq<Text>)
    ensures |r| == |ms|
  {
    seq(|ms|, i requires 0 <= i < |ms| => MemberText(ms[i]))
  }

  /** The canonical text, or None where the source throws. */
  function CanonicalJson(v: Json): Option<Text>
    decreases v, 1
  {
    match v
    case Null => Some(Ascii("null"))
    case Bool(b) => Some(if b then Ascii("true") else Ascii("false"))
    case Number(t) => Some(t)
    case NonFinite => None
    case String(s) => Some(Quote(s))
    case Array(items) =>
      var texts :- CanonicalItems(items);
      Some([OPEN_BRACKET] + Join(texts) + [CLOSE_BRACKET])
    case Object(fields) =>
      var members :- CanonicalFields(fields);
      Some([OPEN_BRACE] + Join(MemberTexts(SortByKey(members))) + [CLOSE_BRACE])
    case Undefined => None
    case Unserializable => None
  }

  function CanonicalItems(items: seq<Json>): Option<seq<Text>>
    decreases items, 0
  {
    if items == [] then Some([])
    else
      var first :- CanonicalJson(items[0]);
      var rest :- CanonicalItems(items[1..]);
      Some([first] + rest)
  }

  /** The printed properties that are not undefined, before sorting. */
  function CanonicalFields(fields: seq<Keyed<Json>>): Option<seq<Keyed<Text>>>
    decreases fields, 0
  {
    if fields == [] then Some([])
    else if !Defined(fields[0]) then CanonicalFields(fields[1..])
    else
      var first :- CanonicalJson(fields[0].value);
      var rest :- CanonicalFields(fields[1..]);
      Some([Keyed(fields[0].key, first)] + rest)
  }

  // ---------- What a value means ----------

  datatype Tree =
    | NullTree
    | BoolTree(b: bool)
    | NumberTree(text: Text)
    | StringTree(s: Text)
    | ArrayTree(items: seq<Tree>)
    | ObjectTree(properties: map<Text, Tree>)

  /** No value inside v is one that canonicalJson refuses; an undefined property is dropped, not refused. */
  ghost predicate Serializable(v: Json) {
    match v
    case Array(items) => forall x | x in items :: Serializable(x)
    case Object(fields) => forall f | f in fields && Defined(f) :: Serializable(f.value)
    case NonFinite => false
    case Undefined => false
    case Unserializable => false
    case _ => true
  }

  /** The value with property order forgotten and undefined properties absent. */
  ghost function Meaning(v: Json): Tree
    requires Serializable(v)
    decreases v, 1
  {
    match v
    case Null => NullTree
    case Bool(b) => BoolTree(b)
    case Number(t) => NumberTree(t)
    case String(s) => StringTree(s)
    case Array(items) => ArrayTree(seq(|items|, i requires 0 <= i < |items| => Meaning(items[i])))
    case Object(fields) => ObjectTree(Properties(fields))
  }

  ghost function Properties(fields: seq<Keyed<Json>>): map<Text, Tree>
    requires forall f | f in fields && Defined(f) :: Serializable(f.value)
    decreases fields, 0
  {
    if fields == [] then map[]
    else
      var rest := Properties(fields[1..]);
      if Defined(fields[0]) then rest[fields[0].key := Meaning(fields[0].value)] else rest
  }

  // ---------- Reading back: printing is injective on ordered values ----------

  /** What may follow a value inside a document: nothing, or a separator or closer. */
  predicate Delimited(x: Text) {
    x == [] || x[0] == COMMA || x[0] == CLOSE_BRACKET || x[0] == CLOSE_BRACE
  }

  /** The number of code units that the first escape token of a text takes. */
  function TokenLength(t: Text): (n: nat)
  {
    if t == [] then 0
    else if t[0] == BACKSLASH then (if |t| >= 2 && t[1] == 117 then 6 else 2)
    else if LeadSurrogate(t[0]) then 2
    else 1
  }

  /** The number of code units of s that its first escape token stands for. */
  function Consumed(s: Text): (n: nat)
    requires s != []
    ensures 1 <= n <= |s|
  {
    if StartsWithPair(s) then 2 else 1
  }

  function FirstToken(s: Text): Text
    requires s != []
  {
    if StartsWithPair(s) then [s[0], s[1]] else EscapeUnit(s[0])
  }

  lemma EscapeUnfolds(s: Text)
    requires s != []
    ensures Escape(s) == FirstToken(s) + Escape(s[Consumed(s)..])
    ensures |FirstToken(s)| > 0 && FirstToken(s)[0] != QUOTE
    ensures forall x: Text :: TokenLength(FirstToken(s) + x) == |FirstToken(s)|
  {
  }

  lemma UnicodeEscapeInjective(u: CodeUnit, w: CodeUnit)
    requires UnicodeEscape(u) == UnicodeEscape(w)
    ensures u == w
  {
    assert UnicodeEscape(u)[2] == UnicodeEscape(w)[2];
    assert UnicodeEscape(u)[3] == UnicodeEscape(w)[3];
    assert UnicodeEscape(u)[4] == UnicodeEscape(w)[4];
    assert UnicodeEscape(u)[5] == UnicodeEscape(w)[5];
    assert u / 16 / 16 == w / 16 / 16;
    assert u / 16 == w / 16;
  }

  /** Equal first tokens stand for equal source units. */
  lemma FirstTokenInjective(s: Text, t: Text)
    requires s != [] && t != []
    requires FirstToken(s) == FirstToken(t)
    ensures Consumed(s) == Consumed(t)
    ensures s[..Consumed(s)] == t[..Consumed(t)]
  {
    if StartsWithPair(s) || StartsWithPair(t) {
      assert FirstToken(s)[0] == FirstToken(t)[0];
      assert StartsWithPair(s) && StartsWithPair(t);
      assert FirstToken(s)[1] == FirstToken(t)[1];
    } else {
      var u, w := s[0], t[0];
      if |EscapeUnit(u)| == 6 {
        UnicodeEscapeInjective(u, w);
      } else if |EscapeUnit(u)| == 2 {
        assert EscapeUnit(u)[1] == EscapeUnit(w)[1];
      } else {
        assert EscapeUnit(u)[0] == EscapeUnit(w)[0];
      }
      assert u == w;
    }
  }

  /** The escapes of s, its closing quote, and the text k that follows. */
  ghost function Escaped(s: Text, k: Text): Text {
    if s == [] then [QUOTE] + k else FirstToken(s) + Escaped(s[Consumed(s)..], k)
  }

  lemma {:induction false} EscapedIsEscape(s: Text, k: Text)
    ensures Escaped(s, k) == Escape(s) + [QUOTE] + k
  {
    if s != [] {
      EscapeUnfolds(s);
      EscapedIsEscape(s[Consumed(s)..], k);
    }
  }

  /** An escaped string ends at its first unescaped quote, and nowhere else. */
  lemma {:induction false} EscapeInjective(s: Text, t: Text, x: Text, y: Text)
    requires Escaped(s, x) == Escaped(t, y)
    ensures s == t && x == y
  {
    if s != [] && t != [] {
      EscapeUnfolds(s);
      EscapeUnfolds(t);
      var s', t' := s[Consumed(s)..], t[Consumed(t)..];
      SamePrefix(FirstToken(s), Escaped(s', x), FirstToken(t), Escaped(t', y));
      FirstTokenInjective(s, t);
      EscapeInjective(s', t', x, y);
      assert s == s[..Consumed(s)] + s' && t == t[..Consumed(t)] + t';
    } else {
      if s != [] {
        EscapeUnfolds(s);
      }
      if t != [] {
        EscapeUnfolds(t);
      }
      assert Escaped(s, x)[0] == Escaped(t, y)[0];
      SamePrefix([QUOTE], x, [QUOTE], y);
    }
  }

  lemma SamePrefix(p: Text, u: Text, q: Text, w: Text)
    requires p + u == q + w && |p| == |q|
    ensures p == q && u == w
  {
    assert p == (p + u)[..|p|] && q == (q + w)[..|q|];
    assert u == (p + u)[|p|..] && w == (q + w)[|q|..];
  }

  /** Values in normal form: no undefined property, properties sorted by key. */
  ghost predicate Plain(v: Json) {
    match v
    case Number(t) => NumberText(t)
    case Array(items) => forall x | x in items :: Plain(x)
    case Object(fields) => forall f | f in fields :: Plain(f.value)
    case NonFinite => false
    case Undefined => false
    case Unserializable => false
    case _ => true
  }

  ghost function Normal(v: Json): (n: Json)
    requires Serializable(v)
    decreases v, 1
  {
    match v
    case Array(items) => Array(seq(|items|, i requires 0 <= i < |items| => Normal(items[i])))
    case Object(fields) => Object(SortByKey(NormalFields(fields)))
    case _ => v
  }

  ghost function NormalFields(fields: seq<Keyed<Json>>): seq<Keyed<Json>>
    requires forall f | f in fields && Defined(f) :: Serializable(f.value)
    decreases fields, 0
  {
    if fields == [] then []
    else
      var rest := NormalFields(fields[1..]);
      if Defined(fields[0]) then [Keyed(fields[0].key, Normal(fields[0].value))] + rest else rest
  }

  /** The JSON text of v, in the order given, followed by the text k. */
  ghost function Spell(v: Json, k: Text): Text
    requires Plain(v)
    decreases v, 1
  {
    match v
    case Null => Ascii("null") + k
    case Bool(b) => if b then Ascii("true") + k else Ascii("false") + k
    case Number(t) => t + k
    case String(s) => [QUOTE] + Escaped(s, k)
    case Array(items) => [OPEN_BRACKET] + SpellItems(items, k)
    case Object(fields) => [OPEN_BRACE] + SpellFields(fields, k)
  }

  ghost function SpellItems(items: seq<Json>, k: Text): Text
    requires forall x | x in items :: Plain(x)
    decreases items, 1
  {
    if items == [] then [CLOSE_BRACKET] + k else Spell(items[0], SpellMoreItems(items[1..], k))
  }

  ghost function SpellMoreItems(items: seq<Json>, k: Text): (t: Text)
    requires forall x | x in items :: Plain(x)
    ensures t != [] && t[0] == if items == [] then CLOSE_BRACKET else COMMA
    decreases items, 0
  {
    if items == [] then [CLOSE_BRACKET] + k else [COMMA] + Spell(items[0], SpellMoreItems(items[1..], k))
  }

  ghost function SpellField(f: Keyed<Json>, k: Text): (t: Text)
    requires Plain(f.value)
    ensures t != [] && t[0] == QUOTE
    decreases f, 2
  {
    [QUOTE] + Escaped(f.key, [COLON] + Spell(f.value, k))
  }

  ghost function SpellFields(fields: seq<Keyed<Json>>, k: Text): Text
    requires forall f | f in fields :: Plain(f.value)
    decreases fields, 1
  {
    if fields == [] then [CLOSE_BRACE] + k else SpellField(fields[0], SpellMoreFields(fields[1..], k))
  }

  ghost function SpellMoreFields(fields: seq<Keyed<Json>>, k: Text): (t: Text)
    requires forall f | f in fields :: Plain(f.value)
    ensures t != [] && t[0] == if fields == [] then CLOSE_BRACE else COMMA
    decreases fields, 0
  {
    if fields == [] then [CLOSE_BRACE] + k else [COMMA] + SpellField(fields[0], SpellMoreFields(fields[1..], k))
  }

  lemma NumbersEnd(s: Text, t: Text, x: Text, y: Text)
    requires NumberText(s) && NumberText(t) && Delimited(x) && Delimited(y)
    requires s + x == t + y
    ensures s == t && x == y
  {
    var u, w := s + x, t + y;
    assert x != [] ==> u[|s|] == x[0];
    assert y != [] ==> w[|t|] == y[0];
    forall i | 0 <= i < |s| ensures NumberUnit(u[i]) {
      assert u[i] == s[i] && s[i] in s;
    }
    forall i | 0 <= i < |t| ensures NumberUnit(w[i]) {
      assert w[i] == t[i] && t[i] in t;
    }
    SamePrefix(s, x, t, y);
  }

  /** The first code unit of a printed value tells its kind. */
  function Kind(v: Json): nat {
    match v
    case Null => 110
    case Bool(b) => if b then 116 else 102
    case Number(_) => 0
    case String(_) => QUOTE
    case Array(_) => OPEN_BRACKET
    case Object(_) => OPEN_BRACE
    case _ => 1
  }

  lemma SpellStarts(v: Json, k: Text)
    requires Plain(v)
    ensures Spell(v, k) != []
    ensures Kind(v) == if NumberUnit(Spell(v, k)[0]) then 0 else Spell(v, k)[0]
    ensures !Delimited(Spell(v, k))
  {
    assert Ascii("null")[0] == 110 && Ascii("true")[0] == 116 && Ascii("false")[0] == 102;
    if v.Number? {
      assert v.text[0] in v.text;
    }
  }

  /** A printed value followed by a delimiter can be read back in one way only. */
  lemma {:induction false} SpellInjective(a: Json, b: Json, x: Text, y: Text)
    requires Plain(a) && Plain(b) && Delimited(x) && Delimited(y)
    requires Spell(a, x) == Spell(b, y)
    ensures a == b && x == y
    decreases a, 1
  {
    SpellStarts(a, x);
    SpellStarts(b, y);
    assert Kind(a) == Kind(b);
    match a
    case Null => SamePrefix(Ascii("null"), x, Ascii("null"), y);
    case Bool(v) =>
      var t := if v then Ascii("true") else Ascii("false");
      SamePrefix(t, x, t, y);
    case Number(s) => NumbersEnd(s, b.text, x, y);
    case String(s) =>
      SamePrefix([QUOTE], Escaped(s, x), [QUOTE], Escaped(b.s, y));
      EscapeInjective(s, b.s, x, y);
    case Array(items) =>
      SamePrefix([OPEN_BRACKET], SpellItems(items, x), [OPEN_BRACKET], SpellItems(b.items, y));
      ItemsInjective(items, b.items, x, y);
    case Object(fields) =>
      SamePrefix([OPEN_BRACE], SpellFields(fields, x), [OPEN_BRACE], SpellFields(b.fields, y));
      FieldsInjective(fields, b.fields, x, y);
  }

  lemma {:induction false} ItemsInjective(p: seq<Json>, q: seq<Json>, x: Text, y: Text)
    requires forall v | v in p :: Plain(v)
    requires forall v | v in q :: Plain(v)
    requires SpellItems(p, x) == SpellItems(q, y)
    ensures p == q && x == y
    decreases p, 1
  {
    if p != [] && q != [] {
      SpellInjective(p[0], q[0], SpellMoreItems(p[1..], x), SpellMoreItems(q[1..], y));
      MoreItemsInjective(p[1..], q[1..], x, y);
      assert p == [p[0]] + p[1..] && q == [q[0]] + q[1..];
    } else {
      if p != [] {
        SpellStarts(p[0], SpellMoreItems(p[1..], x));
      }
      if q != [] {
        SpellStarts(q[0], SpellMoreItems(q[1..], y));
      }
      assert SpellItems(p, x)[0] == CLOSE_BRACKET;
      SamePrefix([CLOSE_BRACKET], x, [CLOSE_BRACKET], y);
    }
  }

  lemma {:induction false} MoreItemsInjective(p: seq<Json>, q: seq<Json>, x: Text, y: Text)
    requires forall v | v in p :: Plain(v)
    requires forall v | v in q :: Plain(v)
    requires SpellMoreItems(p, x) == SpellMoreItems(q, y)
    ensures p == q && x == y
    decreases p, 0
  {
    if p != [] && q != [] {
      var u, w := SpellMoreItems(p[1..], x), SpellMoreItems(q[1..], y);
      SamePrefix([COMMA], Spell(p[0], u), [COMMA], Spell(q[0], w));
      SpellInjective(p[0], q[0], u, w);
      MoreItemsInjective(p[1..], q[1..], x, y);
      assert p == [p[0]] + p[1..] && q == [q[0]] + q[1..];
    } else {
      SamePrefix([CLOSE_BRACKET], x, [CLOSE_BRACKET], y);
    }
  }

  lemma {:induction false} FieldInjective(f: Keyed<Json>, g: Keyed<Json>, x: Text, y: Text)
    requires Plain(f.value) && Plain(g.value) && Delimited(x) && Delimited(y)
    requires SpellField(f, x) == SpellField(g, y)
    ensures f == g && x == y
    decreases f, 2
  {
    var u, w := [COLON] + Spell(f.value, x), [COLON] + Spell(g.value, y);
    SamePrefix([QUOTE], Escaped(f.key, u), [QUOTE], Escaped(g.key, w));
    EscapeInjective(f.key, g.key, u, w);
    SamePrefix([COLON], Spell(f.value, x), [COLON], Spell(g.value, y));
    SpellInjective(f.value, g.value, x, y);
  }

  lemma {:induction false} FieldsInjective(p: seq<Keyed<Json>>, q: seq<Keyed<Json>>, x: Text, y: Text)
    requires forall f | f in p :: Plain(f.value)
    requires forall f | f in q :: Plain(f.value)
    requires SpellFields(p, x) == SpellFields(q, y)
    ensures p == q && x == y
    decreases p, 1
  {
    if p != [] && q != [] {
      FieldInjective(p[0], q[0], SpellMoreFields(p[1..], x), SpellMoreFields(q[1..], y));
      MoreFieldsInjective(p[1..], q[1..], x, y);
      assert p == [p[0]] + p[1..] && q == [q[0]] + q[1..];
    } else {
      assert SpellFields(p, x)[0] == CLOSE_BRACE;
      SamePrefix([CLOSE_BRACE], x, [CLOSE_BRACE], y);
    }
  }

  lemma {:induction false} MoreFieldsInjective(p: seq<Keyed<Json>>, q: seq<Keyed<Json>>, x: Text, y: Text)
    requires forall f | f in p :: Plain(f.value)
    requires forall f | f in q :: Plain(f.value)
    requires SpellMoreFields(p, x) == SpellMoreFields(q, y)
    ensures p == q && x == y
    decreases p, 0
  {
    if p != [] && q != [] {
      var u, w := SpellMoreFields(p[1..], x), SpellMoreFields(q[1..], y);
      SamePrefix([COMMA], SpellField(p[0], u), [COMMA], SpellField(q[0], w));
      FieldInjective(p[0], q[0], u, w);
      MoreFieldsInjective(p[1..], q[1..], x, y);
      assert p == [p[0]] + p[1..] && q == [q[0]] + q[1..];
    } else {
      SamePrefix([CLOSE_BRACE], x, [CLOSE_BRACE], y);
    }
  }

  // ---------- canonicalJson prints the normal form ----------

  /** t is the JSON text of the plain value v. */
  ghost predicate PrintsAs(v: Json, t: Text) {
    Plain(v) && forall k :: Spell(v, k) == t + k
  }

  ghost predicate FieldPrintsAs(f: Keyed<Json>, m: Keyed<Text>) {
    f.key == m.key && PrintsAs(f.value, m.value)
  }

  ghost predicate FieldsPrintAs(fields: seq<Keyed<Json>>, ms: seq<Keyed<Text>>) {
    |fields| == |ms| && (fields == [] || (FieldPrintsAs(fields[0], ms[0]) && FieldsPrintAs(fields[1..], ms[1..])))
  }

  lemma {:induction false} InsertKeepsPrinting(f: Keyed<Json>, m: Keyed<Text>, fields: seq<Keyed<Json>>, ms: seq<Keyed<Text>>)
    requires FieldPrintsAs(f, m) && FieldsPrintAs(fields, ms)
    ensures FieldsPrintAs(Insert(f, fields), Insert(m, ms))
  {
    hide FieldPrintsAs;
    if fields == [] || AtMost(f.key, fields[0].key) {
      assert ([f] + fields)[1..] == fields && ([m] + ms)[1..] == ms;
      assert f.key == m.key && (fields != [] ==> fields[0].key == ms[0].key) by { FieldKeys(f, m, fields, ms); }
    } else {
      InsertKeepsPrinting(f, m, fields[1..], ms[1..]);
      var p, q := Insert(f, fields[1..]), Insert(m, ms[1..]);
      assert ([fields[0]] + p)[1..] == p && ([ms[0]] + q)[1..] == q;
      assert f.key == m.key && fields[0].key == ms[0].key by { FieldKeys(f, m, fields, ms); }
    }
  }

  lemma FieldKeys(f: Keyed<Json>, m: Keyed<Text>, fields: seq<Keyed<Json>>, ms: seq<Keyed<Text>>)
    requires FieldPrintsAs(f, m) && FieldsPrintAs(fields, ms)
    ensures f.key == m.key && (fields != [] ==> fields[0].key == ms[0].key)
  {
  }

  lemma {:induction false} SortKeepsPrinting(fields: seq<Keyed<Json>>, ms: seq<Keyed<Text>>)
    requires FieldsPrintAs(fields, ms)
    ensures FieldsPrintAs(SortByKey(fields), SortByKey(ms))
  {
    if fields != [] {
      SortKeepsPrinting(fields[1..], ms[1..]);
      InsertKeepsPrinting(fields[0], ms[0], SortByKey(fields[1..]), SortByKey(ms[1..]));
    }
  }

  lemma SpellFieldIsMember(f: Keyed<Json>, m: Keyed<Text>, k: Text)
    requires FieldPrintsAs(f, m)
    ensures SpellField(f, k) == MemberText(m) + k
  {
    EscapedIsEscape(f.key, [COLON] + Spell(f.value, k));
    assert Spell(f.value, k) == m.value + k;
  }

  lemma {:induction false} MoreFieldsPrint(fields: seq<Keyed<Json>>, ms: seq<Keyed<Text>>, k: Text)
    requires FieldsPrintAs(fields, ms)
    ensures forall f | f in fields :: Plain(f.value)
    ensures SpellMoreFields(fields, k) == JoinMore(MemberTexts(ms)) + [CLOSE_BRACE] + k
  {
    if fields != [] {
      MoreFieldsPrint(fields[1..], ms[1..], k);
      SpellFieldIsMember(fields[0], ms[0], SpellMoreFields(fields[1..], k));
      assert MemberTexts(ms)[1..] == MemberTexts(ms[1..]);
    }
  }

  lemma Regroup(open: Text, first: Text, more: Text, close: Text, k: Text)
    ensures open + (first + (more + close + k)) == open + (first + more) + close + k
  {
  }

  lemma ObjectPrints(fields: seq<Keyed<Json>>, ms: seq<Keyed<Text>>)
    requires FieldsPrintAs(fields, ms)
    ensures PrintsAs(Object(fields), [OPEN_BRACE] + Join(MemberTexts(ms)) + [CLOSE_BRACE])
  {
    MoreFieldsPrint(fields, ms, []);
    var text := [OPEN_BRACE] + Join(MemberTexts(ms)) + [CLOSE_BRACE];
    forall k ensures Spell(Object(fields), k) == text + k {
      if fields == [] {
        assert SpellFields(fields, k) == [CLOSE_BRACE] + k;
      } else {
        var more := JoinMore(MemberTexts(ms[1..]));
        MoreFieldsPrint(fields[1..], ms[1..], k);
        SpellFieldIsMember(fields[0], ms[0], SpellMoreFields(fields[1..], k));
        assert MemberTexts(ms)[1..] == MemberTexts(ms[1..]);
        Regroup([OPEN_BRACE], MemberText(ms[0]), more, [CLOSE_BRACE], k);
      }
    }
  }

  ghost predicate ItemsPrintAs(items: seq<Json>, texts: seq<Text>) {
    |items| == |texts| && forall i | 0 <= i < |items| :: PrintsAs(items[i], texts[i])
  }

  lemma {:induction false} MoreItemsPrint(items: seq<Json>, texts: seq<Text>, k: Text)
    requires ItemsPrintAs(items, texts)
    ensures forall x | x in items :: Plain(x)
    ensures SpellMoreItems(items, k) == JoinMore(texts) + [CLOSE_BRACKET] + k
  {
    if items != [] {
      MoreItemsPrint(items[1..], texts[1..], k);
      assert Spell(items[0], SpellMoreItems(items[1..], k)) == texts[0] + SpellMoreItems(items[1..], k);
    }
  }

  lemma ArrayPrints(items: seq<Json>, texts: seq<Text>)
    requires ItemsPrintAs(items, texts)
    ensures PrintsAs(Array(items), [OPEN_BRACKET] + Join(texts) + [CLOSE_BRACKET])
  {
    MoreItemsPrint(items, texts, []);
    var text := [OPEN_BRACKET] + Join(texts) + [CLOSE_BRACKET];
    forall k ensures Spell(Array(items), k) == text + k {
      if items == [] {
        assert SpellItems(items, k) == [CLOSE_BRACKET] + k;
      } else {
        var more := JoinMore(texts[1..]);
        MoreItemsPrint(items[1..], texts[1..], k);
        Regroup([OPEN_BRACKET], texts[0], more, [CLOSE_BRACKET], k);
      }
    }
  }

  /** canonicalJson throws exactly on the values that are not serializable, and otherwise prints the normal form. */
  lemma {:induction false} CanonicalPrintsNormal(v: Json)
    requires WellFormed(v)
    ensures CanonicalJson(v).Some? <==> Serializable(v)
    ensures Serializable(v) ==> PrintsAs(Normal(v), CanonicalJson(v).value)
    decreases v, 1
  {
    match v
    case Array(items) =>
      CanonicalItemsPrintNormal(items);
      if Serializable(v) {
        ArrayPrints(Normal(v).items, CanonicalItems(items).value);
      }
    case Object(fields) =>
      CanonicalFieldsPrintNormal(fields);
      if Serializable(v) {
        var members := CanonicalFields(fields).value;
        SortKeepsPrinting(NormalFields(fields), members);
        ObjectPrints(Normal(v).fields, SortByKey(members));
      }
    case String(s) =>
      forall k ensures Spell(v, k) == Quote(s) + k {
        EscapedIsEscape(s, k);
      }
    case _ =>
  }

  lemma {:induction false} CanonicalItemsPrintNormal(items: seq<Json>)
    requires forall x | x in items :: WellFormed(x)
    ensures CanonicalItems(items).Some? <==> forall x | x in items :: Serializable(x)
    ensures CanonicalItems(items).Some? ==>
              ItemsPrintAs(seq(|items|, i requires 0 <= i < |items| => Normal(items[i])), CanonicalItems(items).value)
    decreases items, 0
  {
    hide PrintsAs;
    if items != [] {
      CanonicalPrintsNormal(items[0]);
      CanonicalItemsPrintNormal(items[1..]);
      assert items == [items[0]] + items[1..];
      assert (forall x | x in items :: Serializable(x))
        <==> Serializable(items[0]) && forall x | x in items[1..] :: Serializable(x);
    }
  }

  lemma {:induction false} CanonicalFieldsPrintNormal(fields: seq<Keyed<Json>>)
    requires forall f | f in fields :: WellFormed(f.value)
    ensures CanonicalFields(fields).Some? <==> forall f | f in fields && Defined(f) :: Serializable(f.value)
    ensures CanonicalFields(fields).Some? ==> FieldsPrintAs(NormalFields(fields), CanonicalFields(fields).value)
    decreases fields, 0
  {
    hide PrintsAs;
    if fields != [] {
      CanonicalPrintsNormal(fields[0].value);
      CanonicalFieldsPrintNormal(fields[1..]);
      assert fields == [fields[0]] + fields[1..];
      if Defined(fields[0]) && CanonicalFields(fields).Some? {
        var n, c := NormalFields(fields), CanonicalFields(fields).value;
        assert n[1..] == NormalFields(fields[1..]) && c[1..] == CanonicalFields(fields[1..]).value;
      }
      var here := Defined(fields[0]) ==> Serializable(fields[0].value);
      var later := forall f | f in fields[1..] && Defined(f) :: Serializable(f.value);
      assert (forall f | f in fields && Defined(f) :: Serializable(f.value)) <==> (here && later);
    }
  }

  // ---------- Equal normal forms mean equal trees ----------

  lemma {:induction false} PropertiesContents(fields: seq<Keyed<Json>>)
    requires DistinctKeys(fields)
    requires forall f | f in fields && Defined(f) :: Serializable(f.value)
    ensures forall f | f in fields && Defined(f) ::
              f.key in Properties(fields) && Properties(fields)[f.key] == Meaning(f.value)
    ensures forall k | k in Properties(fields) :: exists f :: f in fields && Defined(f) && f.key == k
  {
    if fields != [] {
      PropertiesContents(fields[1..]);
      assert fields == [fields[0]] + fields[1..];
      forall f | f in fields && Defined(f)
        ensures f.key in Properties(fields) && Properties(fields)[f.key] == Meaning(f.value)
      {
        if f != fields[0] {
          assert f in fields[1..];
        }
      }
    }
  }

  lemma {:induction false} NormalFieldsContents(fields: seq<Keyed<Json>>)
    requires DistinctKeys(fields)
    requires forall f | f in fields && Defined(f) :: Serializable(f.value)
    ensures forall f | f in fields && Defined(f) :: Keyed(f.key, Normal(f.value)) in NormalFields(fields)
    ensures forall n | n in NormalFields(fields) ::
              exists f :: f in fields && Defined(f) && n == Keyed(f.key, Normal(f.value))
    ensures DistinctKeys(NormalFields(fields))
  {
    if fields != [] {
      NormalFieldsContents(fields[1..]);
      assert fields == [fields[0]] + fields[1..];
      forall n | n in NormalFields(fields[1..]) ensures n.key != fields[0].key {
        var f :| f in fields[1..] && Defined(f) && n == Keyed(f.key, Normal(f.value));
      }
      forall f | f in fields && Defined(f) ensures Keyed(f.key, Normal(f.value)) in NormalFields(fields) {
        if f != fields[0] {
          assert f in fields[1..];
        }
      }
    }
  }

  lemma DistinctOnce<T>(xs: seq<Keyed<T>>, x: Keyed<T>)
    requires DistinctKeys(xs)
    ensures multiset(xs)[x] == if x in xs then 1 else 0
    decreases xs
  {
    if xs != [] {
      DistinctOnce(xs[1..], x);
      assert xs == [xs[0]] + xs[1..];
    }
  }

  lemma {:induction false} NormalMeansTree(a: Json, b: Json)
    requires WellFormed(a) && WellFormed(b) && Serializable(a) && Serializable(b)
    ensures Normal(a) == Normal(b) <==> Meaning(a) == Meaning(b)
    decreases a
  {
    if a.Array? && b.Array? {
      var p, q := a.items, b.items;
      if |p| == |q| {
        forall i | 0 <= i < |p| ensures Normal(p[i]) == Normal(q[i]) <==> Meaning(p[i]) == Meaning(q[i]) {
          NormalMeansTree(p[i], q[i]);
        }
        if Normal(a) == Normal(b) {
          forall i | 0 <= i < |p| ensures Meaning(p[i]) == Meaning(q[i]) {
            assert Normal(a).items[i] == Normal(b).items[i];
          }
        }
        if Meaning(a) == Meaning(b) {
          forall i | 0 <= i < |p| ensures Normal(p[i]) == Normal(q[i]) {
            assert Meaning(a).items[i] == Meaning(b).items[i];
          }
        }
      } else {
        assert |Normal(a).items| != |Normal(b).items| && |Meaning(a).items| != |Meaning(b).items|;
      }
    } else if a.Object? && b.Object? {
      forall f, g | f in a.fields && Defined(f) && g in b.fields && Defined(g)
        ensures Normal(f.value) == Normal(g.value) <==> Meaning(f.value) == Meaning(g.value)
      {
        NormalMeansTree(f.value, g.value);
      }
      FieldsMeanTree(a.fields, b.fields);
    }
  }

  lemma FieldsMeanTree(p: seq<Keyed<Json>>, q: seq<Keyed<Json>>)
    requires DistinctKeys(p) && DistinctKeys(q)
    requires forall f | f in p && Defined(f) :: Serializable(f.value)
    requires forall f | f in q && Defined(f) :: Serializable(f.value)
    requires ValuesAgree(p, q)
    ensures SortByKey(NormalFields(p)) == SortByKey(NormalFields(q)) <==> Properties(p) == Properties(q)
  {
    if SortByKey(NormalFields(p)) == SortByKey(NormalFields(q)) {
      SameSortSameContents(NormalFields(p), NormalFields(q));
      forall k | k in Properties(p) {
        SameFieldsSameProperty(p, q, k);
      }
      forall k | k in Properties(q) {
        SameFieldsSameProperty(q, p, k);
      }
    }
    if Properties(p) == Properties(q) {
      forall n | n in NormalFields(p) {
        SamePropertySameField(p, q, n);
      }
      forall n | n in NormalFields(q) {
        SamePropertySameField(q, p, n);
      }
      NormalFieldsContents(p);
      NormalFieldsContents(q);
      SameFieldsSort(NormalFields(p), NormalFields(q));
    }
  }

  lemma SameSortSameContents<T>(p: seq<Keyed<T>>, q: seq<Keyed<T>>)
    requires SortByKey(p) == SortByKey(q)
    ensures forall n :: n in p <==> n in q
  {
    SortByKeyIsSorted(p);
    SortByKeyIsSorted(q);
    forall n ensures n in p <==> n in q {
      assert n in p <==> n in multiset(p);
      assert n in q <==> n in multiset(q);
    }
  }

  ghost predicate ValuesAgree(p: seq<Keyed<Json>>, q: seq<Keyed<Json>>)
    requires forall f | f in p && Defined(f) :: Serializable(f.value)
    requires forall f | f in q && Defined(f) :: Serializable(f.value)
  {
    forall f, g | f in p && Defined(f) && g in q && Defined(g) ::
      Normal(f.value) == Normal(g.value) <==> Meaning(f.value) == Meaning(g.value)
  }

  lemma SameFieldsSameProperty(p: seq<Keyed<Json>>, q: seq<Keyed<Json>>, k: Text)
    requires DistinctKeys(p) && DistinctKeys(q)
    requires forall f | f in p && Defined(f) :: Serializable(f.value)
    requires forall f | f in q && Defined(f) :: Serializable(f.value)
    requires ValuesAgree(p, q)
    requires forall n | n in NormalFields(p) :: n in NormalFields(q)
    requires k in Properties(p)
    ensures k in Properties(q) && Properties(q)[k] == Properties(p)[k]
  {
    PropertiesContents(p);
    var f :| f in p && Defined(f) && f.key == k;
    assert Keyed(k, Normal(f.value)) in NormalFields(q) by {
      NormalFieldsContents(p);
    }
    var g :| g in q && Defined(g) && Keyed(k, Normal(f.value)) == Keyed(g.key, Normal(g.value)) by {
      NormalFieldsContents(q);
    }
    PropertiesContents(q);
  }

  lemma SamePropertySameField(p: seq<Keyed<Json>>, q: seq<Keyed<Json>>, n: Keyed<Json>)
    requires DistinctKeys(p) && DistinctKeys(q)
    requires forall f | f in p && Defined(f) :: Serializable(f.value)
    requires forall f | f in q && Defined(f) :: Serializable(f.value)
    requires ValuesAgree(p, q)
    requires Properties(p) == Properties(q)
    requires n in NormalFields(p)
    ensures n in NormalFields(q)
  {
    var f :| f in p && Defined(f) && n == Keyed(f.key, Normal(f.value)) by {
      NormalFieldsContents(p);
    }
    assert f.key in Properties(q) && Properties(q)[f.key] == Meaning(f.value) by {
      PropertiesContents(p);
    }
    PropertiesContents(q);
    var g :| g in q && Defined(g) && g.key == f.key;
    assert n == Keyed(g.key, Normal(g.value));
    NormalFieldsContents(q);
  }

  lemma SameFieldsSort(p: seq<Keyed<Json>>, q: seq<Keyed<Json>>)
    requires DistinctKeys(p) && DistinctKeys(q)
    requires forall n :: n in p <==> n in q
    ensures SortByKey(p) == SortByKey(q)
  {
    forall n ensures multiset(p)[n] == multiset(q)[n] {
      DistinctOnce(p, n);
      DistinctOnce(q, n);
    }
    SortByKeyIsSorted(p);
    SortByKeyIsSorted(q);
    forall x, y | x in SortByKey(p) && y in SortByKey(p) && x.key == y.key ensures x == y {
      assert x in multiset(SortByKey(p)) && y in multiset(SortByKey(p));
    }
    SortedIsUnique(SortByKey(p), SortByKey(q));
  }

  // ---------- Main results ----------

  /** canonicalJson throws on exactly the values that hold something JSON cannot carry. */
  lemma CanonicalJsonTotal(v: Json)
    requires WellFormed(v)
    ensures CanonicalJson(v).Some? <==> Serializable(v)
  {
    CanonicalPrintsNormal(v);
  }

  /** Comparing canonical texts compares values: equal texts exactly when the trees are equal. */
  lemma CanonicalJsonInjective(a: Json, b: Json)
    requires WellFormed(a) && WellFormed(b) && Serializable(a) && Serializable(b)
    ensures CanonicalJson(a) == CanonicalJson(b) <==> Meaning(a) == Meaning(b)
  {
    CanonicalPrintsNormal(a);
    CanonicalPrintsNormal(b);
    NormalMeansTree(a, b);
    if CanonicalJson(a) == CanonicalJson(b) {
      assert Spell(Normal(a), []) == Spell(Normal(b), []);
      SpellInjective(Normal(a), Normal(b), [], []);
    }
    if Meaning(a) == Meaning(b) {
      var s, t := CanonicalJson(a).value, CanonicalJson(b).value;
      assert Spell(Normal(a), []) == s + [] == s;
      assert Spell(Normal(b), []) == t + [] == t;
    }
  }

  // ---------- createDefinitionFingerprint ----------

  function TextItems(ts: seq<Text>): (r: seq<Json>)
    ensures |r| == |ts|
    ensures forall i | 0 <= i < |ts| :: r[i] == String(ts[i])
  {
    seq(|ts|, i requires 0 <= i < |ts| => String(ts[i]))
  }

  /** The record that createDefinitionFingerprint serialises, in the order it is written. */
  function FingerprintInput(definition: Json, workingDir: Text, allowedPaths: seq<Text>, environment: Json): Json {
    Object([
      Keyed(Ascii("definition"), definition),
      Keyed(Ascii("workingDir"), String(workingDir)),
      Keyed(Ascii("allowedPaths"), Array(TextItems(SortTexts(allowedPaths)))),
      Keyed(Ascii("environment"), environment)
    ])
  }

  function CreateDefinitionFingerprint(definition: Json, workingDir: Text, allowedPaths: seq<Text>, environment: Json): Option<Text> {
    CanonicalJson(FingerprintInput(definition, workingDir, allowedPaths, environment))
  }

  /** An agent definition or an environment as the catalog and the filter hand it over. */
  ghost predicate IsRecord(v: Json) {
    v.Object? && WellFormed(v)
  }

  lemma FingerprintKeysDiffer()
    ensures Ascii("definition") != Ascii("workingDir") && Ascii("definition") != Ascii("allowedPaths")
    ensures Ascii("definition") != Ascii("environment") && Ascii("workingDir") != Ascii("allowedPaths")
    ensures Ascii("workingDir") != Ascii("environment") && Ascii("allowedPaths") != Ascii("environment")
  {
    assert Ascii("definition")[0] == 100 && Ascii("workingDir")[0] == 119;
    assert Ascii("allowedPaths")[0] == 97 && Ascii("environment")[0] == 101;
  }

  lemma FingerprintInputWellFormed(definition: Json, workingDir: Text, allowedPaths: seq<Text>, environment: Json)
    requires IsRecord(definition) && IsRecord(environment)
    ensures WellFormed(FingerprintInput(definition, workingDir, allowedPaths, environment))
    ensures Serializable(FingerprintInput(definition, workingDir, allowedPaths, environment))
       <==> Serializable(definition) && Serializable(environment)
  {
    FingerprintKeysDiffer();
    var fields := FingerprintInput(definition, workingDir, allowedPaths, environment).fields;
    assert fields[0] in fields && fields[3] in fields;
    assert Defined(fields[0]) && Defined(fields[3]);
    assert Serializable(fields[1].value) && Serializable(fields[2].value);
  }

  lemma ExtendedMapsEqual<K, V>(m: map<K, V>, n: map<K, V>, k: K, x: V, y: V)
    requires k !in m && k !in n
    ensures m[k := x] == n[k := y] <==> x == y && m == n
  {
    if m[k := x] == n[k := y] {
      assert m[k := x][k] == n[k := y][k];
      assert m == m[k := x] - {k} && n == n[k := y] - {k};
    }
  }

  /** The values mean the same, one by one. */
  ghost predicate SameMeanings(p: seq<Keyed<Json>>, q: seq<Keyed<Json>>)
    requires |p| == |q|
    requires forall f | f in p :: Serializable(f.value)
    requires forall f | f in q :: Serializable(f.value)
  {
    p == [] || (Meaning(p[0].value) == Meaning(q[0].value) && SameMeanings(p[1..], q[1..]))
  }

  /** Two lists with the same distinct keys in the same order mean the same when their values do. */
  lemma {:induction false} PropertiesPointwise(p: seq<Keyed<Json>>, q: seq<Keyed<Json>>)
    requires |p| == |q| && DistinctKeys(p) && DistinctKeys(q)
    requires forall i | 0 <= i < |p| :: p[i].key == q[i].key
    requires forall f | f in p :: Serializable(f.value)
    requires forall f | f in q :: Serializable(f.value)
    ensures Properties(p) == Properties(q) <==> SameMeanings(p, q)
  {
    if p != [] {
      var k := p[0].key;
      PropertiesPointwise(p[1..], q[1..]);
      var mp, mq := Properties(p[1..]), Properties(q[1..]);
      assert k !in mp by { PropertiesContents(p[1..]); }
      assert k !in mq by { PropertiesContents(q[1..]); }
      assert p[0] in p && q[0] in q;
      ExtendedMapsEqual(mp, mq, k, Meaning(p[0].value), Meaning(q[0].value));
    }
  }

  lemma PathItemsMeaning(p: seq<Text>, q: seq<Text>)
    ensures Meaning(Array(TextItems(p))) == Meaning(Array(TextItems(q))) <==> p == q
  {
    var a, b := Array(TextItems(p)), Array(TextItems(q));
    forall i | 0 <= i < |p| ensures Meaning(a).items[i] == StringTree(p[i]) {
      assert a.items[i] == String(p[i]);
    }
    forall i | 0 <= i < |q| ensures Meaning(b).items[i] == StringTree(q[i]) {
      assert b.items[i] == String(q[i]);
    }
    if Meaning(a) == Meaning(b) {
      assert |p| == |Meaning(a).items| == |q|;
      forall i | 0 <= i < |p| ensures p[i] == q[i] {
        assert StringTree(p[i]) == StringTree(q[i]);
      }
    }
  }

  /** A fingerprint exists exactly when the definition and the environment hold nothing that JSON refuses. */
  lemma FingerprintExists(definition: Json, workingDir: Text, allowedPaths: seq<Text>, environment: Json)
    requires IsRecord(definition) && IsRecord(environment)
    ensures CreateDefinitionFingerprint(definition, workingDir, allowedPaths, environment).Some?
       <==> Serializable(definition) && Serializable(environment)
  {
    FingerprintInputWellFormed(definition, workingDir, allowedPaths, environment);
    CanonicalJsonTotal(FingerprintInput(definition, workingDir, allowedPaths, environment));
  }

  /**
   Two existing fingerprints are equal exactly when the definitions and the environments mean the same,
   the working directories are the same text, and the path lists are the same multiset.
   */
  lemma FingerprintsEqual(def1: Json, dir1: Text, paths1: seq<Text>, env1: Json,
                          def2: Json, dir2: Text, paths2: seq<Text>, env2: Json)
    requires IsRecord(def1) && IsRecord(env1) && IsRecord(def2) && IsRecord(env2)
    requires Serializable(def1) && Serializable(env1) && Serializable(def2) && Serializable(env2)
    ensures CreateDefinitionFingerprint(def1, dir1, paths1, env1) == CreateDefinitionFingerprint(def2, dir2, paths2, env2)
      <==>
      && Meaning(def1) == Meaning(def2)
      && dir1 == dir2
      && multiset(paths1) == multiset(paths2)
      && Meaning(env1) == Meaning(env2)
  {
    FingerprintInputWellFormed(def1, dir1, paths1, env1);
    FingerprintInputWellFormed(def2, dir2, paths2, env2);
    var v1, v2 := FingerprintInput(def1, dir1, paths1, env1), FingerprintInput(def2, dir2, paths2, env2);
    RecordTextsEqual(v1, v2, dir1, paths1, dir2, paths2);
  }

  lemma RecordTextsEqual(v1: Json, v2: Json, dir1: Text, paths1: seq<Text>, dir2: Text, paths2: seq<Text>)
    requires WellFormed(v1) && WellFormed(v2) && Serializable(v1) && Serializable(v2)
    requires v1.Object? && v2.Object? && |v1.fields| == |v2.fields| == 4
    requires forall i | 0 <= i < 4 :: v1.fields[i].key == v2.fields[i].key && Defined(v1.fields[i]) && Defined(v2.fields[i])
    requires v1.fields[1].value == String(dir1) && v2.fields[1].value == String(dir2)
    requires v1.fields[2].value == Array(TextItems(SortTexts(paths1)))
    requires v2.fields[2].value == Array(TextItems(SortTexts(paths2)))
    ensures Serializable(v1.fields[0].value) && Serializable(v2.fields[0].value)
    ensures Serializable(v1.fields[3].value) && Serializable(v2.fields[3].value)
    ensures CanonicalJson(v1) == CanonicalJson(v2) <==>
      && Meaning(v1.fields[0].value) == Meaning(v2.fields[0].value)
      && dir1 == dir2
      && multiset(paths1) == multiset(paths2)
      && Meaning(v1.fields[3].value) == Meaning(v2.fields[3].value)
  {
    var p, q := v1.fields, v2.fields;
    assert p[0] in p && p[3] in p && q[0] in q && q[3] in q;
    CanonicalJsonInjective(v1, v2);
    RecordMeanings(p, q, dir1, paths1, dir2, paths2);
  }

  lemma RecordMeanings(p: seq<Keyed<Json>>, q: seq<Keyed<Json>>, dir1: Text, paths1: seq<Text>, dir2: Text, paths2: seq<Text>)
    requires |p| == |q| == 4 && DistinctKeys(p) && DistinctKeys(q)
    requires forall i | 0 <= i < 4 :: p[i].key == q[i].key
    requires forall f | f in p :: Serializable(f.value)
    requires forall f | f in q :: Serializable(f.value)
    requires p[1].value == String(dir1) && q[1].value == String(dir2)
    requires p[2].value == Array(TextItems(SortTexts(paths1))) && q[2].value == Array(TextItems(SortTexts(paths2)))
    ensures Properties(p) == Properties(q) <==>
      && Meaning(p[0].value) == Meaning(q[0].value)
      && dir1 == dir2
      && multiset(paths1) == multiset(paths2)
      && Meaning(p[3].value) == Meaning(q[3].value)
  {
    PropertiesPointwise(p, q);
    FourMeanings(p, q);
    SortTextsCharacterises(paths1, paths2);
    PathItemsMeaning(SortTexts(paths1), SortTexts(paths2));
    assert Meaning(String(dir1)) == StringTree(dir1) && Meaning(String(dir2)) == StringTree(dir2);
  }

  lemma FourMeanings(p: seq<Keyed<Json>>, q: seq<Keyed<Json>>)
    requires |p| == |q| == 4
    requires forall f | f in p :: Serializable(f.value)
    requires forall f | f in q :: Serializable(f.value)
    ensures SameMeanings(p, q) <==>
      && Meaning(p[0].value) == Meaning(q[0].value) && Meaning(p[1].value) == Meaning(q[1].value)
      && Meaning(p[2].value) == Meaning(q[2].value) && Meaning(p[3].value) == Meaning(q[3].value)
  {
    var p1, q1 := p[1..], q[1..];
    var p2, q2 := p1[1..], q1[1..];
    var p3, q3 := p2[1..], q2[1..];
    assert SameMeanings(p, q) <==> Meaning(p[0].value) == Meaning(q[0].value) && SameMeanings(p1, q1);
    assert SameMeanings(p1, q1) <==> Meaning(p[1].value) == Meaning(q[1].value) && SameMeanings(p2, q2);
    assert SameMeanings(p2, q2) <==> Meaning(p[2].value) == Meaning(q[2].value) && SameMeanings(p3, q3);
    assert SameMeanings(p3, q3) <==> Meaning(p[3].value) == Meaning(q[3].value);
  }

  // ---------- pathListsEqual ----------

  /** The element-wise comparison of sorted copies decides multiset equality. */
  method PathListsEqual(a: seq<Text>, b: seq<Text>) returns (equal: bool)
    ensures equal <==> multiset(a) == multiset(b)
  {
    SortTextsCharacterises(a, b);
    if |a| != |b| {
      assert |multiset(a)| == |a| && |multiset(b)| == |b|;
      return false;
    }
    var sa, sb := SortTexts(a), SortTexts(b);
    var i := 0;
    while i < |sa|
      invariant 0 <= i <= |sa|
      invariant sa[..i] == sb[..i]
    {
      if sa[i] != sb[i] {
        return false;
      }
      i := i + 1;
    }
    assert sa == sa[..i] && sb == sb[..i];
    equal := true;
  }
}
