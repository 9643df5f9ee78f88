/**
  The canonical JSON printers of sdk/typescript/src/hashing.ts and sdk/python/controldb/hashing.py, which differ in the
  order of keys only, and a parser that undoes both.
 */
module CanonicalJson {
  import opened Common
  import opened Decimal
  import opened JsonText

  /** The integers a script number holds exactly. */
  type SafeInt = n: int | -9007199254740991 <= n <= 9007199254740991

  /** Object members in insertion order. */
  datatype Json =
    | Null
    | Bool(b: bool)
    | Num(n: SafeInt)
    | Str(s: string)
    | Arr(items: seq<Json>)
    | Obj(members: seq<Keyed<Json>>)

  // ---- key order ----

  /** Array.sort compares strings by UTF-16 code units, Python's sort by code points. */
  datatype Order = Units | Points

  /** Rank of a character: by code units, the surrogate pairs of characters from U+10000 sort below U+E000. */
  function Rank(o: Order, c: char): nat {
    if o == Units && 0xE000 <= c as int < 0x10000 then c as int + 0x200000 else c as int
  }

  /** The order strings are sorted in. */
  predicate Before(o: Order, a: string, b: string) {
    b != "" && (a == "" || Rank(o, a[0]) < Rank(o, b[0]) || (a[0] == b[0] && Before(o, a[1..], b[1..])))
  }

  function Insert<T>(o: Order, m: Keyed<T>, ms: seq<Keyed<T>>): (r: seq<Keyed<T>>)
    ensures |r| == |ms| + 1
  {
    if ms == [] || Before(o, m.key, ms[0].key) then [m] + ms else [ms[0]] + Insert(o, m, ms[1..])
  }

  function SortByKey<T>(o: Order, ms: seq<Keyed<T>>): (r: seq<Keyed<T>>)
    ensures |r| == |ms|
  {
    if ms == [] then [] else Insert(o, ms[0], SortByKey(o, ms[1..]))
  }

  // ---- the printer ----

  function JoinComma(parts: seq<string>): string {
    if parts == [] then ""
    else if |parts| == 1 then parts[0]
    else parts[0] + "," + JoinComma(parts[1..])
  }

  function Number(n: SafeInt): string {
    if n < 0 then "-" + Dec(-n) else Dec(n)
  }

  /** Members are printed in the order of their sorted keys. */
  function Canonical(o: Order, v: Json): string
    decreases v
  {
    match v
    case Null => "null"
    case Bool(b) => if b then "true" else "false"
    case Num(n) => Number(n)
    case Str(s) => Quote(Script, s)
    case Arr(items) => "[" + JoinComma(CanonicalItems(o, items)) + "]"
    case Obj(members) => "{" + JoinComma(Pairs(SortByKey(o, CanonicalMembers(o, members)))) + "}"
  }

  function CanonicalItems(o: Order, items: seq<Json>): (r: seq<string>)
    ensures |r| == |items|
    decreases items
  {
    if items == [] then [] else [Canonical(o, items[0])] + CanonicalItems(o, items[1..])
  }

  function CanonicalMembers(o: Order, ms: seq<Keyed<Json>>): (r: seq<Keyed<string>>)
    ensures |r| == |ms|
    decreases ms
  {
    if ms == [] then [] else [Keyed(ms[0].key, Canonical(o, ms[0].value))] + CanonicalMembers(o, ms[1..])
  }

  function Pairs(ms: seq<Keyed<string>>): (r: seq<string>)
    ensures |r| == |ms|
  {
    if ms == [] then [] else [Quote(Script, ms[0].key) + ":" + ms[0].value] + Pairs(ms[1..])
  }

  // ---- the same value with every object's keys sorted ----

  function Sorted(o: Order, v: Json): Json
    decreases v
  {
    match v
    case Arr(items) => Arr(SortedItems(o, items))
    case Obj(members) => Obj(SortByKey(o, SortedMembers(o, members)))
    case Null => v
    case Bool(_) => v
    case Num(_) => v
    case Str(_) => v
  }

  function SortedItems(o: Order, items: seq<Json>): (r: seq<Json>)
    ensures |r| == |items|
    decreases items
  {
    if items == [] then [] else [Sorted(o, items[0])] + SortedItems(o, items[1..])
  }

  function SortedMembers(o: Order, ms: seq<Keyed<Json>>): (r: seq<Keyed<Json>>)
    ensures |r| == |ms|
    decreases ms
  {
    if ms == [] then [] else [Keyed(ms[0].key, Sorted(o, ms[0].value))] + SortedMembers(o, ms[1..])
  }

  // ---- the value an expression denotes: objects are maps ----

  datatype Value =
    | VNull
    | VBool(b: bool)
    | VNum(n: SafeInt)
    | VStr(s: string)
    | VArr(items: seq<Value>)
    | VObj(members: map<string, Value>)

  function Denote(v: Json): Value
    decreases v
  {
    match v
    case Null => VNull
    case Bool(b) => VBool(b)
    case Num(n) => VNum(n)
    case Str(s) => VStr(s)
    case Arr(items) => VArr(DenoteItems(items))
    case Obj(members) => VObj(DenoteMembers(members))
  }

  function DenoteItems(items: seq<Json>): (r: seq<Value>)
    ensures |r| == |items|
  {
    if items == [] then [] else [Denote(items[0])] + DenoteItems(items[1..])
  }

  function DenoteMembers(ms: seq<Keyed<Json>>): (r: map<string, Value>)
    ensures r.Keys == Keys(ms)
  {
    if ms == [] then map[] else DenoteMembers(ms[1..])[ms[0].key := Denote(ms[0].value)]
  }

  function Keys<T>(ms: seq<Keyed<T>>): set<string> {
    set i | 0 <= i < |ms| :: ms[i].key
  }

  /** No object repeats a key. */
  predicate Unique(v: Json)
    decreases v
  {
    match v
    case Arr(items) => forall i :: 0 <= i < |items| ==> Unique(items[i])
    case Obj(members) => Distinct(members) && forall i :: 0 <= i < |members| ==> Unique(members[i].value)
    case Null => true
    case Bool(_) => true
    case Num(_) => true
    case Str(_) => true
  }

  // ---- the parser ----

  datatype Parsed<T> = Parsed(value: T, rest: string)

  function Expect(text: string, word: string): Option<string> {
    if |word| <= |text| && text[..|word|] == word then Some(text[|word|..]) else None
  }

  function ParseNumber(text: string): (r: Option<Parsed<Json>>)
    ensures r.Some? ==> |r.value.rest| < |text|
  {
    var neg := text != "" && text[0] == '-';
    var digits := if neg then text[1..] else text;
    var k := Span(digits);
    if k == 0 then None
    else
      var n: int := FromDec(digits[..k]);
      if n > 9007199254740991 then None else Some(Parsed(Num(if neg then 0 - n else n), digits[k..]))
  }

  function ParseWord(text: string, word: string, v: Json): (r: Option<Parsed<Json>>)
    requires word != ""
    ensures r.Some? ==> |r.value.rest| < |text|
  {
    var rest := Expect(text, word);
    if rest.None? then None else Some(Parsed(v, rest.value))
  }

  function Parse(text: string): (r: Option<Parsed<Json>>)
    ensures r.Some? ==> |r.value.rest| < |text|
    decreases |text|, 0
  {
    if text == "" then None
    else if text[0] == 'n' then ParseWord(text, "null", Null)
    else if text[0] == 't' then ParseWord(text, "true", Bool(true))
    else if text[0] == 'f' then ParseWord(text, "false", Bool(false))
    else if text[0] == '"' then
      var s := ReadString(text);
      if s.None? then None else Some(Parsed(Str(s.value.s), s.value.rest))
    else if text[0] == '[' then
      if |text| > 1 && text[1] == ']' then Some(Parsed(Arr([]), text[2..]))
      else
        var items := ParseItems(text[1..]);
        if items.None? then None else Some(Parsed(Arr(items.value.value), items.value.rest))
    else if text[0] == '{' then
      if |text| > 1 && text[1] == '}' then Some(Parsed(Obj([]), text[2..]))
      else
        var ms := ParseMembers(text[1..]);
        if ms.None? then None else Some(Parsed(Obj(ms.value.value), ms.value.rest))
    else ParseNumber(text)
  }

  /** One or more values up to the closing bracket. */
  function ParseItems(text: string): (r: Option<Parsed<seq<Json>>>)
    ensures r.Some? ==> |r.value.rest| < |text|
    decreases |text|, 1
  {
    var first := Parse(text);
    if first.None? || first.value.rest == "" then None
    else if first.value.rest[0] == ']' then Some(Parsed([first.value.value], first.value.rest[1..]))
    else if first.value.rest[0] == ',' then
      var more := ParseItems(first.value.rest[1..]);
      if more.None? then None else Some(Parsed([first.value.value] + more.value.value, more.value.rest))
    else None
  }

  /** A key, a colon and a value. */
  function ParsePair(text: string): (r: Option<Parsed<Keyed<Json>>>)
    ensures r.Some? ==> |r.value.rest| < |text|
    decreases |text|, 1
  {
    var key := ReadString(text);
    if key.None? || key.value.rest == "" || key.value.rest[0] != ':' then None
    else
      var v := Parse(key.value.rest[1..]);
      if v.None? then None else Some(Parsed(Keyed(key.value.s, v.value.value), v.value.rest))
  }

  function ParseMembers(text: string): (r: Option<Parsed<seq<Keyed<Json>>>>)
    ensures r.Some? ==> |r.value.rest| < |text|
    decreases |text|, 2
  {
    var first := ParsePair(text);
    if first.None? || first.value.rest == "" then None
    else if first.value.rest[0] == '}' then Some(Parsed([first.value.value], first.value.rest[1..]))
    else if first.value.rest[0] == ',' then
      var more := ParseMembers(first.value.rest[1..]);
      if more.None? then None else Some(Parsed([first.value.value] + more.value.value, more.value.rest))
    else None
  }

  // ---- the key order is total ----

  lemma {:induction false} BeforeTotal(o: Order, a: string, b: string)
    ensures a == b || Before(o, a, b) || Before(o, b, a)
    ensures !(Before(o, a, b) && Before(o, b, a)) && !Before(o, a, a)
  {
    if a != "" {
      BeforeTotal(o, a[1..], a[1..]);
      if b != "" && a[0] == b[0] {
        BeforeTotal(o, a[1..], b[1..]);
        assert a == [a[0]] + a[1..] && b == [b[0]] + b[1..];
      }
    }
  }

  lemma {:induction false} BeforeTransitive(o: Order, a: string, b: string, c: string)
    requires Before(o, a, b) && Before(o, b, c)
    ensures Before(o, a, c)
  {
    if a != "" && a[0] == b[0] == c[0] && Rank(o, a[0]) == Rank(o, b[0]) == Rank(o, c[0]) {
      BeforeTransitive(o, a[1..], b[1..], c[1..]);
    }
  }

  ghost predicate Ascending<T>(o: Order, ms: seq<Keyed<T>>) {
    forall i, j :: 0 <= i < j < |ms| ==> Before(o, ms[i].key, ms[j].key)
  }

  lemma {:induction false} InsertAscending<T(!new)>(o: Order, m: Keyed<T>, ms: seq<Keyed<T>>)
    requires Ascending(o, ms) && forall i :: 0 <= i < |ms| ==> ms[i].key != m.key
    ensures Ascending(o, Insert(o, m, ms))
    ensures forall x :: x in Insert(o, m, ms) <==> x == m || x in ms
  {
    if ms != [] {
      BeforeTotal(o, m.key, ms[0].key);
      if Before(o, m.key, ms[0].key) {
        forall i | 0 <= i < |ms| ensures Before(o, m.key, ms[i].key) {
          if i > 0 { BeforeTransitive(o, m.key, ms[0].key, ms[i].key); }
        }
      } else {
        var rest := ms[1..];
        var r := Insert(o, m, rest);
        InsertAscending(o, m, rest);
        forall i | 0 <= i < |r| ensures Before(o, ms[0].key, r[i].key) {
          assert r[i] in r;
          if r[i] != m {
            var j :| 0 <= j < |rest| && rest[j] == r[i];
            assert ms[j + 1] == rest[j];
          }
        }
        forall x ensures x in Insert(o, m, ms) <==> x == m || x in ms {
          assert x in ms <==> x == ms[0] || x in rest;
        }
      }
    }
  }

  /** Sorting distinct keys gives the same members in strictly ascending order. */
  lemma {:induction false} SortAscending<T(!new)>(o: Order, ms: seq<Keyed<T>>)
    requires Distinct(ms)
    ensures Ascending(o, SortByKey(o, ms))
    ensures forall x :: x in SortByKey(o, ms) <==> x in ms
  {
    if ms != [] {
      var rest := SortByKey(o, ms[1..]);
      SortAscending(o, ms[1..]);
      forall i | 0 <= i < |rest| ensures rest[i].key != ms[0].key {
        assert rest[i] in rest;
        var j :| 0 <= j < |ms[1..]| && ms[1..][j] == rest[i];
        assert ms[j + 1] == rest[i];
      }
      InsertAscending(o, ms[0], rest);
      assert forall x :: x in ms <==> x == ms[0] || x in ms[1..];
    }
  }

  /** Ascending lists with the same members are equal. */
  lemma {:induction false} AscendingUnique<T(!new)>(o: Order, a: seq<Keyed<T>>, b: seq<Keyed<T>>)
    requires Ascending(o, a) && Ascending(o, b) && forall x :: x in a <==> x in b
    ensures a == b
  {
    assert a != [] ==> a[0] in b;
    assert b != [] ==> b[0] in a;
    if a != [] && b != [] {
      BeforeTotal(o, a[0].key, b[0].key);
      assert a[0] in b && b[0] in a;
      assert a[0] == b[0];
      forall x ensures x in a[1..] <==> x in b[1..] {
        BeforeTotal(o, a[0].key, a[0].key);
        assert x in a <==> x == a[0] || x in a[1..];
        assert x in b <==> x == b[0] || x in b[1..];
      }
      AscendingUnique(o, a[1..], b[1..]);
    }
  }

  // ---- the parser undoes the printer ----

  predicate Stops(rest: string) {
    rest == "" || rest[0] == ',' || rest[0] == ']' || rest[0] == '}'
  }

  /** The text is read as the value wherever a value may end. */
  ghost predicate Reads(text: string, v: Json) {
    && text != "" && text[0] != ']' && text[0] != '}'
    && forall rest :: Stops(rest) ==> Parse(text + rest) == Some(Parsed(v, rest))
  }

  ghost predicate ReadsAll(texts: seq<string>, vs: seq<Json>) {
    |texts| == |vs| && forall i :: 0 <= i < |vs| ==> Reads(texts[i], vs[i])
  }

  /** Printed members and parsed members side by side. */
  ghost predicate ReadsMembers(texts: seq<Keyed<string>>, vs: seq<Keyed<Json>>) {
    |texts| == |vs| && forall i :: 0 <= i < |vs| ==> texts[i].key == vs[i].key && Reads(texts[i].value, vs[i].value)
  }

  lemma {:induction false} InsertReads(o: Order, t: Keyed<string>, v: Keyed<Json>, texts: seq<Keyed<string>>, vs: seq<Keyed<Json>>)
    requires ReadsMembers([t], [v]) && ReadsMembers(texts, vs)
    ensures ReadsMembers(Insert(o, t, texts), Insert(o, v, vs))
  {
    hide Reads;
    assert [t][0] == t && [v][0] == v;
    if vs != [] && !Before(o, v.key, vs[0].key) {
      InsertReads(o, t, v, texts[1..], vs[1..]);
    }
  }

  /** Sorting looks at keys only, so it moves texts and values alike. */
  lemma {:induction false} SortReads(o: Order, texts: seq<Keyed<string>>, vs: seq<Keyed<Json>>)
    requires ReadsMembers(texts, vs)
    ensures ReadsMembers(SortByKey(o, texts), SortByKey(o, vs))
  {
    hide Reads;
    if vs != [] {
      SortReads(o, texts[1..], vs[1..]);
      InsertReads(o, texts[0], vs[0], SortByKey(o, texts[1..]), SortByKey(o, vs[1..]));
    }
  }

  lemma ReadsAt(text: string, v: Json, rest: string)
    requires Reads(text, v) && Stops(rest)
    ensures Parse(text + rest) == Some(Parsed(v, rest))
  {
  }

  lemma {:induction false} ParseItemsUndo(texts: seq<string>, vs: seq<Json>, rest: string)
    requires ReadsAll(texts, vs) && vs != []
    ensures ParseItems(JoinComma(texts) + "]" + rest) == Some(Parsed(vs, rest))
    decreases |vs|
  {
    hide Parse, Reads;
    if |vs| == 1 {
      ReadsAt(texts[0], vs[0], "]" + rest);
      assert JoinComma(texts) + "]" + rest == texts[0] + ("]" + rest);
      assert [vs[0]] == vs;
    } else {
      var more := JoinComma(texts[1..]) + "]" + rest;
      ReadsAt(texts[0], vs[0], "," + more);
      assert JoinComma(texts) + "]" + rest == texts[0] + ("," + more);
      ParseItemsUndo(texts[1..], vs[1..], rest);
      assert [vs[0]] + vs[1..] == vs;
    }
  }

  lemma ParsePairUndo(t: Keyed<string>, v: Keyed<Json>, rest: string)
    requires t.key == v.key && Reads(t.value, v.value) && Stops(rest)
    ensures ParsePair(Quote(Script, t.key) + ":" + t.value + rest) == Some(Parsed(v, rest))
  {
    hide Parse, Reads, Quote, ReadString;
    var tail := ":" + (t.value + rest);
    assert Quote(Script, t.key) + ":" + t.value + rest == Quote(Script, t.key) + tail;
    ReadUndoesQuote(Script, t.key, tail);
    ReadsAt(t.value, v.value, rest);
    assert tail[1..] == t.value + rest;
  }

  lemma {:induction false} ParseMembersUndo(texts: seq<Keyed<string>>, vs: seq<Keyed<Json>>, rest: string)
    requires ReadsMembers(texts, vs) && vs != []
    ensures ParseMembers(JoinComma(Pairs(texts)) + "}" + rest) == Some(Parsed(vs, rest))
    decreases |vs|
  {
    hide ParsePair, Reads, Quote;
    var pair := Quote(Script, texts[0].key) + ":" + texts[0].value;
    if |vs| == 1 {
      ParsePairUndo(texts[0], vs[0], "}" + rest);
      assert Pairs(texts[1..]) == [];
      assert JoinComma(Pairs(texts)) + "}" + rest == pair + ("}" + rest);
      assert [vs[0]] == vs;
    } else {
      var more := JoinComma(Pairs(texts[1..])) + "}" + rest;
      ParsePairUndo(texts[0], vs[0], "," + more);
      assert JoinComma(Pairs(texts)) == pair + "," + JoinComma(Pairs(texts[1..]));
      assert JoinComma(Pairs(texts)) + "}" + rest == pair + ("," + more);
      ParseMembersUndo(texts[1..], vs[1..], rest);
      assert [vs[0]] + vs[1..] == vs;
    }
  }

  lemma ParseNumberUndo(n: SafeInt, rest: string)
    requires Stops(rest)
    ensures ParseNumber(Number(n) + rest) == Some(Parsed(Num(n), rest))
  {
    hide Dec, FromDec;
    var m: nat := if n < 0 then -n else n;
    DecRoundTrip(m);
    assert Dec(m)[0] in Dec(m);
    SpanStops(Dec(m), rest);
    assert n < 0 ==> (Number(n) + rest)[1..] == Dec(m) + rest;
  }

  lemma NumberReads(n: SafeInt)
    ensures Reads(Number(n), Num(n))
  {
    hide Dec, ParseNumber, Reads, ReadString, ParseItems, ParseMembers;
    var m: nat := if n < 0 then -n else n;
    assert Dec(m)[0] in Dec(m);
    forall rest | Stops(rest) ensures Parse(Number(n) + rest) == Some(Parsed(Num(n), rest)) {
      ParseNumberUndo(n, rest);
    }
    ReadsIf(Number(n), Num(n));
  }

  lemma StringReads(s: string)
    ensures Reads(Quote(Script, s), Str(s))
  {
    hide ReadString;
    forall rest | Stops(rest) ensures Parse(Quote(Script, s) + rest) == Some(Parsed(Str(s), rest)) {
      ReadUndoesQuote(Script, s, rest);
    }
  }

  lemma ItemsRead(texts: seq<string>, vs: seq<Json>)
    requires ReadsAll(texts, vs)
    ensures Reads("[" + JoinComma(texts) + "]", Arr(vs))
  {
    hide Reads, ParseItems, JoinComma;
    var text := "[" + JoinComma(texts) + "]";
    FirstChar(texts, vs);
    forall rest | Stops(rest) ensures Parse(text + rest) == Some(Parsed(Arr(vs), rest)) {
      assert (text + rest)[1..] == JoinComma(texts) + "]" + rest;
      if vs == [] {
        assert (text + rest)[2..] == rest;
      } else {
        ParseItemsUndo(texts, vs, rest);
      }
    }
    ReadsIf(text, Arr(vs));
  }

  lemma ReadsIf(text: string, v: Json)
    requires text != "" && text[0] != ']' && text[0] != '}'
    requires forall rest :: Stops(rest) ==> Parse(text + rest) == Some(Parsed(v, rest))
    ensures Reads(text, v)
  {
  }

  lemma FirstChar(texts: seq<string>, vs: seq<Json>)
    requires ReadsAll(texts, vs)
    ensures vs == [] ==> JoinComma(texts) == ""
    ensures vs != [] ==> JoinComma(texts) != "" && JoinComma(texts)[0] != ']'
  {
    hide Parse;
    if vs != [] { assert Reads(texts[0], vs[0]); }
  }

  lemma MembersRead(texts: seq<Keyed<string>>, vs: seq<Keyed<Json>>)
    requires ReadsMembers(texts, vs)
    ensures Reads("{" + JoinComma(Pairs(texts)) + "}", Obj(vs))
  {
    hide Reads, ParseMembers;
    var joined := JoinComma(Pairs(texts));
    var text := "{" + joined + "}";
    assert vs == [] ==> joined == "";
    assert vs != [] ==> joined != "" && joined[0] == '"';
    forall rest | Stops(rest) ensures Parse(text + rest) == Some(Parsed(Obj(vs), rest)) {
      assert (text + rest)[1..] == joined + "}" + rest;
      if vs == [] {
        assert (text + rest)[2..] == rest;
      } else {
        ParseMembersUndo(texts, vs, rest);
      }
    }
    ReadsIf(text, Obj(vs));
  }

  /** The parser undoes the printer: it gives the value back with every object's keys in order. */
  lemma {:induction false} CanonicalReads(o: Order, v: Json)
    ensures Reads(Canonical(o, v), Sorted(o, v))
    decreases v
  {
    match v {
      case Null => WordReads(o, v);
      case Bool(_) => WordReads(o, v);
      case Num(n) => NumberReads(n);
      case Str(s) => StringReads(s);
      case Arr(items) =>
        CanonicalItemsRead(o, items);
        ItemsRead(CanonicalItems(o, items), SortedItems(o, items));
      case Obj(members) =>
        CanonicalMembersRead(o, members);
        SortReads(o, CanonicalMembers(o, members), SortedMembers(o, members));
        MembersRead(SortByKey(o, CanonicalMembers(o, members)), SortByKey(o, SortedMembers(o, members)));
    }
  }

  lemma WordReads(o: Order, v: Json)
    requires v.Null? || v.Bool?
    ensures Reads(Canonical(o, v), v)
  {
  }

  lemma {:induction false} CanonicalItemsRead(o: Order, items: seq<Json>)
    ensures ReadsAll(CanonicalItems(o, items), SortedItems(o, items))
    decreases items
  {
    hide Reads;
    if items != [] {
      CanonicalReads(o, items[0]);
      CanonicalItemsRead(o, items[1..]);
    }
  }

  lemma {:induction false} CanonicalMembersRead(o: Order, ms: seq<Keyed<Json>>)
    ensures ReadsMembers(CanonicalMembers(o, ms), SortedMembers(o, ms))
    decreases ms
  {
    hide Reads;
    if ms != [] {
      CanonicalReads(o, ms[0].value);
      CanonicalMembersRead(o, ms[1..]);
    }
  }

  // ---- canonical text and denoted value determine each other ----

  lemma {:induction false} DenoteLookup(ms: seq<Keyed<Json>>, i: nat)
    requires Distinct(ms) && i < |ms|
    ensures ms[i].key in DenoteMembers(ms) && DenoteMembers(ms)[ms[i].key] == Denote(ms[i].value)
  {
    if i > 0 { DenoteLookup(ms[1..], i - 1); }
  }

  lemma {:induction false} SortedAt(o: Order, ms: seq<Keyed<Json>>, i: nat)
    requires i < |ms|
    ensures SortedMembers(o, ms)[i] == Keyed(ms[i].key, Sorted(o, ms[i].value))
  {
    if i > 0 { SortedAt(o, ms[1..], i - 1); }
  }

  lemma SortedDistinct(o: Order, ms: seq<Keyed<Json>>)
    requires Distinct(ms)
    ensures Distinct(SortedMembers(o, ms))
  {
    forall i, j | 0 <= i < j < |ms| ensures SortedMembers(o, ms)[i].key != SortedMembers(o, ms)[j].key {
      SortedAt(o, ms, i);
      SortedAt(o, ms, j);
    }
  }

  /** Values of equal denotation agree once their keys are sorted. */
  lemma {:induction false} SortedDetermined(o: Order, v: Json, w: Json)
    requires Unique(v) && Unique(w) && Denote(v) == Denote(w)
    ensures Sorted(o, v) == Sorted(o, w)
    decreases v
  {
    match v {
      case Arr(items) => SortedItemsDetermined(o, items, w.items);
      case Obj(members) =>
        var a, b := members, w.members;
        SortedDistinct(o, a);
        SortedDistinct(o, b);
        forall x ensures x in SortedMembers(o, a) <==> x in SortedMembers(o, b) {
          if x in SortedMembers(o, a) { MemberMoves(o, v, w, x); }
          if x in SortedMembers(o, b) { MemberMovesBack(o, v, w, x); }
        }
        SortAscending(o, SortedMembers(o, a));
        SortAscending(o, SortedMembers(o, b));
        AscendingUnique(o, SortByKey(o, SortedMembers(o, a)), SortByKey(o, SortedMembers(o, b)));
      case Null =>
      case Bool(_) =>
      case Num(_) =>
      case Str(_) =>
    }
  }

  lemma {:induction false} SortedItemsDetermined(o: Order, a: seq<Json>, b: seq<Json>)
    requires (forall i :: 0 <= i < |a| ==> Unique(a[i])) && (forall i :: 0 <= i < |b| ==> Unique(b[i]))
    requires DenoteItems(a) == DenoteItems(b)
    ensures SortedItems(o, a) == SortedItems(o, b)
    decreases a
  {
    if a != [] {
      assert DenoteItems(a)[0] == Denote(a[0]) && DenoteItems(b)[0] == Denote(b[0]);
      assert DenoteItems(a)[1..] == DenoteItems(a[1..]) && DenoteItems(b)[1..] == DenoteItems(b[1..]);
      SortedDetermined(o, a[0], b[0]);
      SortedItemsDetermined(o, a[1..], b[1..]);
    }
  }

  /** The member of the other object with the same key has the same sorted value. */
  lemma SameKeySameMember(o: Order, v: Json, w: Json, i: nat, j: nat)
    requires v.Obj? && w.Obj? && Unique(v) && Unique(w) && Denote(v) == Denote(w)
    requires i < |v.members| && j < |w.members| && v.members[i].key == w.members[j].key
    ensures SortedMembers(o, v.members)[i] == SortedMembers(o, w.members)[j]
    decreases v, 0
  {
    DenoteLookup(v.members, i);
    DenoteLookup(w.members, j);
    SortedDetermined(o, v.members[i].value, w.members[j].value);
    SortedAt(o, v.members, i);
    SortedAt(o, w.members, j);
  }

  lemma MemberMoves(o: Order, v: Json, w: Json, x: Keyed<Json>)
    requires v.Obj? && w.Obj? && Unique(v) && Unique(w) && Denote(v) == Denote(w)
    requires x in SortedMembers(o, v.members)
    ensures x in SortedMembers(o, w.members)
    decreases v, 1
  {
    var i: nat :| i < |v.members| && SortedMembers(o, v.members)[i] == x;
    DenoteLookup(v.members, i);
    assert v.members[i].key in Keys(w.members);
    var j: nat :| j < |w.members| && w.members[j].key == v.members[i].key;
    SameKeySameMember(o, v, w, i, j);
  }

  lemma MemberMovesBack(o: Order, v: Json, w: Json, x: Keyed<Json>)
    requires v.Obj? && w.Obj? && Unique(v) && Unique(w) && Denote(v) == Denote(w)
    requires x in SortedMembers(o, w.members)
    ensures x in SortedMembers(o, v.members)
    decreases v, 1
  {
    var j: nat :| j < |w.members| && SortedMembers(o, w.members)[j] == x;
    DenoteLookup(w.members, j);
    assert w.members[j].key in Keys(v.members);
    var i: nat :| i < |v.members| && v.members[i].key == w.members[j].key;
    SameKeySameMember(o, v, w, i, j);
  }

  /** Sorting keys changes nothing about the value. */
  lemma {:induction false} SortedSame(o: Order, v: Json)
    requires Unique(v)
    ensures Unique(Sorted(o, v)) && Denote(Sorted(o, v)) == Denote(v)
    decreases v
  {
    match v {
      case Arr(items) => SortedItemsSame(o, items);
      case Obj(members) =>
        SortedMembersSame(o, members);
      case Null =>
      case Bool(_) =>
      case Num(_) =>
      case Str(_) =>
    }
  }

  /** A member with some member's key and meaning. */
  ghost predicate Held(ms: seq<Keyed<Json>>, m: Keyed<Json>) {
    Unique(m.value) && exists j :: 0 <= j < |ms| && ms[j].key == m.key && Denote(ms[j].value) == Denote(m.value)
  }

  lemma {:induction false} SortedMembersSame(o: Order, ms: seq<Keyed<Json>>)
    requires Distinct(ms) && forall i :: 0 <= i < |ms| ==> Unique(ms[i].value)
    ensures var t := SortByKey(o, SortedMembers(o, ms));
      Distinct(t) && (forall i :: 0 <= i < |t| ==> Unique(t[i].value)) && DenoteMembers(t) == DenoteMembers(ms)
    decreases ms
  {
    hide Denote, Sorted, Unique;
    var s := SortedMembers(o, ms);
    SortedDistinct(o, ms);
    SortAscending(o, s);
    var t := SortByKey(o, s);
    forall i | 0 <= i < |t| ensures Held(ms, t[i]) {
      assert t[i] in s;
      var j :| 0 <= j < |s| && s[j] == t[i];
      SortedAt(o, ms, j);
      SortedSame(o, ms[j].value);
    }
    forall j | 0 <= j < |ms| ensures ms[j].key in Keys(t) {
      SortedAt(o, ms, j);
      assert s[j] in t;
    }
    AscendingDistinct(o, t);
    SameLookups(ms, t);
  }

  lemma AscendingDistinct<T>(o: Order, ms: seq<Keyed<T>>)
    requires Ascending(o, ms)
    ensures Distinct(ms)
  {
    forall i, j | 0 <= i < j < |ms| ensures ms[i].key != ms[j].key {
      BeforeTotal(o, ms[i].key, ms[j].key);
    }
  }

  lemma SameLookups(a: seq<Keyed<Json>>, b: seq<Keyed<Json>>)
    requires Distinct(a) && Distinct(b)
    requires forall i :: 0 <= i < |b| ==> Held(a, b[i])
    requires forall j :: 0 <= j < |a| ==> a[j].key in Keys(b)
    ensures DenoteMembers(a) == DenoteMembers(b)
  {
    hide Denote, Unique, Distinct, DenoteMembers;
    var d, e := DenoteMembers(a), DenoteMembers(b);
    forall k | k in e ensures k in d && d[k] == e[k] {
      var i: nat :| i < |b| && b[i].key == k;
      assert Held(a, b[i]);
      var j: nat :| j < |a| && a[j].key == b[i].key && Denote(a[j].value) == Denote(b[i].value);
      DenoteLookup(b, i);
      DenoteLookup(a, j);
    }
    forall k | k in d ensures k in e {
      var j :| 0 <= j < |a| && a[j].key == k;
    }
  }

  lemma {:induction false} SortedItemsSame(o: Order, items: seq<Json>)
    requires forall i :: 0 <= i < |items| ==> Unique(items[i])
    ensures DenoteItems(SortedItems(o, items)) == DenoteItems(items)
    ensures forall i :: 0 <= i < |items| ==> Unique(SortedItems(o, items)[i])
    decreases items
  {
    if items != [] {
      SortedSame(o, items[0]);
      SortedItemsSame(o, items[1..]);
    }
  }

  /** Parsing the canonical text of a value gives a value of the same meaning, and nothing is left over. */
  lemma ParseUndoesCanonical(o: Order, v: Json)
    requires Unique(v)
    ensures Parse(Canonical(o, v)) == Some(Parsed(Sorted(o, v), "")) && Denote(Sorted(o, v)) == Denote(v)
  {
    hide *;
    CanonicalReads(o, v);
    assert Stops("") by { StopsAtEnd(); }
    ReadsAt(Canonical(o, v), Sorted(o, v), "");
    assert Canonical(o, v) + "" == Canonical(o, v);
    SortedSame(o, v);
  }

  lemma StopsAtEnd()
    ensures Stops("")
  {
  }

  // ---- canonical text is the plain text of the sorted value ----

  /** Members printed in the order they are in. */
  function Print(v: Json): string
    decreases v
  {
    match v
    case Null => "null"
    case Bool(b) => if b then "true" else "false"
    case Num(n) => Number(n)
    case Str(s) => Quote(Script, s)
    case Arr(items) => "[" + JoinComma(PrintItems(items)) + "]"
    case Obj(members) => "{" + JoinComma(Pairs(PrintMembers(members))) + "}"
  }

  function PrintItems(items: seq<Json>): (r: seq<string>)
    ensures |r| == |items|
  {
    if items == [] then [] else [Print(items[0])] + PrintItems(items[1..])
  }

  function PrintMembers(ms: seq<Keyed<Json>>): (r: seq<Keyed<string>>)
    ensures |r| == |ms|
  {
    if ms == [] then [] else [Keyed(ms[0].key, Print(ms[0].value))] + PrintMembers(ms[1..])
  }

  lemma {:induction false} InsertPrints(o: Order, m: Keyed<Json>, ms: seq<Keyed<Json>>)
    ensures PrintMembers(Insert(o, m, ms)) == Insert(o, Keyed(m.key, Print(m.value)), PrintMembers(ms))
  {
    hide Print;
    if ms != [] && !Before(o, m.key, ms[0].key) { InsertPrints(o, m, ms[1..]); }
  }

  lemma {:induction false} SortPrints(o: Order, ms: seq<Keyed<Json>>)
    ensures PrintMembers(SortByKey(o, ms)) == SortByKey(o, PrintMembers(ms))
  {
    hide Print, Insert;
    if ms != [] {
      SortPrints(o, ms[1..]);
      InsertPrints(o, ms[0], SortByKey(o, ms[1..]));
    }
  }

  lemma {:induction false} CanonicalIsSortedPrint(o: Order, v: Json)
    ensures Canonical(o, v) == Print(Sorted(o, v))
    decreases v
  {
    match v {
      case Arr(items) => ItemsSortedPrint(o, items);
      case Obj(members) =>
        MembersSortedPrint(o, members);
        SortPrints(o, SortedMembers(o, members));
      case Null =>
      case Bool(_) =>
      case Num(_) =>
      case Str(_) =>
    }
  }

  lemma {:induction false} ItemsSortedPrint(o: Order, items: seq<Json>)
    ensures CanonicalItems(o, items) == PrintItems(SortedItems(o, items))
    decreases items
  {
    if items != [] {
      CanonicalIsSortedPrint(o, items[0]);
      ItemsSortedPrint(o, items[1..]);
    }
  }

  lemma {:induction false} MembersSortedPrint(o: Order, ms: seq<Keyed<Json>>)
    ensures CanonicalMembers(o, ms) == PrintMembers(SortedMembers(o, ms))
    decreases ms
  {
    if ms != [] {
      CanonicalIsSortedPrint(o, ms[0].value);
      MembersSortedPrint(o, ms[1..]);
    }
  }

  /** The text is the same exactly when the values are: the order in which keys were inserted does not show. */
  lemma CanonicalExact(o: Order, v: Json, w: Json)
    requires Unique(v) && Unique(w)
    ensures Canonical(o, v) == Canonical(o, w) <==> Denote(v) == Denote(w)
  {
    hide *;
    ParseUndoesCanonical(o, v);
    ParseUndoesCanonical(o, w);
    CanonicalIsSortedPrint(o, v);
    CanonicalIsSortedPrint(o, w);
    if Denote(v) == Denote(w) { SortedDetermined(o, v, w); }
  }
}
