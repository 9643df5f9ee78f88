/** Reading a canonical event text back: every hashed field is recovered, for every payload string. */
module EventReader {
  import opened Common
  import opened CanonicalEvent
  import opened Decimal
  import opened JsonText
  import opened KeyOrder
  import opened Timestamp

  datatype CellRead = CellRead(cell: Cell, rest: string)

  /** What follows a prefix, if the text starts with it. */
  function Skip(text: string, prefix: string): Option<string> {
    if StartsWith(text, prefix) then Some(text[|prefix|..]) else None
  }

  function ReadActor(text: string): Option<CellRead> {
    var a := Skip(text, "{" + Quote(Core, "id") + ":");
    if a.None? then None
    else
      var id := ReadString(a.value);
      if id.None? then None
      else
        var b := Skip(id.value.rest, "," + Quote(Core, "type") + ":");
        if b.None? then None
        else
          var kind := ReadString(b.value);
          if kind.None? then None
          else
            var c := Skip(kind.value.rest, "}");
            if c.None? then None else Some(CellRead(Actor(id.value.s, kind.value.s), c.value))
  }

  function ReadCell(text: string): Option<CellRead> {
    if text == "" then None
    else if text[0] == '"' then
      var r := ReadString(text);
      if r.None? then None else Some(CellRead(Text(r.value.s), r.value.rest))
    else if IsDigit(text[0]) then
      var k := Span(text);
      Some(CellRead(Number(FromDec(text[..k])), text[k..]))
    else if text[0] == '{' then ReadActor(text)
    else
      var n := Skip(text, "null");
      if n.None? then None else Some(CellRead(Null, n.value))
  }

  datatype CellsRead = CellsRead(cells: seq<Cell>, rest: string)

  function ReadPairs(keys: seq<string>, text: string): (r: Option<CellsRead>)
    ensures r.Some? ==> |r.value.cells| == |keys|
  {
    if keys == [] then Some(CellsRead([], text))
    else
      var v := Skip(text, "," + Quote(Core, keys[0]) + ":");
      if v.None? then None
      else
        var c := ReadCell(v.value);
        if c.None? then None
        else
          var more := ReadPairs(keys[1..], c.value.rest);
          if more.None? then None else Some(CellsRead([c.value.cell] + more.value.cells, more.value.rest))
  }

  const MARK: string := ",\"payload_hash\":"

  predicate MarkAt(t: string, k: nat) {
    k <= |t| && StartsWith(t[k..], MARK)
  }

  /** The last place, at or before k, where the pair after the payload could start; 0 when there is none. */
  function LastMark(t: string, k: nat): (r: nat)
    ensures r <= k
  {
    if k == 0 || MarkAt(t, k) then k else LastMark(t, k - 1)
  }

  function StrOf(c: Cell): string {
    if c.Text? then c.s else ""
  }

  function Assemble(b: seq<Cell>, payload: string, a: seq<Cell>): Event
    requires |b| == |KEYS_BEFORE| && |a| == |KEYS_AFTER|
  {
    var id := if b[0].Actor? then b[0].id else "";
    var kind := if b[0].Actor? then b[0].kind else "";
    var step: int := if a[8].Number? then a[8].n else -1;
    Event(0, StrOf(b[2]), StrOf(b[7]), StrOf(a[3]), StrOf(b[1]), StrOf(a[4]), StrOf(a[7]), step, StrOf(b[3]),
          StrOf(a[5]), kind, id, StrOf(a[9]), StrOf(a[6]), StrOf(b[8]), StrOf(a[1]),
          if payload == "null" then "" else payload, StrOf(a[0]), StrOf(a[2]), "",
          ReadIso(StrOf(b[6])), ReadIso(StrOf(b[5])), StrOf(b[4]))
  }

  /** The cells before the payload, the payload as it stands, and the cells after it. */
  datatype Parts = Parts(before: seq<Cell>, payload: string, after: seq<Cell>)

  /** The payload ends where the last payload_hash key starts: everything after it is quoted or bare. */
  function ReadParts(text: string): (r: Option<Parts>)
    ensures r.Some? ==> |r.value.before| == |KEYS_BEFORE| && |r.value.after| == |KEYS_AFTER|
  {
    if text == "" || text[0] != '{' then None
    else
      var b := ReadPairs(KEYS_BEFORE, "," + text[1..]);
      if b.None? then None
      else
        var p := Skip(b.value.rest, "," + Quote(Core, "payload") + ":");
        if p.None? then None
        else
          var k := LastMark(p.value, |p.value|);
          var a := ReadPairs(KEYS_AFTER, p.value[k..]);
          if a.None? || a.value.rest != "}" then None
          else Some(Parts(b.value.cells, p.value[..k], a.value.cells))
  }

  function ReadEvent(text: string): Option<Event> {
    var r := ReadParts(text);
    if r.None? then None else Some(Assemble(r.value.before, r.value.payload, r.value.after))
  }

  /** The cell under a key. */
  function Named(keys: seq<string>, cells: seq<Cell>, key: string): Option<Cell>
    requires |keys| == |cells|
  {
    if keys == [] then None else if keys[0] == key then Some(cells[0]) else Named(keys[1..], cells[1..], key)
  }

  /** What a canonical text says under a key other than the payload's. */
  function ReadField(text: string, key: string): Option<Cell> {
    var r := ReadParts(text);
    if r.None? then None
    else
      var b := Named(KEYS_BEFORE, r.value.before, key);
      if b.Some? then b else Named(KEYS_AFTER, r.value.after, key)
  }

  // ---- reading undoes printing, cell by cell ----

  lemma SkipPrefix(prefix: string, rest: string)
    ensures Skip(prefix + rest, prefix) == Some(rest)
  {
  }

  predicate Stops(rest: string) {
    rest != "" && (rest[0] == ',' || rest[0] == '}')
  }

  lemma ActorText(id: string, kind: string, rest: string)
    ensures Render(Actor(id, kind)) + rest ==
      "{" + Quote(Core, "id") + ":" + (Quote(Core, id) + ("," + Quote(Core, "type") + ":" + (Quote(Core, kind) + ("}" + rest))))
  {
    hide Quote;
  }

  lemma ReadActorUndo(id: string, kind: string, rest: string)
    ensures ReadActor(Render(Actor(id, kind)) + rest) == Some(CellRead(Actor(id, kind), rest))
  {
    hide Quote, ReadString, Skip, Render;
    var p, q := "{" + Quote(Core, "id") + ":", "," + Quote(Core, "type") + ":";
    var t2 := "}" + rest;
    var t1 := q + (Quote(Core, kind) + t2);
    ActorText(id, kind, rest);
    SkipPrefix(p, Quote(Core, id) + t1);
    ReadUndoesQuote(Core, id, t1);
    SkipPrefix(q, Quote(Core, kind) + t2);
    ReadUndoesQuote(Core, kind, t2);
    SkipPrefix("}", rest);
  }

  lemma ReadCellUndo(c: Cell, rest: string)
    requires Stops(rest)
    ensures ReadCell(Render(c) + rest) == Some(CellRead(c, rest))
  {
    hide ReadActor, ReadString;
    match c {
      case Null => SkipPrefix("null", rest);
      case Text(s) => ReadUndoesQuote(Core, s, rest);
      case Number(n) =>
        DecRoundTrip(n);
        SpanStops(Dec(n), rest);
        assert Dec(n)[0] in Dec(n);
      case Actor(id, kind) => ReadActorUndo(id, kind, rest);
    }
  }

  lemma TailStops(keys: seq<string>, cells: seq<Cell>, rest: string)
    requires |keys| == |cells| && Stops(rest)
    ensures Stops(Tail(keys, cells) + rest)
  {
    hide Pair;
  }

  /** A run of printed pairs is read back exactly, leaving what follows. */
  lemma {:induction false} ReadPairsUndo(keys: seq<string>, cells: seq<Cell>, rest: string)
    requires |keys| == |cells| && Stops(rest)
    ensures ReadPairs(keys, Tail(keys, cells) + rest) == Some(CellsRead(cells, rest))
    decreases |keys|
  {
    hide ReadCell, Skip, Render, Quote;
    if keys != [] {
      var prefix, more := "," + Quote(Core, keys[0]) + ":", Tail(keys[1..], cells[1..]) + rest;
      var text := Tail(keys, cells) + rest;
      assert text == prefix + (Render(cells[0]) + more);
      SkipPrefix(prefix, Render(cells[0]) + more);
      TailStops(keys[1..], cells[1..], rest);
      ReadCellUndo(cells[0], more);
      ReadPairsUndo(keys[1..], cells[1..], rest);
      assert [cells[0]] + cells[1..] == cells;
    } else {
      assert Tail(keys, cells) + rest == rest;
    }
  }

  // ---- where the payload ends ----

  /** A key that needs no escaping. */
  predicate Plain(s: string) {
    forall c :: c in s ==> 'a' <= c <= 'z' || c == '_'
  }

  lemma {:induction false} PlainBody(s: string)
    requires Plain(s)
    ensures Body(Core, s) == s
  {
    if s != "" {
      assert s[0] in s && forall c :: c in s[1..] ==> c in s;
      PlainBody(s[1..]);
    }
  }

  /** Inside a printed value, a comma and a quote are never followed by the first letter of the mark. */
  lemma CellNoMark(c: Cell, rest: string, j: nat)
    requires j < |Render(c)| && !c.Actor? && Stops(rest)
    ensures var x := Render(c) + rest; !(j + 2 < |x| && x[j] == ',' && x[j + 1] == '"' && x[j + 2] == 'p')
  {
    match c {
      case Null => {}
      case Text(s) =>
        hide Body;
        BodyGuarded(Core, s);
        var x, b := Render(c) + rest, Body(Core, s);
        assert 1 <= j <= |b| ==> x[j] == b[j - 1];
        assert 1 <= j < |b| ==> x[j + 1] == b[j];
        assert j == |b| ==> j + 2 < |x| ==> x[j + 2] == rest[0];
      case Number(n) =>
        assert Render(c)[j] in Dec(n);
    }
  }

  lemma MarkChars(t: string, k: nat)
    requires MarkAt(t, k)
    ensures k + |MARK| <= |t| && t[k] == ',' && t[k + 1] == '"' && t[k + 2] == 'p'
    ensures forall i :: 0 <= i < |MARK| ==> t[k + i] == MARK[i]
  {
    assert forall i :: 0 <= i < |MARK| ==> t[k..][..|MARK|][i] == t[k + i];
  }

  lemma NoMarkInPair(key: string, c: Cell, rest: string, k: nat)
    requires Plain(key) && !c.Actor? && Stops(rest) && (k == 0 ==> key != "payload_hash")
    requires k < |"," + Pair(key, Render(c))|
    ensures !MarkAt("," + Pair(key, Render(c)) + rest, k)
  {
    hide Render;
    var x := "," + Pair(key, Render(c)) + rest;
    PlainBody(key);
    assert x == ",\"" + key + "\":" + (Render(c) + rest);
    var n, tail := |key|, Render(c) + rest;
    if 0 < k < n + 4 {
      assert 2 <= k < n + 2 ==> x[k] == key[k - 2] && key[k - 2] in key;
      assert x[k] != ',';
    } else if k >= n + 4 {
      var j := k - n - 4;
      CellNoMark(c, rest, j);
      assert x[k] == tail[j] && (j + 1 < |tail| ==> x[k + 1] == tail[j + 1]) && (j + 2 < |tail| ==> x[k + 2] == tail[j + 2]);
    }
    if MarkAt(x, k) {
      MarkChars(x, k);
      if k == 0 { KeyIsMark(key, ":" + tail, x); }
    }
  }

  lemma KeyIsMark(key: string, after: string, x: string)
    requires Plain(key) && x == ",\"" + key + "\"" + after
    requires |MARK| <= |x| && forall i :: 0 <= i < |MARK| ==> x[i] == MARK[i]
    ensures key == "payload_hash"
  {
    var n := |key|;
    MarkLiteral();
    hide MARK;
    assert x[n + 2] == '"' && x[14] == '"';
    assert forall i :: 2 <= i < 14 ==> x[i] != '"';
    assert forall i :: 2 <= i < n + 2 ==> x[i] == key[i - 2] && key[i - 2] in key;
    assert key == MARK[2..14];
  }

  lemma MarkLiteral()
    ensures |MARK| == 16 && MARK[2..14] == "payload_hash" && MARK[14] == '"'
    ensures forall i :: 2 <= i < 14 ==> MARK[i] != '"'
  {
  }

  lemma {:induction false} NoMarkInTail(keys: seq<string>, cells: seq<Cell>, k: nat)
    requires |keys| == |cells| && (forall key :: key in keys ==> Plain(key) && key != "payload_hash")
    requires (forall c :: c in cells ==> !c.Actor?)
    ensures !MarkAt(Tail(keys, cells) + "}", k)
    decreases |keys|
  {
    hide Render, Pair;
    if keys != [] {
      var p, t := "," + Pair(keys[0], Render(cells[0])), Tail(keys[1..], cells[1..]) + "}";
      assert Tail(keys, cells) + "}" == p + t;
      TailStops(keys[1..], cells[1..], "}");
      if k < |p| {
        NoMarkInPair(keys[0], cells[0], t, k);
      } else {
        NoMarkInTail(keys[1..], cells[1..], k - |p|);
        assert k <= |p + t| ==> (p + t)[k..] == t[k - |p|..];
      }
    }
  }

  lemma KeysPlain()
    ensures Plain("payload_hash")
    ensures forall i :: 1 <= i < |KEYS_AFTER| ==> Plain(KEYS_AFTER[i]) && KEYS_AFTER[i] != "payload_hash"
  {
  }

  lemma {:induction false} LastMarkIs(t: string, p: nat, k: nat)
    requires p <= k <= |t| && (p == 0 || MarkAt(t, p)) && forall i :: p < i <= k ==> !MarkAt(t, i)
    ensures LastMark(t, k) == p
  {
    if k > p { LastMarkIs(t, p, k - 1); }
  }

  /** Whatever the payload is, the last mark in the text is the end of it. */
  lemma PayloadEnds(payload: string, cells: seq<Cell>)
    requires |cells| == |KEYS_AFTER| && forall c :: c in cells ==> !c.Actor?
    ensures var t := payload + (Tail(KEYS_AFTER, cells) + "}"); LastMark(t, |t|) == |payload|
  {
    hide Render, Pair;
    var keys := KEYS_AFTER;
    var p, rest := "," + Pair(keys[0], Render(cells[0])), Tail(keys[1..], cells[1..]) + "}";
    var s := Tail(keys, cells) + "}";
    var t := payload + s;
    assert s == p + rest;
    KeysPlain();
    TailStops(keys[1..], cells[1..], "}");
    StartsWithMark(cells[0], rest);
    assert t[|payload|..] == s;
    forall i | |payload| < i <= |t| ensures !MarkAt(t, i) {
      var k := i - |payload|;
      assert t[i..] == s[k..];
      if k < |p| {
        NoMarkInPair(keys[0], cells[0], rest, k);
      } else {
        NoMarkInTail(keys[1..], cells[1..], k - |p|);
        assert s[k..] == rest[k - |p|..];
      }
    }
    LastMarkIs(t, |payload|, |t|);
  }

  lemma StartsWithMark(c: Cell, rest: string)
    ensures MarkAt("," + Pair("payload_hash", Render(c)) + rest, 0)
  {
    hide Render, Body;
    KeysPlain();
    PlainBody("payload_hash");
    var x, tail := "," + Pair("payload_hash", Render(c)) + rest, Render(c) + rest;
    assert x == MARK + tail;
    assert x[0..] == x && x[..|MARK|] == MARK;
  }

  lemma AssembleUndo(ev: Event)
    ensures Assemble(CellsBefore(ev), PayloadText(ev), CellsAfter(ev)) == Hashed(ev)
  {
    hide Iso, ReadIso;
    IsoUndo(ev.occurredAt);
    IsoUndo(ev.ingestedAt);
  }

  /** Reading finds the cells and the payload that were printed. */
  lemma ReadPartsUndo(ev: Event)
    ensures ReadParts(Canonical(ev)) == Some(Parts(CellsBefore(ev), PayloadText(ev), CellsAfter(ev)))
  {
    hide Tail, Quote, ReadPairs, LastMark, Skip, CellsBefore, CellsAfter, PayloadText;
    var before, after := CellsBefore(ev), CellsAfter(ev);
    var payload := PayloadText(ev);
    var key := "," + Quote(Core, "payload") + ":";
    var t := payload + (Tail(KEYS_AFTER, after) + "}");
    var text := Canonical(ev);
    assert key + t != "" && Stops(key + t);
    TailComma(KEYS_BEFORE, before);
    assert "," + text[1..] == Tail(KEYS_BEFORE, before) + (key + t);
    ReadPairsUndo(KEYS_BEFORE, before, key + t);
    SkipPrefix(key, t);
    PayloadEnds(payload, after);
    assert t[|payload|..] == Tail(KEYS_AFTER, after) + "}" && t[..|payload|] == payload;
    ReadPairsUndo(KEYS_AFTER, after, "}");
  }

  /** The canonical text determines every hashed field: it is read back to exactly what was hashed. */
  lemma ReadUndoesCanonical(ev: Event)
    ensures ReadEvent(Canonical(ev)) == Some(Hashed(ev))
  {
    hide Canonical, ReadParts, Assemble, CellsBefore, CellsAfter, PayloadText, Hashed;
    ReadPartsUndo(ev);
    AssembleUndo(ev);
  }

  lemma TailComma(keys: seq<string>, cells: seq<Cell>)
    requires |keys| == |cells| && keys != []
    ensures Tail(keys, cells) == "," + Tail(keys, cells)[1..]
  {
  }

  lemma CanonicalHashed(ev: Event)
    ensures Canonical(Hashed(ev)) == Canonical(ev)
  {
    hide Tail, Pair;
  }

  /** Two events have the same canonical text exactly when they agree on every hashed field. */
  lemma CanonicalInjective(a: Event, b: Event)
    ensures Canonical(a) == Canonical(b) <==> Hashed(a) == Hashed(b)
  {
    hide Canonical, Hashed, ReadEvent;
    ReadUndoesCanonical(a);
    ReadUndoesCanonical(b);
    CanonicalHashed(a);
    CanonicalHashed(b);
  }

  const KEYS: seq<string> := KEYS_BEFORE + ["payload"] + KEYS_AFTER

  /** Where each key first differs from the next. */
  const SPLITS: seq<nat> := [0, 1, 6, 0, 1, 0, 1, 0, 2, 7, 8, 1, 2, 0, 0, 1, 1, 6, 0]

  lemma KeyStep(k: nat)
    requires k < |KEYS| - 1
    ensures |SPLITS| == |KEYS| - 1 && Less(KEYS[k], KEYS[k + 1])
  {
    LessAt(KEYS[k], KEYS[k + 1], SPLITS[k]);
  }

  /** The twenty keys are in alphabetical order, as a sorted-key encoder would put them. */
  lemma KeysAlphabetical()
    ensures Ascending(KEYS)
  {
    forall k | 0 <= k < |KEYS| - 1 ensures Less(KEYS[k], KEYS[k + 1]) {
      KeyStep(k);
    }
    forall i, j | 0 <= i < j < |KEYS| ensures Less(KEYS[i], KEYS[j]) {
      AscendingSteps(KEYS, i, j);
    }
  }

  // ---- what stands under each key ----

  lemma {:induction false} NamedAt(keys: seq<string>, cells: seq<Cell>, i: nat)
    requires |keys| == |cells| && i < |keys| && forall j :: 0 <= j < i ==> keys[j] != keys[i]
    ensures Named(keys, cells, keys[i]) == Some(cells[i])
  {
    if i > 0 { NamedAt(keys[1..], cells[1..], i - 1); }
  }

  lemma {:induction false} NamedNot(keys: seq<string>, cells: seq<Cell>, key: string)
    requires |keys| == |cells| && forall j :: 0 <= j < |keys| ==> keys[j] != key
    ensures Named(keys, cells, key) == None
  {
    if keys != [] { NamedNot(keys[1..], cells[1..], key); }
  }

  lemma KeysDiffer(i: nat, j: nat)
    requires i < j < |KEYS|
    ensures KEYS[i] != KEYS[j]
  {
    KeysAlphabetical();
    LessTotal(KEYS[i], KEYS[i]);
  }

  lemma FieldBefore(ev: Event, i: nat)
    requires i < |KEYS_BEFORE|
    ensures ReadField(Canonical(ev), KEYS_BEFORE[i]) == Some(CellsBefore(ev)[i])
  {
    hide Canonical, ReadParts, CellsBefore, CellsAfter, PayloadText;
    ReadPartsUndo(ev);
    forall j | 0 <= j < i ensures KEYS_BEFORE[j] != KEYS_BEFORE[i] {
      assert KEYS[j] == KEYS_BEFORE[j] && KEYS[i] == KEYS_BEFORE[i];
      KeysDiffer(j, i);
    }
    NamedAt(KEYS_BEFORE, CellsBefore(ev), i);
  }

  lemma FieldAfter(ev: Event, i: nat)
    requires i < |KEYS_AFTER|
    ensures ReadField(Canonical(ev), KEYS_AFTER[i]) == Some(CellsAfter(ev)[i])
  {
    hide Canonical, ReadParts, CellsBefore, CellsAfter, PayloadText;
    ReadPartsUndo(ev);
    var n := |KEYS_BEFORE| + 1;
    assert KEYS[n + i] == KEYS_AFTER[i];
    forall j | 0 <= j < |KEYS_BEFORE| ensures KEYS_BEFORE[j] != KEYS_AFTER[i] {
      assert KEYS[j] == KEYS_BEFORE[j];
      KeysDiffer(j, n + i);
    }
    forall j | 0 <= j < i ensures KEYS_AFTER[j] != KEYS_AFTER[i] {
      assert KEYS[n + j] == KEYS_AFTER[j];
      KeysDiffer(n + j, n + i);
    }
    NamedNot(KEYS_BEFORE, CellsBefore(ev), KEYS_AFTER[i]);
    NamedAt(KEYS_AFTER, CellsAfter(ev), i);
  }

  /** Quoted whatever it is. */
  predicate Quotes(text: string, key: string, value: string) {
    ReadField(text, key) == Some(Text(value))
  }

  /** Bare null when empty, and quoted otherwise. */
  predicate QuotesOrNull(text: string, key: string, value: string) {
    ReadField(text, key) == Some(if value == "" then Null else Text(value))
  }

  /**
    What stands under each of the nineteen keys: seven fields are null when empty, the step index is null when negative, the
    actor is null when it has neither type nor id, and all else is quoted even when empty.
   */
  lemma FieldsExact(ev: Event)
    ensures var t := Canonical(ev);
      && Quotes(t, "environment", ev.environment) && Quotes(t, "event_id", ev.eventId) && Quotes(t, "event_type", ev.eventType)
      && Quotes(t, "org_id", ev.orgId) && Quotes(t, "project_id", ev.projectId) && Quotes(t, "run_id", ev.runId)
      && Quotes(t, "payload_mode", ev.payloadMode) && Quotes(t, "schema_version", ev.schemaVersion)
      && Quotes(t, "ingested_at", Iso(ev.ingestedAt)) && Quotes(t, "occurred_at", Iso(ev.occurredAt))
      && QuotesOrNull(t, "idempotency_key", ev.idempotencyKey) && QuotesOrNull(t, "parent_span_id", ev.parentSpanId)
      && QuotesOrNull(t, "payload_hash", ev.payloadHash) && QuotesOrNull(t, "previous_event_hash", ev.previousEventHash)
      && QuotesOrNull(t, "span_id", ev.spanId) && QuotesOrNull(t, "step_id", ev.stepId) && QuotesOrNull(t, "trace_id", ev.traceId)
      && ReadField(t, "step_index") == Some(if ev.stepIndex < 0 then Null else Number(ev.stepIndex))
      && ReadField(t, "actor") == Some(if ev.actorType == "" == ev.actorId then Null else Actor(ev.actorId, ev.actorType))
  {
    hide Canonical, ReadField, Iso;
    FieldBefore(ev, 0);
    FieldBefore(ev, 1);
    FieldBefore(ev, 2);
    FieldBefore(ev, 3);
    FieldBefore(ev, 4);
    FieldBefore(ev, 5);
    FieldBefore(ev, 6);
    FieldBefore(ev, 7);
    FieldBefore(ev, 8);
    FieldAfter(ev, 0);
    FieldAfter(ev, 1);
    FieldAfter(ev, 2);
    FieldAfter(ev, 3);
    FieldAfter(ev, 4);
    FieldAfter(ev, 5);
    FieldAfter(ev, 6);
    FieldAfter(ev, 7);
    FieldAfter(ev, 8);
    FieldAfter(ev, 9);
  }
}
