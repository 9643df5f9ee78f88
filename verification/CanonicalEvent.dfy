/** The canonical text an event hash is computed over (canonical_json_event in core/src/hash_chain.cpp). */
module CanonicalEvent {
  import opened Decimal
  import opened JsonText
  import opened Timestamp

  /** Empty strings stand for absent values, a negative step index for no index. */
  datatype Event = Event(
    sequence: nat, eventId: string, orgId: string, projectId: string, environment: string, runId: string,
    stepId: string, stepIndex: int, eventType: string, schemaVersion: string, actorType: string, actorId: string,
    traceId: string, spanId: string, parentSpanId: string, payloadMode: string, payload: string, payloadHash: string,
    previousEventHash: string, eventHash: string, occurredAt: nat, ingestedAt: nat, idempotencyKey: string)

  datatype Cell = Null | Text(s: string) | Number(n: nat) | Actor(id: string, kind: string)

  function Render(c: Cell): (s: string)
    ensures s != ""
  {
    match c
    case Null => "null"
    case Text(s) => Quote(Core, s)
    case Number(n) => Dec(n)
    case Actor(id, kind) => "{" + Quote(Core, "id") + ":" + Quote(Core, id) + "," + Quote(Core, "type") + ":" + Quote(Core, kind) + "}"
  }

  function Nullable(s: string): Cell {
    if s == "" then Null else Text(s)
  }

  const KEYS_BEFORE: seq<string> := [
    "actor", "environment", "event_id", "event_type", "idempotency_key", "ingested_at", "occurred_at", "org_id",
    "parent_span_id"]

  const KEYS_AFTER: seq<string> := [
    "payload_hash", "payload_mode", "previous_event_hash", "project_id", "run_id", "schema_version", "span_id",
    "step_id", "step_index", "trace_id"]

  function CellsBefore(ev: Event): (cells: seq<Cell>)
    ensures |cells| == |KEYS_BEFORE|
  {
    [if ev.actorType == "" && ev.actorId == "" then Null else Actor(ev.actorId, ev.actorType),
     Text(ev.environment), Text(ev.eventId), Text(ev.eventType), Nullable(ev.idempotencyKey),
     Text(Iso(ev.ingestedAt)), Text(Iso(ev.occurredAt)), Text(ev.orgId), Nullable(ev.parentSpanId)]
  }

  function CellsAfter(ev: Event): (cells: seq<Cell>)
    ensures |cells| == |KEYS_AFTER|
    ensures forall c :: c in cells ==> !c.Actor?
  {
    [Nullable(ev.payloadHash), Text(ev.payloadMode), Nullable(ev.previousEventHash), Text(ev.projectId),
     Text(ev.runId), Text(ev.schemaVersion), Nullable(ev.spanId), Nullable(ev.stepId),
     if ev.stepIndex < 0 then Null else Number(ev.stepIndex), Nullable(ev.traceId)]
  }

  function PayloadText(ev: Event): string {
    if ev.payload == "" then "null" else ev.payload
  }

  function Pair(key: string, value: string): string {
    Quote(Core, key) + ":" + value
  }

  /** Key-value pairs, each after a comma. */
  function Tail(keys: seq<string>, cells: seq<Cell>): string
    requires |keys| == |cells|
  {
    if keys == [] then "" else "," + Pair(keys[0], Render(cells[0])) + Tail(keys[1..], cells[1..])
  }

  /** Twenty pairs between braces, keys in alphabetical order; the payload is inserted as it is. */
  function Canonical(ev: Event): string {
    "{" + Tail(KEYS_BEFORE, CellsBefore(ev))[1..] + "," + Pair("payload", PayloadText(ev))
    + Tail(KEYS_AFTER, CellsAfter(ev)) + "}"
  }

  /** What the canonical text keeps of an event. */
  function Hashed(ev: Event): Event {
    ev.(sequence := 0, eventHash := "", payload := if ev.payload == "null" then "" else ev.payload,
        stepIndex := if ev.stepIndex < 0 then -1 else ev.stepIndex)
  }

  // ---- the printer ----

  function Join(pairs: seq<string>): string {
    if pairs == [] then ""
    else if |pairs| == 1 then pairs[0]
    else Join(pairs[..|pairs| - 1]) + "," + pairs[|pairs| - 1]
  }

  function RenderPairs(keys: seq<string>, cells: seq<Cell>): (pairs: seq<string>)
    requires |keys| == |cells|
    ensures |pairs| == |keys|
    ensures forall i :: 0 <= i < |keys| ==> pairs[i] == Pair(keys[i], Render(cells[i]))
  {
    seq(|keys|, i requires 0 <= i < |keys| => Pair(keys[i], Render(cells[i])))
  }

  lemma {:induction false} JoinTail(pairs: seq<string>, keys: seq<string>, cells: seq<Cell>)
    requires |keys| == |cells| && pairs != []
    ensures Join(pairs + RenderPairs(keys, cells)) == Join(pairs) + Tail(keys, cells)
    decreases |keys|
  {
    hide *;
    if keys == [] {
      PairsStep(pairs, keys, cells);
    } else {
      var p := Pair(keys[0], Render(cells[0]));
      PairsStep(pairs, keys, cells);
      JoinSnoc(pairs, p);
      JoinTail(pairs + [p], keys[1..], cells[1..]);
      assert Join(pairs) + "," + p + Tail(keys[1..], cells[1..]) == Join(pairs) + ("," + p + Tail(keys[1..], cells[1..]));
    }
  }

  lemma PairsStep(pairs: seq<string>, keys: seq<string>, cells: seq<Cell>)
    requires |keys| == |cells|
    ensures keys == [] ==> pairs + RenderPairs(keys, cells) == pairs && Tail(keys, cells) == ""
    ensures keys != [] ==>
      var p := Pair(keys[0], Render(cells[0]));
      && pairs + RenderPairs(keys, cells) == (pairs + [p]) + RenderPairs(keys[1..], cells[1..])
      && Tail(keys, cells) == "," + p + Tail(keys[1..], cells[1..])
  {
    hide Pair, Render;
  }

  lemma JoinSnoc(pairs: seq<string>, p: string)
    requires pairs != []
    ensures Join(pairs + [p]) == Join(pairs) + "," + p
  {
    assert (pairs + [p])[..|pairs|] == pairs;
  }

  lemma JoinOne(p: string)
    ensures Join([p]) == p
  {
  }

  lemma JoinAll(ev: Event)
    ensures var before, after := RenderPairs(KEYS_BEFORE, CellsBefore(ev)), RenderPairs(KEYS_AFTER, CellsAfter(ev));
      "{" + Join(before + [Pair("payload", PayloadText(ev))] + after) + "}" == Canonical(ev)
  {
    hide Quote, Iso, Pair, PayloadText, CellsBefore, CellsAfter, Join, Render, RenderPairs;
    var keys, cells := KEYS_BEFORE, CellsBefore(ev);
    var first, p := Pair(keys[0], Render(cells[0])), Pair("payload", PayloadText(ev));
    var before := RenderPairs(keys, cells);
    assert before == [first] + RenderPairs(keys[1..], cells[1..]);
    JoinTail([first], keys[1..], cells[1..]);
    assert Tail(keys, cells)[1..] == first + Tail(keys[1..], cells[1..]);
    JoinOne(first);
    JoinSnoc(before, p);
    JoinTail(before + [p], KEYS_AFTER, CellsAfter(ev));
  }

  function KvNullable(key: string, v: string): string {
    if v == "" then Pair(key, "null") else Pair(key, Quote(Core, v))
  }

  /** Collect the pairs up to the payload. */
  method PairsBefore(ev: Event) returns (pairs: seq<string>)
    ensures pairs == RenderPairs(KEYS_BEFORE, CellsBefore(ev))
  {
    hide Quote, Iso;
    if ev.actorType == "" && ev.actorId == "" {
      pairs := [Pair("actor", "null")];
    } else {
      pairs := [Pair("actor", "{" + Quote(Core, "id") + ":" + Quote(Core, ev.actorId) + ","
        + Quote(Core, "type") + ":" + Quote(Core, ev.actorType) + "}")];
    }
    hide Pair;
    pairs := pairs + [Pair("environment", Quote(Core, ev.environment))];
    pairs := pairs + [Pair("event_id", Quote(Core, ev.eventId))];
    pairs := pairs + [Pair("event_type", Quote(Core, ev.eventType))];
    pairs := pairs + [KvNullable("idempotency_key", ev.idempotencyKey)];
    pairs := pairs + [Pair("ingested_at", Quote(Core, Iso(ev.ingestedAt)))];
    pairs := pairs + [Pair("occurred_at", Quote(Core, Iso(ev.occurredAt)))];
    pairs := pairs + [Pair("org_id", Quote(Core, ev.orgId))];
    pairs := pairs + [KvNullable("parent_span_id", ev.parentSpanId)];
  }

  /** The ten pairs one after another. */
  lemma RenderedAfter(ev: Event)
    ensures RenderPairs(KEYS_AFTER, CellsAfter(ev)) == [
      KvNullable("payload_hash", ev.payloadHash), Pair("payload_mode", Quote(Core, ev.payloadMode)),
      KvNullable("previous_event_hash", ev.previousEventHash), Pair("project_id", Quote(Core, ev.projectId)),
      Pair("run_id", Quote(Core, ev.runId)), Pair("schema_version", Quote(Core, ev.schemaVersion)),
      KvNullable("span_id", ev.spanId), KvNullable("step_id", ev.stepId),
      Pair("step_index", if ev.stepIndex < 0 then "null" else Dec(ev.stepIndex)), KvNullable("trace_id", ev.traceId)]
  {
    hide Quote, Dec, Pair;
  }

  /** The pairs that follow the payload. */
  method PairsAfter(ev: Event) returns (pairs: seq<string>)
    ensures pairs == RenderPairs(KEYS_AFTER, CellsAfter(ev))
  {
    hide Quote, Dec, Pair, Render, KvNullable, RenderPairs, CellsAfter;
    RenderedAfter(ev);
    pairs := [KvNullable("payload_hash", ev.payloadHash)];
    pairs := pairs + [Pair("payload_mode", Quote(Core, ev.payloadMode))];
    pairs := pairs + [KvNullable("previous_event_hash", ev.previousEventHash)];
    pairs := pairs + [Pair("project_id", Quote(Core, ev.projectId))];
    pairs := pairs + [Pair("run_id", Quote(Core, ev.runId))];
    pairs := pairs + [Pair("schema_version", Quote(Core, ev.schemaVersion))];
    pairs := pairs + [KvNullable("span_id", ev.spanId)];
    pairs := pairs + [KvNullable("step_id", ev.stepId)];
    if ev.stepIndex < 0 {
      pairs := pairs + [Pair("step_index", "null")];
    } else {
      pairs := pairs + [Pair("step_index", Dec(ev.stepIndex))];
    }
    pairs := pairs + [KvNullable("trace_id", ev.traceId)];
  }

  /** Collect all pairs, then join them between braces. */
  method CanonicalJsonEvent(ev: Event) returns (result: string)
    ensures result == Canonical(ev)
  {
    hide Canonical, Pair, RenderPairs, CellsBefore, CellsAfter, Join;
    var pairs := PairsBefore(ev);
    if ev.payload == "" || ev.payload == "null" {
      pairs := pairs + [Pair("payload", "null")];
    } else {
      pairs := pairs + [Pair("payload", ev.payload)];
    }
    var more := PairsAfter(ev);
    JoinAll(ev);
    result := JoinPairs(pairs + more);
    result := "{" + result + "}";
  }

  /** The final loop: a comma before every pair but the first. */
  method JoinPairs(pairs: seq<string>) returns (result: string)
    ensures result == Join(pairs)
  {
    result := "";
    for i := 0 to |pairs|
      invariant result == Join(pairs[..i])
    {
      assert pairs[..i + 1][..i] == pairs[..i];
      if i > 0 { result := result + ","; }
      result := result + pairs[i];
    }
    assert pairs[..|pairs|] == pairs;
  }
}
