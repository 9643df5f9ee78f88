/**
  The collector's side of event delivery: deduplicate by key, chain, store, verify
  (services/collector/controldb_collector/ingest.py). One run's rows; keys of other runs are kept apart.
 */
module Ingest {
  import opened Common

  /** A time as written down: the wall clock and the offset of its zone. */
  datatype Stamp = Stamp(wall: int, offset: int)

  /**
    What the client sends: its event and the key it is deduplicated by. The actor is the posted dictionary, or the run's
    agent when none was posted.
   */
  datatype Sent = Sent(eventId: string, step: nat, kind: string, body: string, key: string,
                       actor: map<string, Option<string>>, occurredAt: Stamp)

  /** The hashed envelope. */
  datatype Envelope = Envelope(sent: Sent, ingestedAt: nat, previous: Option<string>)

  /** A stored event: `sent` is what its columns keep of the event sent. */
  datatype Row = Row(sent: Sent, ingestedAt: nat, previous: Option<string>, hash: string)

  /** The hash of an envelope; any function. */
  type Digest = Envelope -> string

  type Clock = nat -> nat

  /** An event id and hash stored under a key. */
  datatype Receipt = Receipt(eventId: string, hash: string)

  /** A run's rows, its recorded head and its status. */
  datatype Table = Table(rows: seq<Row>, lastHash: Option<string>, status: string)

  function Get(d: map<string, Option<string>>, key: string): Option<string> {
    if key in d then d[key] else None
  }

  /** What a row keeps of an event: of the actor two columns, of the time the wall clock, read back as UTC. */
  function Columns(sent: Sent): Sent {
    sent.(actor := map["type" := Get(sent.actor, "type"), "id" := Get(sent.actor, "id")],
          occurredAt := Stamp(sent.occurredAt.wall, 0))
  }

  /** The envelope verification puts together again from a row. */
  function Rebuild(row: Row): Envelope {
    Envelope(row.sent, row.ingestedAt, row.previous)
  }

  /** State-change events set the run's status when they are stored. */
  function StatusAfter(status: string, kind: string): string {
    if kind == "agent_run.started" then "running"
    else if kind == "agent_run.requires_approval" then "requires_approval"
    else if kind == "agent_run.committed" then "committed"
    else if kind == "agent_run.rolled_back" then "rolled_back"
    else if kind == "agent_run.failed" then "failed"
    else status
  }

  /** The status after the rows in order. */
  function StatusOfRows(rows: seq<Row>): string {
    if rows == [] then "running" else StatusAfter(StatusOfRows(rows[..|rows| - 1]), rows[|rows| - 1].sent.kind)
  }

  /** The first stored row, of this run or another, with the key. */
  function Find(rows: seq<Row>, foreign: map<string, Receipt>, key: string): Option<Receipt> {
    if rows == [] then (if key in foreign then Some(foreign[key]) else None)
    else if rows[0].sent.key == key then Some(Receipt(rows[0].sent.eventId, rows[0].hash))
    else Find(rows[1..], foreign, key)
  }

  function NewRow(digest: Digest, sent: Sent, now: nat, previous: Option<string>): Row {
    Row(Columns(sent), now, previous, digest(Envelope(sent, now, previous)))
  }

  /** One event: a known key only moves the previous hash to that row's. */
  function Persist(digest: Digest, foreign: map<string, Receipt>, t: Table, sent: Sent, now: nat): Table {
    var existing := if sent.key == "" then None else Find(t.rows, foreign, sent.key);
    if existing.Some? then t.(lastHash := Some(existing.value.hash))
    else
      var row := NewRow(digest, sent, now, t.lastHash);
      Table(t.rows + [row], Some(row.hash), StatusAfter(t.status, sent.kind))
  }

  /** The id answered for one event: the stored one's when the key is known. */
  function IdOf(foreign: map<string, Receipt>, t: Table, sent: Sent): string {
    var existing := if sent.key == "" then None else Find(t.rows, foreign, sent.key);
    if existing.Some? then existing.value.eventId else sent.eventId
  }

  /** A batch in order, all or nothing: an unknown event type undoes it. */
  function Absorb(digest: Digest, types: set<string>, foreign: map<string, Receipt>, t: Table, events: seq<Sent>, clock: Clock)
    : Option<Table>
  {
    if events == [] then Some(t)
    else
      var n := |events| - 1;
      var before := Absorb(digest, types, foreign, t, events[..n], clock);
      if before.None? || events[n].kind !in types then None
      else Some(Persist(digest, foreign, before.value, events[n], clock(n)))
  }

  /** The ids answered for a batch that is taken. */
  function Accepted(digest: Digest, types: set<string>, foreign: map<string, Receipt>, t: Table, events: seq<Sent>, clock: Clock)
    : (ids: seq<string>)
    requires Absorb(digest, types, foreign, t, events, clock).Some?
    ensures |ids| == |events|
  {
    if events == [] then []
    else
      var n := |events| - 1;
      Accepted(digest, types, foreign, t, events[..n], clock)
      + [IdOf(foreign, Absorb(digest, types, foreign, t, events[..n], clock).value, events[n])]
  }

  function SentOf(rows: seq<Row>): (s: seq<Sent>)
    ensures |s| == |rows|
    ensures forall i :: 0 <= i < |rows| ==> s[i] == rows[i].sent
  {
    seq(|rows|, i requires 0 <= i < |rows| => rows[i].sent)
  }

  function HeadOf(rows: seq<Row>): Option<string> {
    if rows == [] then None else Some(rows[|rows| - 1].hash)
  }

  ghost predicate GoodRow(digest: Digest, rows: seq<Row>, i: nat)
    requires i < |rows|
  {
    rows[i].previous == HeadOf(rows[..i]) && rows[i].hash == digest(Rebuild(rows[i]))
  }

  ghost predicate ValidChain(digest: Digest, rows: seq<Row>) {
    forall i :: 0 <= i < |rows| ==> GoodRow(digest, rows, i)
  }

  class Collector {
    const digest: Digest
    const types: set<string>
    var rows: seq<Row>
    var lastHash: Option<string>
    var status: string
    var foreign: map<string, Receipt>

    function View(): Table
      reads this
    {
      Table(rows, lastHash, status)
    }

    constructor (digest: Digest, types: set<string>, foreign: map<string, Receipt>)
      ensures this.digest == digest && this.types == types && this.foreign == foreign && View() == Table([], None, "running")
    {
      this.digest, this.types, this.foreign, rows, lastHash, status := digest, types, foreign, [], None, "running";
    }

    /** Another run's event is stored. */
    method StoreForeign(key: string, receipt: Receipt)
      modifies this`foreign
      ensures foreign == old(foreign)[key := receipt]
    {
      foreign := foreign[key := receipt];
    }

    method Lookup(key: string) returns (r: Option<Receipt>)
      ensures r == Find(rows, foreign, key)
    {
      assert rows[0..] == rows;
      for i := 0 to |rows|
        invariant Find(rows, foreign, key) == Find(rows[i..], foreign, key)
      {
        if rows[i].sent.key == key {
          return Some(Receipt(rows[i].sent.eventId, rows[i].hash));
        }
        assert rows[i..][1..] == rows[i + 1..];
      }
      r := if key in foreign then Some(foreign[key]) else None;
    }

    /** One transaction over the batch; on an unknown type it is rolled back. */
    method AppendEvents(events: seq<Sent>, clock: Clock) returns (ids: Option<seq<string>>)
      modifies this`rows, this`lastHash, this`status
      ensures var done := Absorb(digest, types, foreign, old(View()), events, clock);
        && (ids.None? <==> done.None?)
        && View() == (if done.Some? then done.value else old(View()))
        && (done.Some? ==> ids.value == Accepted(digest, types, foreign, old(View()), events, clock))
      ensures ids.Some? <==> forall i :: 0 <= i < |events| ==> events[i].kind in types
      ensures ids.None? ==> View() == old(View())
      ensures ids.Some? ==> exists answers :: BatchIs(digest, foreign, old(View()), events, clock, View(), ids.value, answers)
      ensures ids.Some? ==> |old(rows)| <= |rows| && StatusSaid(SentOf(rows[|old(rows)|..]), old(status), status)
    {
      hide Find, NewRow, StatusAfter, BatchIs, StatusSaid;
      TakenExactly(digest, types, foreign, View(), events, clock);
      if forall i :: 0 <= i < |events| ==> events[i].kind in types {
        ghost var answers := BatchExact(digest, types, foreign, View(), events, clock);
        BatchStatus(digest, types, foreign, View(), events, clock);
      }
      var before, statusBefore := rows, status;
      var accepted: seq<string> := [];
      var previous := lastHash;
      for i := 0 to |events|
        invariant |accepted| == i && lastHash == old(lastHash)
        invariant Absorb(digest, types, foreign, old(View()), events[..i], clock) == Some(Table(rows, previous, status))
        invariant accepted == Accepted(digest, types, foreign, old(View()), events[..i], clock)
      {
        assert events[..i + 1][..i] == events[..i];
        var event := events[i];
        if event.kind !in types {
          RejectStays(digest, types, foreign, old(View()), events, clock, i + 1);
          rows, status := before, statusBefore;
          return None;
        }
        var existing: Option<Receipt> := None;
        if event.key != "" { existing := Lookup(event.key); }
        if existing.Some? {
          accepted, previous := accepted + [existing.value.eventId], Some(existing.value.hash);
        } else {
          var row := NewRow(digest, event, clock(i), previous);
          rows, status := rows + [row], StatusAfter(status, event.kind);
          accepted, previous := accepted + [event.eventId], Some(row.hash);
        }
      }
      assert events[..|events|] == events;
      lastHash := previous;
      ids := Some(accepted);
    }

    /** The requests that end a run; its rows stay as they are. */
    method EndRun(newStatus: string)
      modifies this`status
      ensures status == newStatus
    {
      status := newStatus;
    }

    /** Verification accepts exactly the valid chains, and names the first bad row. */
    method Verify() returns (valid: bool, brokenAt: Option<string>)
      ensures valid <==> ValidChain(digest, rows)
      ensures brokenAt.None? <==> valid
      ensures !valid ==> exists k :: 0 <= k < |rows| && FirstBadRow(digest, rows, k) && brokenAt == Some(rows[k].sent.eventId)
    {
      var previous: Option<string> := None;
      for i := 0 to |rows|
        invariant previous == HeadOf(rows[..i])
        invariant forall j :: 0 <= j < i ==> GoodRow(digest, rows, j)
      {
        var row := rows[i];
        if row.previous != previous || digest(Rebuild(row)) != row.hash {
          assert FirstBadRow(digest, rows, i);
          return false, Some(row.sent.eventId);
        }
        previous := Some(row.hash);
      }
      valid, brokenAt := true, None;
    }
  }

  ghost predicate FirstBadRow(digest: Digest, rows: seq<Row>, k: nat)
    requires k < |rows|
  {
    !GoodRow(digest, rows, k) && forall j :: 0 <= j < k ==> GoodRow(digest, rows, j)
  }

  /** A batch with a rejected beginning is rejected. */
  lemma {:induction false} RejectStays(digest: Digest, types: set<string>, foreign: map<string, Receipt>, t: Table,
                                       events: seq<Sent>, clock: Clock, i: nat)
    requires i <= |events| && Absorb(digest, types, foreign, t, events[..i], clock).None?
    ensures Absorb(digest, types, foreign, t, events, clock).None?
    decreases |events|
  {
    if i < |events| {
      var front := events[..|events| - 1];
      assert front[..i] == events[..i];
      RejectStays(digest, types, foreign, t, front, clock, i);
    } else {
      assert events[..i] == events;
    }
  }

  // ---- replayed batches ----

  /** Rows of the first events, in order, chained, with the head recorded and the status they set. */
  ghost predicate Holds(digest: Digest, t: Table, emitted: seq<Sent>, n: nat) {
    && n <= |emitted| && SentOf(t.rows) == emitted[..n]
    && ValidChain(digest, t.rows) && t.lastHash == HeadOf(t.rows) && t.status == StatusOfRows(t.rows)
  }

  // ---- which events verify once stored ----

  /** The actor has a type, an id and nothing else, and the time is in UTC. */
  predicate StoredAsSent(sent: Sent) {
    sent.actor.Keys == {"type", "id"} && sent.occurredAt.offset == 0
  }

  /** A row keeps all of an event exactly if that is so; else it keeps the type and id, missing ones as null, and drops the rest. */
  lemma ColumnsExact(sent: Sent)
    ensures Columns(sent) == sent <==> StoredAsSent(sent)
    ensures Columns(sent).(actor := sent.actor, occurredAt := sent.occurredAt) == sent && StoredAsSent(Columns(sent))
    ensures Columns(sent).occurredAt.wall == sent.occurredAt.wall
    ensures forall k | k in {"type", "id"} ::
      k in Columns(sent).actor && Columns(sent).actor[k] == if k in sent.actor then sent.actor[k] else None
  {
    var d := Columns(sent).actor;
    assert d.Keys == {"type", "id"};
    if StoredAsSent(sent) {
      forall k | k in d ensures k in sent.actor && d[k] == sent.actor[k] {
        assert k == "type" || k == "id";
      }
      assert d == sent.actor;
    }
  }

  /**
    A new event keeps an intact chain valid exactly when its row keeps all of it, or the hash takes the rebuilt envelope
    and the hashed one, which then differ, to one value.
   */
  lemma NewEventVerifies(digest: Digest, foreign: map<string, Receipt>, t: Table, sent: Sent, now: nat)
    requires ValidChain(digest, t.rows) && t.lastHash == HeadOf(t.rows)
    requires sent.key == "" || Find(t.rows, foreign, sent.key).None?
    ensures var hashed, rebuilt := Envelope(sent, now, t.lastHash), Envelope(Columns(sent), now, t.lastHash);
      && (hashed == rebuilt <==> StoredAsSent(sent))
      && (ValidChain(digest, Persist(digest, foreign, t, sent, now).rows) <==>
            StoredAsSent(sent) || digest(hashed) == digest(rebuilt))
  {
    hide Columns, StoredAsSent;
    ColumnsExact(sent);
    var row := NewRow(digest, sent, now, t.lastHash);
    var all := t.rows + [row];
    assert all[..|t.rows|] == t.rows && all[|t.rows|] == row;
    if ValidChain(digest, all) { assert GoodRow(digest, all, |t.rows|); }
    if row.hash == digest(Rebuild(row)) { ChainSnoc(digest, t.rows, row); }
  }

  /** No two events share a key, no key is empty, no other run's event has one of them, and all are stored as sent. */
  ghost predicate OwnKeys(emitted: seq<Sent>, foreign: map<string, Receipt>) {
    && (forall i, j :: 0 <= i < j < |emitted| ==> emitted[i].key != emitted[j].key)
    && (forall i :: 0 <= i < |emitted| ==> emitted[i].key != "" && emitted[i].key !in foreign && StoredAsSent(emitted[i]))
  }

  lemma {:induction false} FindStored(rows: seq<Row>, foreign: map<string, Receipt>, k: nat)
    requires k < |rows| && forall i :: 0 <= i < k ==> rows[i].sent.key != rows[k].sent.key
    ensures Find(rows, foreign, rows[k].sent.key) == Some(Receipt(rows[k].sent.eventId, rows[k].hash))
  {
    if k > 0 { FindStored(rows[1..], foreign, k - 1); }
  }

  lemma {:induction false} FindNothing(rows: seq<Row>, foreign: map<string, Receipt>, key: string)
    requires key !in foreign && forall i :: 0 <= i < |rows| ==> rows[i].sent.key != key
    ensures Find(rows, foreign, key).None?
  {
    if rows != [] { FindNothing(rows[1..], foreign, key); }
  }

  lemma ChainSnoc(digest: Digest, rows: seq<Row>, row: Row)
    requires ValidChain(digest, rows) && row.previous == HeadOf(rows) && row.hash == digest(Rebuild(row))
    ensures ValidChain(digest, rows + [row])
  {
    var all := rows + [row];
    forall i | 0 <= i < |all| ensures GoodRow(digest, all, i) {
      assert all[..i] == rows[..i];
      assert i < |rows| ==> GoodRow(digest, rows, i);
      assert rows[..|rows|] == rows;
    }
  }

  /**
    Absorbing a run of emitted events that starts among the stored ones: replayed events move the previous hash
    along the stored rows, and from the head on new events are chained. When the run stops short of the head,
    the recorded head is left behind at the last replayed row.
   */
  lemma {:induction false} ReplayExtends(digest: Digest, types: set<string>, foreign: map<string, Receipt>, t: Table,
                                         emitted: seq<Sent>, n: nat, a: nat, b: nat, clock: Clock)
    requires Holds(digest, t, emitted, n) && OwnKeys(emitted, foreign) && a <= n && a <= b <= |emitted|
    requires forall i :: a <= i < b ==> emitted[i].kind in types
    ensures var done := Absorb(digest, types, foreign, t, emitted[a..b], clock);
      && done.Some? && t.rows <= done.value.rows
      && (b >= n ==> Holds(digest, done.value, emitted, b))
      && (a < b < n ==> done.value == t.(lastHash := Some(t.rows[b - 1].hash)))
      && (a == b ==> done.value == t)
    decreases b - a
  {
    hide Holds, OwnKeys, Persist, Absorb;
    if a == b {
      assert emitted[a..b] == [];
      AbsorbNone(digest, types, foreign, t, clock);
    } else {
      ReplayExtends(digest, types, foreign, t, emitted, n, a, b - 1, clock);
      AbsorbSnoc(digest, types, foreign, t, emitted[a..b - 1], emitted[b - 1], clock);
      assert emitted[a..b - 1] + [emitted[b - 1]] == emitted[a..b];
      var before := Absorb(digest, types, foreign, t, emitted[a..b - 1], clock).value;
      PersistNext(digest, foreign, t, before, emitted, n, b - 1, clock(b - 1 - a));
    }
  }

  lemma AbsorbNone(digest: Digest, types: set<string>, foreign: map<string, Receipt>, t: Table, clock: Clock)
    ensures Absorb(digest, types, foreign, t, [], clock) == Some(t)
  {
  }

  lemma AbsorbSnoc(digest: Digest, types: set<string>, foreign: map<string, Receipt>, t: Table, events: seq<Sent>, e: Sent, clock: Clock)
    requires Absorb(digest, types, foreign, t, events, clock).Some? && e.kind in types
    ensures Absorb(digest, types, foreign, t, events + [e], clock) ==
      Some(Persist(digest, foreign, Absorb(digest, types, foreign, t, events, clock).value, e, clock(|events|)))
  {
    hide Persist;
    assert (events + [e])[..|events|] == events;
  }

  lemma PersistNext(digest: Digest, foreign: map<string, Receipt>, t: Table, before: Table, emitted: seq<Sent>, n: nat, m: nat, now: nat)
    requires Holds(digest, t, emitted, n) && OwnKeys(emitted, foreign) && m < |emitted| && t.rows <= before.rows
    requires m >= n ==> Holds(digest, before, emitted, m)
    requires m < n ==> before.rows == t.rows && before.status == t.status
    ensures var after := Persist(digest, foreign, before, emitted[m], now);
      && t.rows <= after.rows
      && (m + 1 >= n ==> Holds(digest, after, emitted, m + 1))
      && (m + 1 < n ==> after == t.(lastHash := Some(t.rows[m].hash)))
  {
    hide Holds, OwnKeys, ValidChain, Columns, StoredAsSent, StatusAfter, StatusOfRows, SentOf, Find, HeadOf;
    var rows := before.rows;
    HoldsKeys(digest, t, emitted, n);
    KeysOwn(emitted, foreign, m);
    if m < n {
      FindStored(rows, foreign, m);
      ReplayedHead(digest, t, emitted, n);
    } else {
      HoldsKeys(digest, before, emitted, m);
      FindNothing(rows, foreign, emitted[m].key);
      ColumnsExact(emitted[m]);
      HoldsNext(digest, before, emitted, m, NewRow(digest, emitted[m], now, before.lastHash));
    }
  }

  lemma KeysOwn(emitted: seq<Sent>, foreign: map<string, Receipt>, m: nat)
    requires OwnKeys(emitted, foreign) && m < |emitted|
    ensures emitted[m].key != "" && emitted[m].key !in foreign && StoredAsSent(emitted[m])
    ensures forall i :: 0 <= i < |emitted| && i != m ==> emitted[i].key != emitted[m].key
  {
    hide StoredAsSent;
  }

  /** Replaying up to the last row leaves everything as it is. */
  lemma ReplayedHead(digest: Digest, t: Table, emitted: seq<Sent>, n: nat)
    requires Holds(digest, t, emitted, n)
    ensures n >= 1 && |t.rows| == n ==> t.(lastHash := Some(t.rows[n - 1].hash)) == t
  {
    hide ValidChain;
  }

  lemma HoldsNext(digest: Digest, t: Table, emitted: seq<Sent>, m: nat, row: Row)
    requires Holds(digest, t, emitted, m) && m < |emitted| && row.sent == emitted[m]
    requires row.previous == t.lastHash && row.hash == digest(Rebuild(row))
    ensures Holds(digest, Table(t.rows + [row], Some(row.hash), StatusAfter(t.status, row.sent.kind)), emitted, m + 1)
  {
    hide ValidChain, StatusAfter;
    HoldsKeys(digest, t, emitted, m);
    ChainSnoc(digest, t.rows, row);
    assert SentOf(t.rows + [row]) == emitted[..m + 1];
    assert (t.rows + [row])[..|t.rows|] == t.rows;
  }

  /**
    A batch processed after later events were stored leaves the recorded head at its own last row: the next new
    event then keeps the chain exactly when that row's hash is the true head.
   */
  lemma LateReplay(digest: Digest, types: set<string>, foreign: map<string, Receipt>, t: Table, emitted: seq<Sent>,
                   n: nat, a: nat, b: nat, clock: Clock, later: Clock)
    requires Holds(digest, t, emitted, n) && OwnKeys(emitted, foreign) && a < b < n < |emitted|
    requires forall i :: 0 <= i < |emitted| ==> emitted[i].kind in types
    ensures var late := Absorb(digest, types, foreign, t, emitted[a..b], clock);
      late.Some? && b <= |t.rows| && n == |t.rows| &&
      var next := Absorb(digest, types, foreign, late.value, [emitted[n]], later);
      next.Some? && (ValidChain(digest, next.value.rows) <==> t.rows[b - 1].hash == t.rows[n - 1].hash)
  {
    hide Absorb, Holds, OwnKeys, Columns, StoredAsSent, StatusAfter, Find, ValidChain;
    ReplayExtends(digest, types, foreign, t, emitted, n, a, b, clock);
    var late := Absorb(digest, types, foreign, t, emitted[a..b], clock).value;
    AbsorbNone(digest, types, foreign, late, later);
    AbsorbSnoc(digest, types, foreign, late, [], emitted[n], later);
    assert [] + [emitted[n]] == [emitted[n]];
    HoldsKeys(digest, t, emitted, n);
    KeysOwn(emitted, foreign, n);
    FindNothing(late.rows, foreign, emitted[n].key);
    ColumnsExact(emitted[n]);
    HoldsChain(digest, t, emitted, n);
    var row := NewRow(digest, emitted[n], later(0), late.lastHash);
    if ValidChain(digest, t.rows + [row]) { LastGood(digest, t.rows, row); }
    if t.rows[b - 1].hash == t.rows[n - 1].hash { ChainSnoc(digest, t.rows, row); }
  }

  lemma HoldsChain(digest: Digest, t: Table, emitted: seq<Sent>, n: nat)
    requires Holds(digest, t, emitted, n)
    ensures ValidChain(digest, t.rows) && t.lastHash == HeadOf(t.rows)
  {
    hide ValidChain;
  }

  lemma LastGood(digest: Digest, rows: seq<Row>, row: Row)
    requires ValidChain(digest, rows + [row])
    ensures row.previous == HeadOf(rows)
  {
    var all := rows + [row];
    assert all[..|rows|] == rows && all[|rows|] == row;
    assert GoodRow(digest, all, |rows|);
  }

  lemma HoldsKeys(digest: Digest, t: Table, emitted: seq<Sent>, n: nat)
    requires Holds(digest, t, emitted, n)
    ensures |t.rows| == n && forall i :: 0 <= i < n ==> t.rows[i].sent == emitted[i]
  {
    forall i | 0 <= i < n ensures t.rows[i].sent == emitted[i] {
      assert SentOf(t.rows)[i] == t.rows[i].sent;
    }
  }

  /** For a batch that starts among the stored events, the ids answered are the ids sent. */
  lemma {:induction false} AcceptedIds(digest: Digest, types: set<string>, foreign: map<string, Receipt>, t: Table,
                                       emitted: seq<Sent>, n: nat, a: nat, b: nat, clock: Clock)
    requires Holds(digest, t, emitted, n) && OwnKeys(emitted, foreign) && a <= n && a <= b <= |emitted|
    requires forall i :: a <= i < b ==> emitted[i].kind in types
    ensures Absorb(digest, types, foreign, t, emitted[a..b], clock).Some?
    ensures forall i :: 0 <= i < b - a ==> Accepted(digest, types, foreign, t, emitted[a..b], clock)[i] == emitted[a + i].eventId
    decreases b - a
  {
    hide Holds, OwnKeys, Absorb, IdOf;
    ReplayExtends(digest, types, foreign, t, emitted, n, a, b, clock);
    if a < b {
      AcceptedIds(digest, types, foreign, t, emitted, n, a, b - 1, clock);
      ReplayExtends(digest, types, foreign, t, emitted, n, a, b - 1, clock);
      var before := Absorb(digest, types, foreign, t, emitted[a..b - 1], clock).value;
      assert emitted[a..b][..b - 1 - a] == emitted[a..b - 1] && emitted[a..b][b - 1 - a] == emitted[b - 1];
      OwnId(digest, foreign, t, before, emitted, n, b - 1);
    }
  }

  lemma OwnId(digest: Digest, foreign: map<string, Receipt>, t: Table, before: Table, emitted: seq<Sent>, n: nat, m: nat)
    requires Holds(digest, t, emitted, n) && OwnKeys(emitted, foreign) && m < |emitted|
    requires m >= n ==> Holds(digest, before, emitted, m)
    requires m < n ==> before.rows == t.rows
    ensures IdOf(foreign, before, emitted[m]) == emitted[m].eventId
  {
    hide ValidChain;
    if m < n {
      HoldsKeys(digest, t, emitted, n);
      FindStored(before.rows, foreign, m);
    } else {
      HoldsKeys(digest, before, emitted, m);
      FindNothing(before.rows, foreign, emitted[m].key);
    }
  }

  // ---- what a batch does ----

  /** A batch is taken exactly when every type in it is known. */
  lemma {:induction false} TakenExactly(digest: Digest, types: set<string>, foreign: map<string, Receipt>, t: Table,
                                        events: seq<Sent>, clock: Clock)
    ensures Absorb(digest, types, foreign, t, events, clock).Some? <==> forall i :: 0 <= i < |events| ==> events[i].kind in types
    decreases |events|
  {
    hide Persist;
    if events != [] {
      var n := |events| - 1;
      TakenExactly(digest, types, foreign, t, events[..n], clock);
      assert forall i :: 0 <= i < n ==> events[..n][i] == events[i];
    }
  }

  /** The row of that number is the first with the key. */
  ghost predicate FirstWith(rows: seq<Row>, key: string, r: int) {
    0 <= r < |rows| && rows[r].sent.key == key && forall i :: 0 <= i < r ==> rows[i].sent.key != key
  }

  ghost predicate KeyIn(rows: seq<Row>, key: string) {
    exists i :: 0 <= i < |rows| && rows[i].sent.key == key
  }

  function ReceiptOf(row: Row): Receipt {
    Receipt(row.sent.eventId, row.hash)
  }

  /** A key is known exactly when a row or another run has it; the first row with it decides. */
  lemma {:induction false} FindExact(rows: seq<Row>, foreign: map<string, Receipt>, key: string)
    ensures Find(rows, foreign, key).Some? <==> KeyIn(rows, key) || key in foreign
    ensures forall r :: FirstWith(rows, key, r) ==> Find(rows, foreign, key) == Some(ReceiptOf(rows[r]))
    ensures !KeyIn(rows, key) && key in foreign ==> Find(rows, foreign, key) == Some(foreign[key])
  {
    if rows != [] {
      FindExact(rows[1..], foreign, key);
      if KeyIn(rows, key) && rows[0].sent.key != key {
        var i :| 0 <= i < |rows| && rows[i].sent.key == key;
        assert rows[1..][i - 1] == rows[i];
      }
      forall r | FirstWith(rows, key, r) ensures Find(rows, foreign, key) == Some(ReceiptOf(rows[r])) {
        if r > 0 { assert FirstWith(rows[1..], key, r - 1); }
      }
    }
  }

  /** A new row under a key nobody has answers for that key only. */
  lemma {:induction false} FindSnoc(rows: seq<Row>, foreign: map<string, Receipt>, row: Row, key: string)
    requires row.sent.key == key ==> Find(rows, foreign, key).None?
    ensures Find(rows + [row], foreign, key) ==
      if row.sent.key == key then Some(ReceiptOf(row)) else Find(rows, foreign, key)
  {
    if rows == [] {
      assert rows + [row] == [row];
    } else {
      FindSnoc(rows[1..], foreign, row, key);
      assert (rows + [row])[1..] == rows[1..] + [row];
    }
  }

  /** The event's key is empty, or no row, no other run and no earlier event of the batch has it. */
  ghost predicate New(rows: seq<Row>, foreign: map<string, Receipt>, events: seq<Sent>, i: nat)
    requires i < |events|
  {
    var key := events[i].key;
    key == "" || (!KeyIn(rows, key) && key !in foreign && forall j :: 0 <= j < i ==> events[j].key != key)
  }

  /** The numbers of the new events, in order. */
  ghost function NewOnes(rows: seq<Row>, foreign: map<string, Receipt>, events: seq<Sent>): (s: seq<nat>)
    ensures forall j :: 0 <= j < |s| ==> s[j] < |events| && New(rows, foreign, events, s[j])
    ensures forall j, k :: 0 <= j < k < |s| ==> s[j] < s[k]
    ensures forall i :: 0 <= i < |events| && New(rows, foreign, events, i) ==> i in s
  {
    if events == [] then []
    else
      var n := |events| - 1;
      var s := NewOnes(rows, foreign, events[..n]);
      assert forall i :: 0 <= i < n ==> (New(rows, foreign, events[..n], i) <==> New(rows, foreign, events, i));
      if New(rows, foreign, events, n) then s + [n] else s
  }

  /** The hash an event of a batch is chained to: that of the event before it, stored now or earlier. */
  ghost function Before(t: Table, answers: seq<Receipt>, i: nat): Option<string>
    requires i <= |answers|
  {
    if i == 0 then t.lastHash else Some(answers[i - 1].hash)
  }

  /** How an event of a batch is answered, in terms of what was stored and the answers before it. */
  ghost predicate AnswerIs(digest: Digest, foreign: map<string, Receipt>, t: Table, events: seq<Sent>, clock: Clock,
                           answers: seq<Receipt>, i: nat)
    requires i < |events| == |answers|
  {
    var e := events[i];
    && (New(t.rows, foreign, events, i) ==>
          answers[i] == Receipt(e.eventId, digest(Envelope(e, clock(i), Before(t, answers, i)))))
    && (e.key != "" ==>
          && (forall r :: FirstWith(t.rows, e.key, r) ==> answers[i] == ReceiptOf(t.rows[r]))
          && (!KeyIn(t.rows, e.key) && e.key in foreign ==> answers[i] == foreign[e.key])
          && (forall j :: 0 <= j < i && events[j].key == e.key ==> answers[i] == answers[j]))
  }

  /** The row of a new event: its columns, the clock reading, the hash it is chained to and its own. */
  ghost function RowOf(t: Table, events: seq<Sent>, clock: Clock, answers: seq<Receipt>, i: nat): Row
    requires i < |events| == |answers|
  {
    Row(Columns(events[i]), clock(i), Before(t, answers, i), answers[i].hash)
  }

  ghost function RowsOf(t: Table, events: seq<Sent>, clock: Clock, answers: seq<Receipt>, added: seq<nat>): (rows: seq<Row>)
    requires |answers| == |events| && forall j :: 0 <= j < |added| ==> added[j] < |events|
    ensures |rows| == |added| && forall j :: 0 <= j < |added| ==> rows[j] == RowOf(t, events, clock, answers, added[j])
  {
    seq(|added|, j requires 0 <= j < |added| => RowOf(t, events, clock, answers, added[j]))
  }

  /**
    What a batch does: every new event, and nothing else, is stored, in order; its row keeps its columns, the clock
    reading and the hash it was chained to; known events are answered by the row they have; the head is the last answer.
   */
  ghost predicate BatchIs(digest: Digest, foreign: map<string, Receipt>, t: Table, events: seq<Sent>, clock: Clock,
                          done: Table, ids: seq<string>, answers: seq<Receipt>)
  {
    && |answers| == |events| == |ids|
    && (forall i :: 0 <= i < |events| ==> AnswerIs(digest, foreign, t, events, clock, answers, i))
    && (forall i :: 0 <= i < |events| ==> ids[i] == answers[i].eventId)
    && done.rows == t.rows + RowsOf(t, events, clock, answers, NewOnes(t.rows, foreign, events))
    && done.lastHash == Before(t, answers, |events|)
  }

  /** Which keys are known after a batch, and under which answers. */
  ghost predicate Bound(foreign: map<string, Receipt>, t: Table, events: seq<Sent>, done: Table, answers: seq<Receipt>)
    requires |answers| == |events|
  {
    && (forall key :: key != "" && Find(t.rows, foreign, key).Some? ==> Find(done.rows, foreign, key) == Find(t.rows, foreign, key))
    && (forall j :: 0 <= j < |events| && events[j].key != "" ==> Find(done.rows, foreign, events[j].key) == Some(answers[j]))
    && (forall key :: key != "" && Find(t.rows, foreign, key).None? && (forall j :: 0 <= j < |events| ==> events[j].key != key)
          ==> Find(done.rows, foreign, key).None?)
  }

  lemma {:induction false} BatchExact(digest: Digest, types: set<string>, foreign: map<string, Receipt>, t: Table,
                                      events: seq<Sent>, clock: Clock) returns (answers: seq<Receipt>)
    requires Absorb(digest, types, foreign, t, events, clock).Some?
    ensures var done := Absorb(digest, types, foreign, t, events, clock).value;
      && BatchIs(digest, foreign, t, events, clock, done, Accepted(digest, types, foreign, t, events, clock), answers)
      && Bound(foreign, t, events, done, answers)
    decreases |events|
  {
    if events == [] {
      answers := [];
    } else {
      hide Find, Columns, Persist, IdOf, BatchIs, Bound;
      var n := |events| - 1;
      var front := BatchExact(digest, types, foreign, t, events[..n], clock);
      var before := Absorb(digest, types, foreign, t, events[..n], clock).value;
      var ids := Accepted(digest, types, foreign, t, events[..n], clock);
      answers := EventExact(digest, foreign, t, events, clock, before, ids, front);
    }
  }

  /** The table knows an event's key exactly when the event is not new. */
  lemma KnownExact(foreign: map<string, Receipt>, t: Table, events: seq<Sent>, before: Table, front: seq<Receipt>)
    requires events != [] && |front| == |events| - 1 && Bound(foreign, t, events[..|events| - 1], before, front)
    ensures var n := |events| - 1;
      New(t.rows, foreign, events, n) <==> events[n].key == "" || Find(before.rows, foreign, events[n].key).None?
  {
    hide Find;
    var n := |events| - 1;
    FindExact(t.rows, foreign, events[n].key);
    assert forall j :: 0 <= j < n ==> events[..n][j] == events[j];
  }

  lemma AnswersStay(digest: Digest, foreign: map<string, Receipt>, t: Table, events: seq<Sent>, clock: Clock,
                    front: seq<Receipt>, answer: Receipt)
    requires events != [] && |front| == |events| - 1
    requires forall i :: 0 <= i < |front| ==> AnswerIs(digest, foreign, t, events[..|front|], clock, front, i)
    ensures forall i :: 0 <= i < |front| ==> AnswerIs(digest, foreign, t, events, clock, front + [answer], i)
  {
    hide KeyIn, FirstWith;
    forall i | 0 <= i < |front| ensures AnswerIs(digest, foreign, t, events, clock, front + [answer], i) {
      assert AnswerIs(digest, foreign, t, events[..|front|], clock, front, i);
      assert forall j :: 0 <= j <= i ==> events[..|front|][j] == events[j] && (front + [answer])[j] == front[j];
    }
  }

  lemma {:induction false} EventExact(digest: Digest, foreign: map<string, Receipt>, t: Table, events: seq<Sent>, clock: Clock,
                                      before: Table, ids: seq<string>, front: seq<Receipt>)
    returns (answers: seq<Receipt>)
    requires events != [] && |front| == |events| - 1
    requires BatchIs(digest, foreign, t, events[..|events| - 1], clock, before, ids, front)
    requires Bound(foreign, t, events[..|events| - 1], before, front)
    ensures var n := |events| - 1; var done := Persist(digest, foreign, before, events[n], clock(n));
      && BatchIs(digest, foreign, t, events, clock, done, ids + [IdOf(foreign, before, events[n])], answers)
      && Bound(foreign, t, events, done, answers)
  {
    hide Find, Columns, KeyIn, FirstWith, AnswerIs, Bound, New, NewOnes;
    var n := |events| - 1;
    var e := events[n];
    KnownExact(foreign, t, events, before, front);
    if New(t.rows, foreign, events, n) {
      var row := NewRow(digest, e, clock(n), before.lastHash);
      answers := front + [Receipt(e.eventId, row.hash)];
      RowKeeps(digest, e, clock(n), before.lastHash);
      NewAnswer(digest, foreign, t, events, clock, answers);
      NewBound(foreign, t, events, before, front, row);
    } else {
      answers := front + [Find(before.rows, foreign, e.key).value];
      KnownAnswer(digest, foreign, t, events, clock, before, answers);
      KnownBound(foreign, t, events, before, front, answers[n]);
    }
    AnswersStay(digest, foreign, t, events, clock, front, answers[n]);
    var done := Persist(digest, foreign, before, e, clock(n));
    assert answers[..n] == front;
    BatchMore(digest, foreign, t, events, clock, before, ids, answers, done, IdOf(foreign, before, e));
  }

  /** One more event on top of a batch. */
  lemma BatchMore(digest: Digest, foreign: map<string, Receipt>, t: Table, events: seq<Sent>, clock: Clock,
                  before: Table, ids: seq<string>, answers: seq<Receipt>, done: Table, id: string)
    requires events != [] && |answers| == |events|
    requires BatchIs(digest, foreign, t, events[..|events| - 1], clock, before, ids, answers[..|events| - 1])
    requires forall i :: 0 <= i < |events| ==> AnswerIs(digest, foreign, t, events, clock, answers, i)
    requires done.rows == before.rows +
      if New(t.rows, foreign, events, |events| - 1) then [RowOf(t, events, clock, answers, |events| - 1)] else []
    requires done.lastHash == Some(answers[|events| - 1].hash) && id == answers[|events| - 1].eventId
    ensures BatchIs(digest, foreign, t, events, clock, done, ids + [id], answers)
  {
    hide AnswerIs, New, NewOnes, RowOf, RowsOf;
    NewSnoc(t.rows, foreign, events);
    RowsStay(t, events, clock, answers, NewOnes(t.rows, foreign, events[..|events| - 1]));
    var row := if New(t.rows, foreign, events, |events| - 1) then [|events| - 1] else [];
    RowsJoin(t, events, clock, answers, NewOnes(t.rows, foreign, events[..|events| - 1]), row);
  }

  lemma RowsJoin(t: Table, events: seq<Sent>, clock: Clock, answers: seq<Receipt>, added: seq<nat>, more: seq<nat>)
    requires |answers| == |events| && forall j :: 0 <= j < |added| ==> added[j] < |events|
    requires |more| <= 1 && forall j :: 0 <= j < |more| ==> more[j] < |events|
    ensures RowsOf(t, events, clock, answers, added + more) ==
      RowsOf(t, events, clock, answers, added) + if more == [] then [] else [RowOf(t, events, clock, answers, more[0])]
  {
    hide RowOf;
  }

  lemma NewSnoc(rows: seq<Row>, foreign: map<string, Receipt>, events: seq<Sent>)
    requires events != []
    ensures var n := |events| - 1;
      NewOnes(rows, foreign, events) == NewOnes(rows, foreign, events[..n]) + if New(rows, foreign, events, n) then [n] else []
  {
    hide New;
  }

  lemma RowsStay(t: Table, events: seq<Sent>, clock: Clock, answers: seq<Receipt>, added: seq<nat>)
    requires |events| == |answers| > 0 && forall j :: 0 <= j < |added| ==> added[j] < |events| - 1
    ensures RowsOf(t, events[..|events| - 1], clock, answers[..|events| - 1], added) == RowsOf(t, events, clock, answers, added)
  {
  }

  lemma NewAnswer(digest: Digest, foreign: map<string, Receipt>, t: Table, events: seq<Sent>, clock: Clock, answers: seq<Receipt>)
    requires events != [] && |answers| == |events| && New(t.rows, foreign, events, |events| - 1)
    requires var n := |events| - 1; var e := events[n];
      answers[n] == Receipt(e.eventId, digest(Envelope(e, clock(n), Before(t, answers, n))))
    ensures AnswerIs(digest, foreign, t, events, clock, answers, |events| - 1)
  {
    hide Before;
  }

  lemma KnownAnswer(digest: Digest, foreign: map<string, Receipt>, t: Table, events: seq<Sent>, clock: Clock,
                    before: Table, answers: seq<Receipt>)
    requires events != [] && |answers| == |events| && !New(t.rows, foreign, events, |events| - 1)
    requires Bound(foreign, t, events[..|events| - 1], before, answers[..|events| - 1])
    requires Find(before.rows, foreign, events[|events| - 1].key) == Some(answers[|events| - 1])
    ensures AnswerIs(digest, foreign, t, events, clock, answers, |events| - 1)
  {
    hide Find, Before;
    var n := |events| - 1;
    FindExact(t.rows, foreign, events[n].key);
    assert forall j :: 0 <= j < n ==> events[..n][j] == events[j] && answers[..n][j] == answers[j];
  }

  lemma KnownBound(foreign: map<string, Receipt>, t: Table, events: seq<Sent>, before: Table, front: seq<Receipt>, answer: Receipt)
    requires events != [] && |front| == |events| - 1 && Bound(foreign, t, events[..|events| - 1], before, front)
    requires events[|events| - 1].key != "" && Find(before.rows, foreign, events[|events| - 1].key) == Some(answer)
    ensures Bound(foreign, t, events, before.(lastHash := Some(answer.hash)), front + [answer])
  {
    hide Find;
    var n := |events| - 1;
    assert forall j :: 0 <= j < n ==> events[..n][j] == events[j] && (front + [answer])[j] == front[j];
  }

  lemma NewBound(foreign: map<string, Receipt>, t: Table, events: seq<Sent>, before: Table, front: seq<Receipt>, row: Row)
    requires events != [] && |front| == |events| - 1 && Bound(foreign, t, events[..|events| - 1], before, front)
    requires var e := events[|events| - 1];
      row.sent == Columns(e) && (e.key != "" ==> Find(before.rows, foreign, e.key).None?)
    ensures Bound(foreign, t, events, Table(before.rows + [row], Some(row.hash), StatusAfter(before.status, events[|events| - 1].kind)),
                  front + [ReceiptOf(row)])
  {
    hide Find, StatusAfter;
    var n := |events| - 1;
    assert forall j :: 0 <= j < n ==> events[..n][j] == events[j] && (front + [ReceiptOf(row)])[j] == front[j];
    forall key | key != "" ensures Find(before.rows + [row], foreign, key) ==
      if row.sent.key == key then Some(ReceiptOf(row)) else Find(before.rows, foreign, key)
    {
      FindSnoc(before.rows, foreign, row, key);
    }
  }

  // ---- the status a batch leaves ----

  predicate IsState(kind: string) {
    kind in {"agent_run.started", "agent_run.requires_approval", "agent_run.committed", "agent_run.rolled_back", "agent_run.failed"}
  }

  /** The status each of the five kinds stands for. */
  predicate Names(kind: string, status: string) {
    || (kind == "agent_run.started" && status == "running")
    || (kind == "agent_run.requires_approval" && status == "requires_approval")
    || (kind == "agent_run.committed" && status == "committed")
    || (kind == "agent_run.rolled_back" && status == "rolled_back")
    || (kind == "agent_run.failed" && status == "failed")
  }

  ghost predicate LastState(events: seq<Sent>, k: int) {
    0 <= k < |events| && IsState(events[k].kind) && forall j :: k < j < |events| ==> !IsState(events[j].kind)
  }

  /** The last event of the five kinds gives the status; without one it is the status before. */
  ghost predicate StatusSaid(events: seq<Sent>, before: string, status: string) {
    && (forall k :: LastState(events, k) ==> Names(events[k].kind, status))
    && ((forall j :: 0 <= j < |events| ==> !IsState(events[j].kind)) ==> status == before)
  }

  lemma StatusSnoc(events: seq<Sent>, e: Sent, before: string, status: string)
    requires StatusSaid(events, before, status)
    ensures StatusSaid(events + [e], before, StatusAfter(status, e.kind))
  {
    var all := events + [e];
    assert all[|events|] == e;
    KindDecides(status, e.kind);
    hide StatusAfter, IsState, Names;
    forall k | LastState(all, k) ensures Names(all[k].kind, StatusAfter(status, e.kind)) {
      if k < |events| {
        assert !IsState(all[|events|].kind);
        forall j | k < j < |events| ensures !IsState(events[j].kind) { assert all[j] == events[j]; }
        assert LastState(events, k);
      }
    }
    if forall j :: 0 <= j < |all| ==> !IsState(all[j].kind) {
      forall j | 0 <= j < |events| ensures !IsState(events[j].kind) { assert all[j] == events[j]; }
    }
  }

  lemma KindDecides(status: string, kind: string)
    ensures IsState(kind) ==> Names(kind, StatusAfter(status, kind))
    ensures !IsState(kind) ==> StatusAfter(status, kind) == status
  {
  }

  /** Only newly stored events move the status: the last of them that is of the five kinds decides. */
  lemma {:induction false} BatchStatus(digest: Digest, types: set<string>, foreign: map<string, Receipt>, t: Table,
                                       events: seq<Sent>, clock: Clock)
    requires Absorb(digest, types, foreign, t, events, clock).Some?
    ensures var done := Absorb(digest, types, foreign, t, events, clock).value;
      t.rows <= done.rows && StatusSaid(SentOf(done.rows[|t.rows|..]), t.status, done.status)
    decreases |events|
  {
    if events != [] {
      hide Find, NewRow, StatusSaid, StatusAfter, SentOf;
      var n := |events| - 1;
      BatchStatus(digest, types, foreign, t, events[..n], clock);
      var before := Absorb(digest, types, foreign, t, events[..n], clock).value;
      var said := SentOf(before.rows[|t.rows|..]);
      var row := NewRow(digest, events[n], clock(n), before.lastHash);
      RowKeeps(digest, events[n], clock(n), before.lastHash);
      StatusSnoc(said, row.sent, t.status, before.status);
      SentSnoc(before.rows[|t.rows|..], row);
      assert (before.rows + [row])[|t.rows|..] == before.rows[|t.rows|..] + [row];
    } else {
      assert t.rows[|t.rows|..] == [];
    }
  }

  lemma RowKeeps(digest: Digest, sent: Sent, now: nat, previous: Option<string>)
    ensures NewRow(digest, sent, now, previous).sent.kind == sent.kind
    ensures ReceiptOf(NewRow(digest, sent, now, previous)).eventId == sent.eventId
  {
  }

  /** The status of a run's rows is the one their last state change names. */
  lemma {:induction false} RowsStatus(rows: seq<Row>)
    ensures StatusSaid(SentOf(rows), "running", StatusOfRows(rows))
  {
    if rows == [] {
      assert SentOf(rows) == [];
    } else {
      hide StatusSaid, StatusAfter, SentOf;
      var front, row := rows[..|rows| - 1], rows[|rows| - 1];
      assert rows == front + [row];
      RowsStatus(front);
      StatusSnoc(SentOf(front), row.sent, "running", StatusOfRows(front));
      SentSnoc(front, row);
    }
  }

  lemma SentSnoc(rows: seq<Row>, row: Row)
    ensures SentOf(rows + [row]) == SentOf(rows) + [row.sent]
  {
  }
}
