/**
  What each operation of the event store does to runs and events, said field by field: which errors it gives, what status,
  times and metadata a run is left with, what is stored for each event of a batch and answered for it, and that
  other runs are left alone.
 */
module StoreEffects {
  import opened CanonicalEvent
  import opened HashChain
  import opened StoreInvariants
  import opened StoreRules

  // ---- runs ----

  /** A run is found under its own organisation and project; the error says which was wrong. */
  lemma FindExact(s: Store, runId: string, orgId: string, projectId: string)
    ensures var found := FindRun(s, runId, orgId, projectId);
      && (found == Err(NotFound) <==> runId !in s.runs)
      && (found == Err(Forbidden) <==> runId in s.runs && (s.runs[runId].orgId != orgId || s.runs[runId].projectId != projectId))
      && (found.Ok? ==> runId in s.runs && found.value == s.runs[runId])
  {
  }

  /** Only the run table changes. */
  predicate SameEvents(s: Store, s': Store) {
    && s'.events == s.events && s'.byRun == s.byRun && s'.byType == s.byType && s'.idem == s.idem
    && s'.savedSeq == s.savedSeq && s'.globalSeq == s.globalSeq
  }

  /** A new run is stored as given but for an absent time or status; an existing one is answered and left alone. */
  lemma StartExact(s: Store, run: AgentRun, now: nat)
    ensures var (s', r) := Start(s, run, now);
      && SameEvents(s, s') && run.runId in s'.runs && s'.runs[run.runId] == r
      && (run.runId in s.runs ==> s' == s)
      && (run.runId !in s.runs ==>
            && s'.runs == s.runs[run.runId := r] && r == run.(startedAt := r.startedAt, status := r.status)
            && (run.startedAt != 0 ==> r.startedAt == run.startedAt) && (run.startedAt == 0 ==> r.startedAt == now)
            && (run.status != "" ==> r.status == run.status) && (run.status == "" ==> r.status == "running"))
  {
  }

  /** Closed with the given status at the given time, and otherwise as it was. */
  predicate Closed(was: AgentRun, run: AgentRun, status: string, now: nat) {
    run.status == status && run.endedAt == now && run.(status := was.status, endedAt := was.endedAt) == was
  }

  /** A committed run has status "committed" and the time of the call; nothing else of it changes. */
  lemma CommitExact(s: Store, runId: string, orgId: string, projectId: string, now: nat)
    ensures var (s', res) := CommitRun(s, runId, orgId, projectId, now);
      && (res.Err? <==> FindRun(s, runId, orgId, projectId).Err?)
      && (res.Err? ==> s' == s && res.error == FindRun(s, runId, orgId, projectId).error)
      && (res.Ok? ==> runId in s.runs && SameEvents(s, s') && s'.runs == s.runs[runId := res.value])
      && (res.Ok? ==> Closed(s.runs[runId], res.value, "committed", now))
  {
  }

  /** A rolled-back run also gets its reason, when there is one and its metadata can hold it. */
  lemma RollbackExact(annotate: Annotate, s: Store, runId: string, orgId: string, projectId: string, reason: string, now: nat)
    ensures var (s', res) := RollbackRun(annotate, s, runId, orgId, projectId, reason, now);
      var found := FindRun(s, runId, orgId, projectId);
      && (res.Err? ==> s' == s)
      && (found.Err? ==> res == found)
      && (found.Ok? ==>
            var run := s.runs[runId];
            var meta := annotate(if run.metadata == "" then "{}" else run.metadata, reason);
            && (res.Err? <==> reason != "" && meta.Err?)
            && (res.Err? ==> res.error == meta.error)
            && (res.Ok? ==> SameEvents(s, s') && s'.runs == s.runs[runId := res.value])
            && (res.Ok? ==> Closed(run, res.value.(metadata := run.metadata), "rolled_back", now))
            && (res.Ok? && reason == "" ==> res.value.metadata == run.metadata)
            && (res.Ok? && reason != "" ==> meta.Ok? && res.value.metadata == meta.value))
  {
  }

  // ---- the status a batch leaves ----

  predicate StateEvent(kind: string) {
    kind == "agent_run.committed" || kind == "agent_run.failed" || kind == "agent_run.started"
  }

  predicate ClosingEvent(kind: string) {
    kind == "agent_run.committed" || kind == "agent_run.failed"
  }

  /** The last event of the batch that bears on the status. */
  ghost predicate LastState(events: seq<Event>, k: nat) {
    k < |events| && StateEvent(events[k].eventType) && forall j :: k < j < |events| ==> !StateEvent(events[j].eventType)
  }

  /** What an event of each kind says. */
  predicate Says(kind: string, status: string) {
    && (kind == "agent_run.committed" ==> status == "committed")
    && (kind == "agent_run.failed" ==> status == "failed")
    && (kind == "agent_run.started" ==> status == "running")
  }

  /** The last state event of the batch gives the status; without one it stays. */
  ghost predicate StatusFrom(events: seq<Event>, was: string, status: string) {
    && (forall k: nat :: LastState(events, k) ==> Says(events[k].eventType, status))
    && ((forall k :: 0 <= k < |events| ==> !StateEvent(events[k].eventType)) ==> status == was)
  }

  /** A closing event in the batch sets the closing time; without one it stays. */
  ghost predicate EndedFrom(events: seq<Event>, now: nat, was: nat, endedAt: nat) {
    && ((exists k :: 0 <= k < |events| && ClosingEvent(events[k].eventType)) ==> endedAt == now)
    && ((forall k :: 0 <= k < |events| ==> !ClosingEvent(events[k].eventType)) ==> endedAt == was)
  }

  /** The run's status and closing time after a batch, from the batch alone. */
  ghost predicate BatchStatus(events: seq<Event>, now: nat, was: AgentRun, run: AgentRun) {
    StatusFrom(events, was.status, run.status) && EndedFrom(events, now, was.endedAt, run.endedAt)
  }

  /** The last state event decides; duplicates bear on the status like new events. */
  lemma {:induction false} AdvanceExact(run: AgentRun, events: seq<Event>, now: nat)
    ensures var r := Advance(run, events, now);
      BatchStatus(events, now, run, r) && r == run.(status := r.status, endedAt := r.endedAt)
    decreases |events|
  {
    if events != [] {
      var n := |events| - 1;
      AdvanceExact(run, events[..n], now);
      var before, after := Advance(run, events[..n], now), Advance(run, events, now);
      AdvanceOne(before, events[n].eventType, after, run, events, now);
      hide Advance, StatusFrom, EndedFrom;
      StatusSnoc(events, run.status, before.status, after.status);
      EndedSnoc(events, now, run.endedAt, before.endedAt, after.endedAt);
    }
  }

  lemma AdvanceOne(before: AgentRun, kind: string, after: AgentRun, run: AgentRun, events: seq<Event>, now: nat)
    requires events != [] && events[|events| - 1].eventType == kind
    requires before == Advance(run, events[..|events| - 1], now) && after == Advance(run, events, now)
    ensures Says(kind, after.status) && (!StateEvent(kind) ==> after.status == before.status)
    ensures after.endedAt == if ClosingEvent(kind) then now else before.endedAt
    ensures after == before.(status := after.status, endedAt := after.endedAt)
  {
  }

  lemma StatusSnoc(events: seq<Event>, was: string, before: string, after: string)
    requires events != [] && StatusFrom(events[..|events| - 1], was, before)
    requires var kind := events[|events| - 1].eventType; Says(kind, after) && (!StateEvent(kind) ==> after == before)
    ensures StatusFrom(events, was, after)
  {
    hide Says, StateEvent;
    var n := |events| - 1;
    var front := events[..n];
    if StateEvent(events[n].eventType) {
      assert forall k: nat :: LastState(events, k) ==> k == n;
    } else {
      forall k: nat | LastState(events, k) ensures Says(events[k].eventType, after) {
        assert k != n && LastState(front, k);
      }
      assert forall k :: 0 <= k < n ==> front[k] == events[k];
    }
  }

  lemma EndedSnoc(events: seq<Event>, now: nat, was: nat, before: nat, after: nat)
    requires events != [] && EndedFrom(events[..|events| - 1], now, was, before)
    requires after == if ClosingEvent(events[|events| - 1].eventType) then now else before
    ensures EndedFrom(events, now, was, after)
  {
    hide ClosingEvent;
    var n := |events| - 1;
    var front := events[..n];
    assert forall k :: 0 <= k < n ==> front[k] == events[k];
    if exists k :: 0 <= k < n && ClosingEvent(events[k].eventType) {
      var k :| 0 <= k < n && ClosingEvent(events[k].eventType);
      assert ClosingEvent(front[k].eventType);
    }
  }

  // ---- what is stored of a batch ----

  /** How many events of the batch are not known. */
  function Unknown(idem: map<string, string>, events: seq<Event>): (n: nat)
    ensures n <= |events|
  {
    if events == [] then 0 else Unknown(idem, events[..|events| - 1]) + (if Known(idem, events[|events| - 1]) then 0 else 1)
  }

  /** The stored form of an event: what the store fills in, and everything else as sent. */
  ghost predicate StoredAs(sha: Digest, run: AgentRun, ev: Event, e: Event, number: nat, now: nat) {
    && e.sequence == number && e.ingestedAt == now
    && (ev.occurredAt == 0 ==> e.occurredAt == now) && (ev.occurredAt != 0 ==> e.occurredAt == ev.occurredAt)
    && e.orgId == run.orgId && e.projectId == run.projectId && e.runId == run.runId && e.environment == run.environment
    && (ev.schemaVersion == "" ==> e.schemaVersion == "2026-05-01") && (ev.schemaVersion != "" ==> e.schemaVersion == ev.schemaVersion)
    && (ev.payloadMode == "" ==> e.payloadMode == "metadata_only") && (ev.payloadMode != "" ==> e.payloadMode == ev.payloadMode)
    && e.eventHash == "sha256:" + sha(Canonical(e))
    && e.eventId == ev.eventId && e.stepId == ev.stepId && e.stepIndex == ev.stepIndex && e.eventType == ev.eventType
    && e.actorType == ev.actorType && e.actorId == ev.actorId && e.traceId == ev.traceId && e.spanId == ev.spanId
    && e.parentSpanId == ev.parentSpanId && e.payload == ev.payload && e.payloadHash == ev.payloadHash
    && e.idempotencyKey == ev.idempotencyKey
  }

  /** The text of an event does not hold its own hash. */
  lemma HashOutside(ev: Event, hash: string)
    ensures Canonical(ev.(eventHash := hash)) == Canonical(ev)
  {
  }

  lemma StampExact(sha: Digest, run: AgentRun, ev: Event, number: nat, now: nat, prev: string)
    ensures var e := Stamp(sha, run, ev, number, now, prev);
      StoredAs(sha, run, ev, e, number, now) && e.previousEventHash == prev
  {
    hide Canonical;
    var e := Stamp(sha, run, ev, number, now, prev);
    HashOutside(e, "");
    var f := ev.(
      sequence := number, ingestedAt := now, occurredAt := if ev.occurredAt == 0 then now else ev.occurredAt,
      orgId := run.orgId, projectId := run.projectId, runId := run.runId, environment := run.environment,
      schemaVersion := if ev.schemaVersion == "" then "2026-05-01" else ev.schemaVersion,
      payloadMode := if ev.payloadMode == "" then "metadata_only" else ev.payloadMode,
      previousEventHash := prev);
    HashOutside(f, e.eventHash);
  }

  /**
    Event i of a batch: when its key is known it is answered with what the key is bound to and nothing is stored; otherwise
    it is stored under the next number, with the clock's reading, and answered with its id and hash.
   */
  lemma {:induction false} BatchExact(sha: Digest, idem: map<string, string>, run: AgentRun, start: Pass, events: seq<Event>, clock: Clock, i: nat)
    requires start.added == [] && start.results == [] && i < |events|
    ensures var p, ev, n := Ingest(sha, idem, run, start, events, clock), events[i], Unknown(idem, events[..i]);
      && |p.results| == |events| && |p.added| == Unknown(idem, events) && p.last == start.last + |p.added|
      && (Known(idem, ev) ==>
            p.results[i] == Inserted(Lookup(idem, ev.idempotencyKey), Lookup(idem, ev.idempotencyKey + ":hash"), true))
      && (!Known(idem, ev) ==>
            && n < |p.added| && StoredAs(sha, run, ev, p.added[n], start.last + n + 1, clock(i))
            && p.results[i] == Inserted(ev.eventId, p.added[n].eventHash, false))
    decreases |events|
  {
    hide Stamp, StoredAs, Known, EventHash, Lookup;
    BatchSizes(sha, idem, run, start, events, clock);
    var last := |events| - 1;
    var front := events[..last];
    BatchSizes(sha, idem, run, start, front, clock);
    if i < last {
      BatchExact(sha, idem, run, start, front, clock, i);
      assert front[..i] == events[..i];
    } else {
      var before := Ingest(sha, idem, run, start, front, clock);
      StampExact(sha, run, events[last], before.last + 1, clock(last), before.prev);
      StampKeepsId(sha, run, events[last], before.last + 1, clock(last), before.prev);
    }
  }

  /** Numbers handed out by a failed call are skipped, and given out again once the store has been closed and opened. */
  lemma NextNumber(sha: Digest, s: Store, op: Op, run: AgentRun, events: seq<Event>, clock: Clock, i: nat)
    requires (op.DoAbort? || op.DoReopen?) && i < |events|
    requires !Known(s.idem, events[i]) && forall j :: 0 <= j < i ==> Known(s.idem, events[j])
    ensures var p := Ingest(sha, s.idem, run, Begin(Exec(sha, s, op), run), events, clock);
      |p.added| > 0 && p.added[0].sequence == (if op.DoAbort? then s.globalSeq + op.handedOut else s.savedSeq) + 1
  {
    hide Ingest, StoredAs, Known, Unknown;
    BatchExact(sha, s.idem, run, Begin(Exec(sha, s, op), run), events, clock, i);
    NoneUnknown(s.idem, events[..i]);
    var e := Ingest(sha, s.idem, run, Begin(Exec(sha, s, op), run), events, clock).added[0];
    StoredNumber(sha, run, events[i], e, Exec(sha, s, op).globalSeq + 1, clock(i));
  }

  lemma {:induction false} NoneUnknown(idem: map<string, string>, events: seq<Event>)
    requires forall j :: 0 <= j < |events| ==> Known(idem, events[j])
    ensures Unknown(idem, events) == 0
  {
    hide Known;
    if events != [] { NoneUnknown(idem, events[..|events| - 1]); }
  }

  lemma StoredNumber(sha: Digest, run: AgentRun, ev: Event, e: Event, number: nat, now: nat)
    requires StoredAs(sha, run, ev, e, number, now)
    ensures e.sequence == number
  {
    hide Canonical;
  }

  lemma StampKeepsId(sha: Digest, run: AgentRun, ev: Event, number: nat, now: nat, prev: string)
    ensures Stamp(sha, run, ev, number, now, prev).eventId == ev.eventId
  {
    hide EventHash;
  }

  lemma {:induction false} BatchSizes(sha: Digest, idem: map<string, string>, run: AgentRun, start: Pass, events: seq<Event>, clock: Clock)
    requires start.added == [] && start.results == []
    ensures var p := Ingest(sha, idem, run, start, events, clock);
      |p.results| == |events| && |p.added| == Unknown(idem, events) && p.last == start.last + |p.added|
    decreases |events|
  {
    hide Stamp, Known;
    if events != [] { BatchSizes(sha, idem, run, start, events[..|events| - 1], clock); }
  }

  /** The run after an append: its head, its count and what the batch says of its status; every other field stays. */
  ghost predicate Appended(idem: map<string, string>, events: seq<Event>, now: nat, was: AgentRun, run: AgentRun) {
    && BatchStatus(events, now, was, run) && run.eventCount == was.eventCount + Unknown(idem, events)
    && run.(status := was.status, endedAt := was.endedAt, lastEventHash := was.lastEventHash, eventCount := was.eventCount) == was
  }

  lemma CountedRun(idem: map<string, string>, events: seq<Event>, now: nat, was: AgentRun, head: string)
    ensures var counted := was.(lastEventHash := head, eventCount := was.eventCount + Unknown(idem, events));
      Appended(idem, events, now, was, Advance(counted, events, now)) && Advance(counted, events, now).lastEventHash == head
  {
    hide Advance, BatchStatus, Unknown;
    var counted := was.(lastEventHash := head, eventCount := was.eventCount + Unknown(idem, events));
    AdvanceExact(counted, events, now);
    StatusOnly(events, now, was, counted, Advance(counted, events, now));
  }

  lemma StatusOnly(events: seq<Event>, now: nat, was: AgentRun, counted: AgentRun, run: AgentRun)
    requires BatchStatus(events, now, counted, run) && counted.status == was.status && counted.endedAt == was.endedAt
    ensures BatchStatus(events, now, was, run)
  {
  }

  /** An append changes the one run as said and leaves the others; on an error nothing changes. */
  lemma AppendExact(sha: Digest, s: Store, runId: string, orgId: string, projectId: string, events: seq<Event>, clock: Clock)
    requires runId in s.runs ==> s.runs[runId].runId == runId
    ensures var (s', res) := Append(sha, s, runId, orgId, projectId, events, clock);
      && (res.Err? <==> FindRun(s, runId, orgId, projectId).Err?)
      && (res.Err? ==> s' == s && res.error == FindRun(s, runId, orgId, projectId).error)
      && (res.Ok? ==> runId in s.runs && runId in s'.runs && s'.runs == s.runs[runId := s'.runs[runId]])
      && (res.Ok? ==> Appended(s.idem, events, clock(|events|), s.runs[runId], s'.runs[runId]))
  {
    hide Ingest, WriteEvents, Advance, Appended, Unknown;
    var found := FindRun(s, runId, orgId, projectId);
    if found.Ok? {
      var run := found.value;
      BatchSizes(sha, s.idem, run, Begin(s, run), events, clock);
      CountedRun(s.idem, events, clock(|events|), run, Ingest(sha, s.idem, run, Begin(s, run), events, clock).prev);
    }
  }

  // ---- other runs ----

  /** The run an operation names, if any. */
  predicate Names(op: Op, runId: string) {
    match op
    case DoStart(run, _) => run.runId == runId
    case DoCommit(r, _, _, _) => r == runId
    case DoRollback(_, r, _, _, _, _) => r == runId
    case DoAppend(r, _, _, _, _) => r == runId
    case DoAbort(_) => false
    case DoReopen => false
  }

  /** No operation changes a run it does not name, and none loses one. */
  lemma OthersStay(sha: Digest, s: Store, op: Op, runId: string)
    requires runId in s.runs && !Names(op, runId)
    requires forall r :: r in s.runs ==> s.runs[r].runId == r
    ensures runId in Exec(sha, s, op).runs && Exec(sha, s, op).runs[runId] == s.runs[runId]
  {
    hide Ingest, WriteEvents, Advance;
    if op.DoAppend? { AppendExact(sha, s, op.runId, op.orgId, op.projectId, op.events, op.clock); }
  }
}
