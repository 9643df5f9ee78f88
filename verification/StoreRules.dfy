/**
  The event store's operations as functions from state to state (core/src/event_store.cpp), and the plain
  map from run to event list that the tables and indexes stand for.
 */
module StoreRules {
  import opened CanonicalEvent
  import opened HashChain
  import opened KeyOrder

  datatype AgentRun = AgentRun(
    runId: string, orgId: string, projectId: string, environment: string, agentId: string, agentVersion: string,
    status: string, metadata: string, startedAt: nat, endedAt: nat, lastEventHash: string, eventCount: nat)

  /** One field per column family; both indexes are ordered key sets. `savedSeq` is on disk, `globalSeq` in memory. */
  datatype Store = Store(
    runs: map<string, AgentRun>, events: map<string, Event>, byRun: seq<string>, byType: seq<string>,
    idem: map<string, string>, savedSeq: nat, globalSeq: nat)

  const EMPTY: Store := Store(map[], map[], [], [], map[], 0, 0)

  datatype Error = NotFound | Forbidden | BadMetadata

  datatype Result<T> = Ok(value: T) | Err(error: Error)

  datatype Inserted = Inserted(eventId: string, eventHash: string, duplicate: bool)

  /** A clock reading for every point of a call where the code looks at the clock. */
  type Clock = nat -> nat

  function RunKey(runId: string, n: nat): string {
    runId + ":" + SeqKey(n)
  }

  function TypeKey(ev: Event): string {
    ev.orgId + ":" + ev.projectId + ":" + ev.eventType + ":" + SeqKey(ev.sequence)
  }

  function Lookup(table: map<string, string>, key: string): string {
    if key in table then table[key] else ""
  }

  // ---- appending ----

  /** The store's own fields, filled in. */
  function Stamp(sha: Digest, run: AgentRun, ev: Event, sequence: nat, now: nat, prev: string): Event {
    var e := ev.(
      sequence := sequence, ingestedAt := now, occurredAt := if ev.occurredAt == 0 then now else ev.occurredAt,
      orgId := run.orgId, projectId := run.projectId, runId := run.runId, environment := run.environment,
      schemaVersion := if ev.schemaVersion == "" then "2026-05-01" else ev.schemaVersion,
      payloadMode := if ev.payloadMode == "" then "metadata_only" else ev.payloadMode,
      previousEventHash := prev);
    e.(eventHash := EventHash(sha, e))
  }

  /** The loop's variables: events to write, results, hash of the last event, last sequence handed out. */
  datatype Pass = Pass(added: seq<Event>, results: seq<Inserted>, prev: string, last: nat)

  predicate Known(idem: map<string, string>, ev: Event) {
    ev.idempotencyKey != "" && Lookup(idem, ev.idempotencyKey) != ""
  }

  function Step(sha: Digest, idem: map<string, string>, run: AgentRun, p: Pass, ev: Event, now: nat): Pass {
    if Known(idem, ev) then
      p.(results := p.results + [Inserted(Lookup(idem, ev.idempotencyKey), Lookup(idem, ev.idempotencyKey + ":hash"), true)])
    else
      var e := Stamp(sha, run, ev, p.last + 1, now, p.prev);
      Pass(p.added + [e], p.results + [Inserted(e.eventId, e.eventHash, false)], e.eventHash, p.last + 1)
  }

  function Ingest(sha: Digest, idem: map<string, string>, run: AgentRun, start: Pass, events: seq<Event>, clock: Clock): (p: Pass)
    ensures |p.results| == |start.results| + |events|
    ensures start.last <= p.last <= start.last + |events|
  {
    if events == [] then start
    else
      var n := |events| - 1;
      Step(sha, idem, run, Ingest(sha, idem, run, start, events[..n], clock), events[n], clock(n))
  }

  /** State-change events set the run's status, duplicates included. */
  function Advance(run: AgentRun, events: seq<Event>, now: nat): AgentRun {
    if events == [] then run
    else
      var r, t := Advance(run, events[..|events| - 1], now), events[|events| - 1].eventType;
      if t == "agent_run.committed" then r.(status := "committed", endedAt := now)
      else if t == "agent_run.failed" then r.(status := "failed", endedAt := now)
      else if t == "agent_run.started" then r.(status := "running")
      else r
  }

  /** Everything one new event writes. */
  function WriteEvent(s: Store, e: Event): Store {
    s.(events := s.events[SeqKey(e.sequence) := e],
       byRun := Put(s.byRun, RunKey(e.runId, e.sequence)),
       byType := Put(s.byType, TypeKey(e)),
       idem := if e.idempotencyKey == "" then s.idem
               else s.idem[e.idempotencyKey := e.eventId][e.idempotencyKey + ":hash" := e.eventHash])
  }

  function WriteEvents(s: Store, added: seq<Event>): Store {
    if added == [] then s else WriteEvent(WriteEvents(s, added[..|added| - 1]), added[|added| - 1])
  }

  function FindRun(s: Store, runId: string, orgId: string, projectId: string): Result<AgentRun> {
    if runId !in s.runs then Err(NotFound)
    else if s.runs[runId].orgId != orgId || s.runs[runId].projectId != projectId then Err(Forbidden)
    else Ok(s.runs[runId])
  }

  function Begin(s: Store, run: AgentRun): Pass {
    Pass([], [], run.lastEventHash, s.globalSeq)
  }

  function Commit(s: Store, run: AgentRun, events: seq<Event>, p: Pass, now: nat): Store {
    var r := Advance(run.(lastEventHash := p.prev, eventCount := run.eventCount + |p.added|), events, now);
    var t := WriteEvents(s, p.added);
    t.(runs := s.runs[run.runId := r], savedSeq := p.last, globalSeq := p.last)
  }

  /** The whole call: nothing changes when the run is missing or foreign. */
  function Append(sha: Digest, s: Store, runId: string, orgId: string, projectId: string, events: seq<Event>, clock: Clock)
    : (Store, Result<seq<Inserted>>)
  {
    var found := FindRun(s, runId, orgId, projectId);
    if found.Err? then (s, Err(found.error))
    else
      var p := Ingest(sha, s.idem, found.value, Begin(s, found.value), events, clock);
      (Commit(s, found.value, events, p, clock(|events|)), Ok(p.results))
  }

  /** The call fails after handing out n numbers: the batch is never written. */
  function Abort(s: Store, n: nat): Store {
    s.(globalSeq := s.globalSeq + n)
  }

  // ---- runs ----

  function Start(s: Store, run: AgentRun, now: nat): (Store, AgentRun) {
    if run.runId in s.runs then (s, s.runs[run.runId])
    else
      var r := run.(startedAt := if run.startedAt == 0 then now else run.startedAt,
                    status := if run.status == "" then "running" else run.status);
      (s.(runs := s.runs[r.runId := r]), r)
  }

  function CommitRun(s: Store, runId: string, orgId: string, projectId: string, now: nat): (Store, Result<AgentRun>) {
    var found := FindRun(s, runId, orgId, projectId);
    if found.Err? then (s, found)
    else
      var r := found.value.(status := "committed", endedAt := now);
      (s.(runs := s.runs[runId := r]), Ok(r))
  }

  /** Adds a rollback reason to a JSON object text, or fails when the text is not one. */
  type Annotate = (string, string) -> Result<string>

  function RollbackRun(annotate: Annotate, s: Store, runId: string, orgId: string, projectId: string, reason: string,
                       now: nat): (Store, Result<AgentRun>) {
    var found := FindRun(s, runId, orgId, projectId);
    if found.Err? then (s, found)
    else
      var run := found.value;
      var meta := if reason == "" then Ok(run.metadata)
                  else annotate(if run.metadata == "" then "{}" else run.metadata, reason);
      if meta.Err? then (s, Err(meta.error))
      else
        var r := run.(status := "rolled_back", endedAt := now, metadata := meta.value);
        (s.(runs := s.runs[runId := r]), Ok(r))
  }

  /** Close and open again: only what was written is left. */
  function Reopen(s: Store): Store {
    s.(globalSeq := s.savedSeq)
  }

  // ---- what the tables stand for ----

  /** Each run's events in the order they were stored. */
  type Log = map<string, seq<Event>>

  ghost predicate Rising(evs: seq<Event>) {
    forall i, j :: 0 <= i < j < |evs| ==> evs[i].sequence < evs[j].sequence
  }

  ghost predicate StoredIn(log: Log, e: Event) {
    exists r :: r in log && e in log[r]
  }

  /** A run's events chain up to the run's head and are counted by it. */
  ghost predicate RunInv(sha: Digest, run: AgentRun, evs: seq<Event>, saved: nat) {
    && Chain(sha, evs) && Rising(evs) && run.lastEventHash == Head(evs) && run.eventCount == |evs|
    && forall e :: e in evs ==> e.runId == run.runId && 1 <= e.sequence <= saved
  }

  ghost predicate RunsInv(sha: Digest, runs: map<string, AgentRun>, log: Log, saved: nat) {
    && log.Keys == runs.Keys
    && forall r :: r in runs ==> runs[r].runId == r && RunInv(sha, runs[r], log[r], saved)
  }

  /** The event table holds exactly the logged events, each under its own number. */
  ghost predicate TableInv(events: map<string, Event>, log: Log) {
    && (forall e :: StoredIn(log, e) ==> SeqKey(e.sequence) in events && events[SeqKey(e.sequence)] == e)
    && (forall k :: k in events ==> StoredIn(log, events[k]) && k == SeqKey(events[k].sequence))
  }

  /** Both indexes hold exactly the projections of the event table, in key order. */
  ghost predicate IndexInv(s: Store) {
    && Ascending(s.byRun) && Ascending(s.byType)
    && (forall x :: x in s.byRun <==> exists k :: k in s.events && x == RunKey(s.events[k].runId, s.events[k].sequence))
    && (forall x :: x in s.byType <==> exists k :: k in s.events && x == TypeKey(s.events[k]))
  }

  ghost predicate Inv(sha: Digest, s: Store, log: Log) {
    && s.savedSeq <= s.globalSeq
    && RunsInv(sha, s.runs, log, s.savedSeq) && TableInv(s.events, log) && IndexInv(s)
  }

  const LIMIT: nat := 0x8000_0000_0000_0000
}
