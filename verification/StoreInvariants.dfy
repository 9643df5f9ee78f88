/** Every operation of the event store keeps its tables equal to a plain log of valid chains. */
module StoreInvariants {
  import opened Bytes
  import opened CanonicalEvent
  import opened EventReader
  import opened HashChain
  import opened KeyOrder
  import opened StoreRules

  // ---- one pass over a batch ----

  /** What the loop keeps: the added events extend the run's chain with rising numbers of this run. */
  ghost predicate PassInv(sha: Digest, run: AgentRun, base: seq<Event>, first: nat, p: Pass) {
    && Chain(sha, base + p.added) && p.prev == Head(base + p.added)
    && p.last == first + |p.added|
    && forall i :: 0 <= i < |p.added| ==> p.added[i].runId == run.runId && p.added[i].sequence == first + i + 1
  }

  /** The hash of a stamped event is the hash of its own canonical text. */
  lemma StampGood(sha: Digest, run: AgentRun, ev: Event, sequence: nat, now: nat, prev: string)
    ensures var e := Stamp(sha, run, ev, sequence, now, prev); Good(sha, prev, e) && e.sequence == sequence && e.runId == run.runId
  {
    hide Canonical;
    var e := Stamp(sha, run, ev, sequence, now, prev);
    CanonicalInjective(e, e.(eventHash := ev.eventHash));
  }

  lemma {:induction false} IngestKeeps(sha: Digest, idem: map<string, string>, run: AgentRun, base: seq<Event>, start: Pass,
                                       events: seq<Event>, clock: Clock)
    requires start.added == [] && PassInv(sha, run, base, start.last, start)
    ensures PassInv(sha, run, base, start.last, Ingest(sha, idem, run, start, events, clock))
    decreases |events|
  {
    hide PassInv, Step;
    if events != [] {
      var n := |events| - 1;
      IngestKeeps(sha, idem, run, base, start, events[..n], clock);
      StepKeeps(sha, idem, run, base, start.last, Ingest(sha, idem, run, start, events[..n], clock), events[n], clock(n));
    }
  }

  lemma StepKeeps(sha: Digest, idem: map<string, string>, run: AgentRun, base: seq<Event>, first: nat, p: Pass, ev: Event, now: nat)
    requires PassInv(sha, run, base, first, p)
    ensures PassInv(sha, run, base, first, Step(sha, idem, run, p, ev, now))
  {
    hide Chain, Stamp, Good;
    if !Known(idem, ev) {
      var e := Stamp(sha, run, ev, p.last + 1, now, p.prev);
      StampGood(sha, run, ev, p.last + 1, now, p.prev);
      ChainSnoc(sha, base + p.added, e);
      assert base + (p.added + [e]) == (base + p.added) + [e];
    }
  }

  // ---- one event into the tables ----

  /** The log with one more event at the end of its run. */
  function Logged(log: Log, e: Event): Log
    requires e.runId in log
  {
    log[e.runId := log[e.runId] + [e]]
  }

  lemma StoredLogged(log: Log, e: Event, x: Event)
    requires e.runId in log
    ensures StoredIn(Logged(log, e), x) <==> x == e || StoredIn(log, x)
  {
    var after := Logged(log, e);
    if StoredIn(log, x) {
      var r :| r in log && x in log[r];
      assert r in after && x in after[r];
    }
    assert e.runId in after && e in after[e.runId];
    if StoredIn(after, x) {
      var r :| r in after && x in after[r];
      assert r in log;
    }
  }

  /** No stored event has a number above n. */
  ghost predicate Bounded(log: Log, n: nat) {
    forall x :: StoredIn(log, x) ==> x.sequence <= n
  }

  lemma FreshKey(events: map<string, Event>, log: Log, e: Event, n: nat)
    requires TableInv(events, log) && Bounded(log, n) && n < e.sequence < Pow256(8)
    ensures SeqKey(e.sequence) !in events
  {
    hide SeqKey, SeqOf;
    var k := SeqKey(e.sequence);
    if k in events {
      SeqKeyRoundTrip(e.sequence);
      SeqKeyRoundTrip(events[k].sequence);
    }
  }

  lemma WriteTable(events: map<string, Event>, log: Log, e: Event, n: nat)
    requires e.runId in log && TableInv(events, log) && Bounded(log, n) && n < e.sequence < Pow256(8)
    ensures TableInv(events[SeqKey(e.sequence) := e], Logged(log, e))
    ensures Bounded(Logged(log, e), e.sequence)
  {
    hide SeqKey, StoredIn, Logged;
    FreshKey(events, log, e, n);
    forall x ensures StoredIn(Logged(log, e), x) <==> x == e || StoredIn(log, x) {
      StoredLogged(log, e, x);
    }
  }

  lemma WriteIndex(s: Store, e: Event)
    requires IndexInv(s) && SeqKey(e.sequence) !in s.events
    ensures IndexInv(WriteEvent(s, e))
  {
    hide SeqKey, RunKey, TypeKey, Put, Ascending;
    var t, key := WriteEvent(s, e), SeqKey(e.sequence);
    PutKeeps(s.byRun, RunKey(e.runId, e.sequence));
    PutKeeps(s.byType, TypeKey(e));
    assert forall k :: k in t.events <==> k == key || k in s.events;
    assert t.events[key] == e && forall k :: k in s.events ==> t.events[k] == s.events[k];
    forall x ensures x in t.byRun <==> exists k :: k in t.events && x == RunKey(t.events[k].runId, t.events[k].sequence) {
      if x in s.byRun {
        var k :| k in s.events && x == RunKey(s.events[k].runId, s.events[k].sequence);
        assert k in t.events;
      }
    }
    forall x ensures x in t.byType <==> exists k :: k in t.events && x == TypeKey(t.events[k]) {
      if x in s.byType {
        var k :| k in s.events && x == TypeKey(s.events[k]);
        assert k in t.events;
      }
    }
  }

  /** The log with a list of events of one run added. */
  function LoggedAll(log: Log, r: string, added: seq<Event>): Log
    requires r in log
  {
    log[r := log[r] + added]
  }

  lemma {:induction false} WriteAll(s: Store, log: Log, r: string, added: seq<Event>, n: nat)
    requires r in log && TableInv(s.events, log) && IndexInv(s) && Bounded(log, n) && n + |added| < Pow256(8)
    requires forall i :: 0 <= i < |added| ==> added[i].runId == r && added[i].sequence == n + i + 1
    ensures var t := WriteEvents(s, added); TableInv(t.events, LoggedAll(log, r, added)) && IndexInv(t)
    ensures Bounded(LoggedAll(log, r, added), n + |added|)
    decreases |added|
  {
    hide TableInv, IndexInv, Bounded, Pow256;
    if added == [] {
      assert log[r] + added == log[r];
      assert LoggedAll(log, r, added) == log;
    } else {
      var m := |added| - 1;
      var e, before := added[m], WriteEvents(s, added[..m]);
      var mid := LoggedAll(log, r, added[..m]);
      WriteAll(s, log, r, added[..m], n);
      assert added == added[..m] + [e];
      assert log[r] + added == (log[r] + added[..m]) + [e];
      assert LoggedAll(log, r, added) == Logged(mid, e);
      FreshKey(before.events, mid, e, n + m);
      WriteTable(before.events, mid, e, n + m);
      WriteIndex(before, e);
    }
  }

  // ---- the whole call ----

  lemma {:induction false} AdvanceKeeps(run: AgentRun, events: seq<Event>, now: nat)
    ensures var r := Advance(run, events, now);
      && r.runId == run.runId && r.orgId == run.orgId && r.projectId == run.projectId && r.environment == run.environment
      && r.lastEventHash == run.lastEventHash && r.eventCount == run.eventCount
    decreases |events|
  {
    if events != [] { AdvanceKeeps(run, events[..|events| - 1], now); }
  }

  lemma {:induction false} WriteKeepsRest(s: Store, added: seq<Event>)
    ensures var t := WriteEvents(s, added); t.runs == s.runs && t.savedSeq == s.savedSeq && t.globalSeq == s.globalSeq
  {
    if added != [] { WriteKeepsRest(s, added[..|added| - 1]); }
  }

  lemma RunsBounded(sha: Digest, runs: map<string, AgentRun>, log: Log, saved: nat, n: nat)
    requires RunsInv(sha, runs, log, saved) && saved <= n
    ensures Bounded(log, n)
  {
  }

  lemma RunGrows(sha: Digest, run: AgentRun, evs: seq<Event>, saved: nat, p: Pass, r: AgentRun, first: nat)
    requires RunInv(sha, run, evs, saved) && saved <= first && PassInv(sha, run, evs, first, p)
    requires r.runId == run.runId && r.lastEventHash == p.prev && r.eventCount == run.eventCount + |p.added|
    ensures RunInv(sha, r, evs + p.added, p.last)
  {
    hide Chain;
    var all := evs + p.added;
    forall i | 0 <= i < |all| ensures all[i].runId == r.runId && 1 <= all[i].sequence <= p.last {
      if i < |evs| { assert evs[i] in evs; }
    }
    forall i, j | 0 <= i < j < |all| ensures all[i].sequence < all[j].sequence {
      if i < |evs| { assert evs[i] in evs; }
    }
  }

  lemma RunWidens(sha: Digest, run: AgentRun, evs: seq<Event>, saved: nat, more: nat)
    requires RunInv(sha, run, evs, saved) && saved <= more
    ensures RunInv(sha, run, evs, more)
  {
  }

  lemma RunsGrow(sha: Digest, runs: map<string, AgentRun>, log: Log, saved: nat, id: string, p: Pass, r: AgentRun, first: nat)
    requires RunsInv(sha, runs, log, saved) && saved <= first && id in runs && PassInv(sha, runs[id], log[id], first, p)
    requires r.runId == id && r.lastEventHash == p.prev && r.eventCount == runs[id].eventCount + |p.added|
    ensures RunsInv(sha, runs[id := r], LoggedAll(log, id, p.added), p.last)
  {
    hide RunInv, PassInv;
    assert p.last >= first by { PassLast(sha, runs[id], log[id], first, p); }
    RunGrows(sha, runs[id], log[id], saved, p, r, first);
    forall x | x in runs && x != id ensures RunInv(sha, runs[x], log[x], p.last) {
      RunWidens(sha, runs[x], log[x], saved, p.last);
    }
  }

  lemma PassLast(sha: Digest, run: AgentRun, base: seq<Event>, first: nat, p: Pass)
    requires PassInv(sha, run, base, first, p)
    ensures p.last == first + |p.added|
  {
  }

  /** The log after an append: the run's list grows by the events the pass added. */
  function LogAfter(sha: Digest, s: Store, log: Log, runId: string, orgId: string, projectId: string, events: seq<Event>,
                    clock: Clock): Log
  {
    var found := FindRun(s, runId, orgId, projectId);
    if found.Err? || runId !in log then log
    else LoggedAll(log, runId, Ingest(sha, s.idem, found.value, Begin(s, found.value), events, clock).added)
  }

  /** Appending a batch extends one run's list and keeps every table, index, head and count exact. */
  lemma AppendKeeps(sha: Digest, s: Store, log: Log, runId: string, orgId: string, projectId: string, events: seq<Event>,
                    clock: Clock)
    requires Inv(sha, s, log) && s.globalSeq + |events| < LIMIT
    ensures Inv(sha, Append(sha, s, runId, orgId, projectId, events, clock).0, LogAfter(sha, s, log, runId, orgId, projectId, events, clock))
  {
    hide Inv, PassInv, Ingest, Commit;
    var found := FindRun(s, runId, orgId, projectId);
    if found.Ok? {
      var run := found.value;
      var start := Begin(s, run);
      BeginInv(sha, s, log, runId);
      IngestKeeps(sha, s.idem, run, log[runId], start, events, clock);
      var p := Ingest(sha, s.idem, run, start, events, clock);
      CommitKeeps(sha, s, log, run, events, p, clock(|events|));
    }
  }

  /** Writing a finished pass keeps the store exact. */
  lemma CommitKeeps(sha: Digest, s: Store, log: Log, run: AgentRun, events: seq<Event>, p: Pass, now: nat)
    requires Inv(sha, s, log) && run.runId in s.runs && s.runs[run.runId] == run && run.runId in log
    requires PassInv(sha, run, log[run.runId], s.globalSeq, p) && p.last < LIMIT
    ensures Inv(sha, Commit(s, run, events, p, now), LoggedAll(log, run.runId, p.added))
  {
    hide PassInv, TableInv, IndexInv, RunsInv, WriteEvents, Bounded;
    var r0 := run.(lastEventHash := p.prev, eventCount := run.eventCount + |p.added|);
    RunsBounded(sha, s.runs, log, s.savedSeq, s.globalSeq);
    PassShape(sha, run, log[run.runId], s.globalSeq, p);
    Pow256Values();
    WriteAll(s, log, run.runId, p.added, s.globalSeq);
    AdvanceKeeps(r0, events, now);
    RunsGrow(sha, s.runs, log, s.savedSeq, run.runId, p, Advance(r0, events, now), s.globalSeq);
    IndexSame(WriteEvents(s, p.added), Commit(s, run, events, p, now));
  }

  lemma IndexSame(s: Store, t: Store)
    requires IndexInv(s) && t.events == s.events && t.byRun == s.byRun && t.byType == s.byType
    ensures IndexInv(t)
  {
  }

  lemma PassShape(sha: Digest, run: AgentRun, base: seq<Event>, first: nat, p: Pass)
    requires PassInv(sha, run, base, first, p)
    ensures forall i :: 0 <= i < |p.added| ==> p.added[i].runId == run.runId && p.added[i].sequence == first + i + 1
    ensures p.last == first + |p.added|
  {
  }

  lemma BeginInv(sha: Digest, s: Store, log: Log, runId: string)
    requires Inv(sha, s, log) && runId in s.runs
    ensures runId in log && s.runs[runId].runId == runId
    ensures PassInv(sha, s.runs[runId], log[runId], s.globalSeq, Begin(s, s.runs[runId]))
  {
    hide Chain, TableInv, IndexInv;
    assert log[runId] + [] == log[runId];
  }

  // ---- whole runs ----

  datatype Op =
    | DoStart(run: AgentRun, now: nat)
    | DoCommit(runId: string, orgId: string, projectId: string, now: nat)
    | DoRollback(annotate: Annotate, runId: string, orgId: string, projectId: string, reason: string, now: nat)
    | DoAppend(runId: string, orgId: string, projectId: string, events: seq<Event>, clock: Clock)
    | DoAbort(handedOut: nat)
    | DoReopen

  function Exec(sha: Digest, s: Store, op: Op): Store {
    match op
    case DoStart(run, now) => Start(s, run, now).0
    case DoCommit(r, o, p, now) => CommitRun(s, r, o, p, now).0
    case DoRollback(annotate, r, o, p, reason, now) => RollbackRun(annotate, s, r, o, p, reason, now).0
    case DoAppend(r, o, p, events, clock) => Append(sha, s, r, o, p, events, clock).0
    case DoAbort(n) => Abort(s, n)
    case DoReopen => Reopen(s)
  }

  function ExecLog(sha: Digest, s: Store, log: Log, op: Op): Log {
    if op.DoStart? && op.run.runId !in s.runs then log[op.run.runId := []]
    else if op.DoAppend? then LogAfter(sha, s, log, op.runId, op.orgId, op.projectId, op.events, op.clock)
    else log
  }

  /** The only demand on callers: a run starts with an empty head and a zero count. */
  predicate StartsEmpty(op: Op) {
    op.DoStart? ==> op.run.lastEventHash == "" && op.run.eventCount == 0
  }

  /** How many sequence numbers an operation can hand out. */
  function Demand(op: Op): nat {
    if op.DoAppend? then |op.events| else if op.DoAbort? then op.handedOut else 0
  }

  function Demands(ops: seq<Op>): nat {
    if ops == [] then 0 else Demands(ops[..|ops| - 1]) + Demand(ops[|ops| - 1])
  }

  datatype State = State(store: Store, log: Log)

  /** The store after a run of operations from an empty one, with the log it stands for. */
  function Replay(sha: Digest, ops: seq<Op>): State {
    if ops == [] then State(EMPTY, map[])
    else
      var before, op := Replay(sha, ops[..|ops| - 1]), ops[|ops| - 1];
      State(Exec(sha, before.store, op), ExecLog(sha, before.store, before.log, op))
  }

  lemma RunTouched(sha: Digest, run: AgentRun, r: AgentRun, evs: seq<Event>, saved: nat)
    requires RunInv(sha, run, evs, saved)
    requires r.runId == run.runId && r.lastEventHash == run.lastEventHash && r.eventCount == run.eventCount
    ensures RunInv(sha, r, evs, saved)
  {
  }

  /** A run's record changes, its head and count do not. */
  lemma TouchKeeps(sha: Digest, s: Store, log: Log, r: AgentRun)
    requires Inv(sha, s, log) && r.runId in s.runs
    requires r.lastEventHash == s.runs[r.runId].lastEventHash && r.eventCount == s.runs[r.runId].eventCount
    ensures Inv(sha, s.(runs := s.runs[r.runId := r]), log)
  {
    hide RunInv, TableInv, IndexInv;
    RunTouched(sha, s.runs[r.runId], r, log[r.runId], s.savedSeq);
    IndexSame(s, s.(runs := s.runs[r.runId := r]));
  }

  lemma StartKeeps(sha: Digest, s: Store, log: Log, r: AgentRun)
    requires Inv(sha, s, log) && r.runId !in s.runs && r.lastEventHash == "" && r.eventCount == 0
    ensures Inv(sha, s.(runs := s.runs[r.runId := r]), log[r.runId := []])
  {
    hide IndexInv, TableInv, RunInv, StoredIn;
    var t, after := s.(runs := s.runs[r.runId := r]), log[r.runId := []];
    EmptyRun(sha, r, s.savedSeq);
    IndexSame(s, t);
    StoredStart(log, r.runId);
    TableSame(s.events, log, after);
  }

  lemma EmptyRun(sha: Digest, r: AgentRun, saved: nat)
    requires r.lastEventHash == "" && r.eventCount == 0
    ensures RunInv(sha, r, [], saved)
  {
  }

  lemma StoredStart(log: Log, id: string)
    requires id !in log
    ensures forall x :: StoredIn(log[id := []], x) <==> StoredIn(log, x)
  {
    var after := log[id := []];
    forall x ensures StoredIn(after, x) <==> StoredIn(log, x) {
      if StoredIn(log, x) {
        var q :| q in log && x in log[q];
        assert q in after;
      }
      if StoredIn(after, x) {
        var q :| q in after && x in after[q];
        assert q in log;
      }
    }
  }

  lemma TableSame(events: map<string, Event>, log: Log, after: Log)
    requires TableInv(events, log) && forall x :: StoredIn(after, x) <==> StoredIn(log, x)
    ensures TableInv(events, after)
  {
    hide StoredIn;
  }

  lemma ExecKeeps(sha: Digest, s: Store, log: Log, op: Op)
    requires Inv(sha, s, log) && StartsEmpty(op) && s.globalSeq + Demand(op) < LIMIT
    ensures Inv(sha, Exec(sha, s, op), ExecLog(sha, s, log, op))
    ensures Exec(sha, s, op).globalSeq <= s.globalSeq + Demand(op)
  {
    hide Append, LogAfter;
    match op {
      case DoAppend(r, o, p, events, clock) =>
        AppendKeeps(sha, s, log, r, o, p, events, clock);
        AppendDemand(sha, s, r, o, p, events, clock);
      case DoStart(run, now) =>
        hide Inv;
        if run.runId !in s.runs { StartKeeps(sha, s, log, Start(s, run, now).1); }
      case DoCommit(r, o, p, now) =>
        RunIdKept(sha, s, log);
        hide Inv;
        if FindRun(s, r, o, p).Ok? { TouchKeeps(sha, s, log, CommitRun(s, r, o, p, now).1.value); }
      case DoRollback(annotate, r, o, p, reason, now) =>
        RunIdKept(sha, s, log);
        hide Inv;
        var done := RollbackRun(annotate, s, r, o, p, reason, now);
        if done.1.Ok? { TouchKeeps(sha, s, log, done.1.value); }
      case DoAbort(n) => IndexSame(s, Abort(s, n));
      case DoReopen => IndexSame(s, Reopen(s));
    }
  }

  lemma RunIdKept(sha: Digest, s: Store, log: Log)
    requires Inv(sha, s, log)
    ensures forall r :: r in s.runs ==> s.runs[r].runId == r
  {
  }

  lemma AppendDemand(sha: Digest, s: Store, runId: string, orgId: string, projectId: string, events: seq<Event>, clock: Clock)
    ensures Append(sha, s, runId, orgId, projectId, events, clock).0.globalSeq <= s.globalSeq + |events|
  {
    hide Ingest, WriteEvents;
  }

  /**
    In every state reachable by starting, appending, committing, rolling back, failing and reopening: each run's
    events form a valid chain ending at its head and are counted by it, and both indexes are exactly the
    projections of the event table.
   */
  lemma {:induction false} StoreReachable(sha: Digest, ops: seq<Op>)
    requires (forall op :: op in ops ==> StartsEmpty(op)) && Demands(ops) < LIMIT
    ensures Inv(sha, Replay(sha, ops).store, Replay(sha, ops).log) && Replay(sha, ops).store.globalSeq <= Demands(ops)
    decreases |ops|
  {
    hide Inv, Exec, ExecLog;
    if ops == [] {
      EmptyInv(sha);
    } else {
      var front := ops[..|ops| - 1];
      StoreReachable(sha, front);
      ExecKeeps(sha, Replay(sha, front).store, Replay(sha, front).log, ops[|ops| - 1]);
    }
  }

  lemma EmptyInv(sha: Digest)
    ensures Inv(sha, EMPTY, map[])
  {
    hide Chain;
  }

  /** No event is ever lost or changed, and no number of a stored event is handed out again. */
  lemma ExecExtends(sha: Digest, s: Store, log: Log, op: Op)
    requires Inv(sha, s, log) && StartsEmpty(op) && s.globalSeq + Demand(op) < LIMIT
    ensures var t, after := Exec(sha, s, op), ExecLog(sha, s, log, op);
      && (forall r :: r in log ==> r in after && log[r] <= after[r])
      && (forall r, i :: r in log && r in after && |log[r]| <= i < |after[r]| ==> after[r][i].sequence > s.savedSeq)
      && (forall e :: StoredIn(log, e) ==> e.sequence <= s.savedSeq)
      && (forall k :: k in s.events ==> k in t.events && t.events[k] == s.events[k])
  {
    hide Append, TableInv, IndexInv, Inv;
    StoredBelow(sha, s, log);
    if op.DoAppend? {
      AppendExtends(sha, s, log, op.runId, op.orgId, op.projectId, op.events, op.clock);
    } else {
      LogsMatch(sha, s, log);
    }
  }

  lemma StoredBelow(sha: Digest, s: Store, log: Log)
    requires Inv(sha, s, log)
    ensures forall e :: StoredIn(log, e) ==> e.sequence <= s.savedSeq
  {
    RunsBounded(sha, s.runs, log, s.savedSeq, s.savedSeq);
  }

  lemma LogsMatch(sha: Digest, s: Store, log: Log)
    requires Inv(sha, s, log)
    ensures log.Keys == s.runs.Keys && s.savedSeq <= s.globalSeq
  {
  }

  lemma AppendExtends(sha: Digest, s: Store, log: Log, runId: string, orgId: string, projectId: string, events: seq<Event>,
                      clock: Clock)
    requires Inv(sha, s, log) && s.globalSeq + |events| < LIMIT
    ensures var t, after := Append(sha, s, runId, orgId, projectId, events, clock).0,
                            LogAfter(sha, s, log, runId, orgId, projectId, events, clock);
      && (forall r :: r in log ==> r in after && log[r] <= after[r])
      && (forall r, i :: r in log && r in after && |log[r]| <= i < |after[r]| ==> after[r][i].sequence > s.savedSeq)
      && (forall k :: k in s.events ==> k in t.events && t.events[k] == s.events[k])
  {
    hide Inv, PassInv, Ingest, WriteEvents;
    LogsMatch(sha, s, log);
    var found := FindRun(s, runId, orgId, projectId);
    if found.Ok? {
      var run := found.value;
      BeginInv(sha, s, log, runId);
      IngestKeeps(sha, s.idem, run, log[runId], Begin(s, run), events, clock);
      var p := Ingest(sha, s.idem, run, Begin(s, run), events, clock);
      PassShape(sha, run, log[runId], s.globalSeq, p);
      TableOf(sha, s, log);
      Pow256Values();
      WriteExtends(s, log, runId, p.added, s.globalSeq);
    }
  }

  lemma TableOf(sha: Digest, s: Store, log: Log)
    requires Inv(sha, s, log)
    ensures TableInv(s.events, log) && IndexInv(s) && Bounded(log, s.globalSeq)
  {
    RunsBounded(sha, s.runs, log, s.savedSeq, s.globalSeq);
  }

  lemma {:induction false} WriteExtends(s: Store, log: Log, r: string, added: seq<Event>, n: nat)
    requires r in log && TableInv(s.events, log) && IndexInv(s) && Bounded(log, n) && n + |added| < Pow256(8)
    requires forall i :: 0 <= i < |added| ==> added[i].runId == r && added[i].sequence == n + i + 1
    ensures forall k :: k in s.events ==> k in WriteEvents(s, added).events && WriteEvents(s, added).events[k] == s.events[k]
    decreases |added|
  {
    hide TableInv, IndexInv, Bounded, Pow256, SeqKey;
    if added != [] {
      var m := |added| - 1;
      WriteExtends(s, log, r, added[..m], n);
      WriteAll(s, log, r, added[..m], n);
      FreshKey(WriteEvents(s, added[..m]).events, LoggedAll(log, r, added[..m]), added[m], n + m);
    }
  }
}
