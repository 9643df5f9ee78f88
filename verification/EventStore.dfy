/** The event store as an object: every call updates the tables to what the rules say (core/src/event_store.cpp). */
module EventStore {
  import opened Common
  import opened Bytes
  import opened CanonicalEvent
  import opened HashChain
  import opened KeyOrder
  import opened StoreEffects
  import opened StoreInvariants
  import StoreResend
  import opened StoreRules
  import opened Timeline

  datatype Page = Page(run: AgentRun, events: seq<Event>, next: Option<nat>)

  /** How many results are not duplicates. */
  function CountNew(results: seq<Inserted>): nat {
    if results == [] then 0
    else CountNew(results[..|results| - 1]) + (if results[|results| - 1].duplicate then 0 else 1)
  }

  lemma {:induction false} CountAdded(sha: Digest, idem: map<string, string>, run: AgentRun, start: Pass, events: seq<Event>, clock: Clock)
    requires start.added == [] && start.results == []
    ensures var p := Ingest(sha, idem, run, start, events, clock); CountNew(p.results) == |p.added|
    decreases |events|
  {
    hide Stamp;
    if events != [] {
      var front := events[..|events| - 1];
      CountAdded(sha, idem, run, start, front, clock);
      var before, after := Ingest(sha, idem, run, start, front, clock), Ingest(sha, idem, run, start, events, clock);
      assert after.results[..|after.results| - 1] == before.results;
    }
  }

  class EventStore {
    const sha: Digest
    var runs: map<string, AgentRun>
    var events: map<string, Event>
    var byRun: seq<string>
    var byType: seq<string>
    var idem: map<string, string>
    var savedSeq: nat
    var globalSeq: nat

    function View(): Store
      reads this
    {
      Store(runs, events, byRun, byType, idem, savedSeq, globalSeq)
    }

    /** Open the tables found on disk; the counter continues from the saved one. */
    constructor (sha: Digest, disk: Store)
      ensures this.sha == sha && View() == Reopen(disk)
    {
      this.sha, runs, events, byRun, byType, idem := sha, disk.runs, disk.events, disk.byRun, disk.byType, disk.idem;
      savedSeq, globalSeq := disk.savedSeq, disk.savedSeq;
    }

    method StartRun(run: AgentRun, now: nat) returns (r: AgentRun)
      modifies this`runs
      ensures (View(), r) == Start(old(View()), run, now)
      ensures run.runId in old(runs) ==> r == old(runs)[run.runId] && runs == old(runs)
      ensures run.runId !in old(runs) ==> runs == old(runs)[run.runId := r]
    {
      if run.runId in runs { return runs[run.runId]; }
      r := run;
      if r.startedAt == 0 { r := r.(startedAt := now); }
      if r.status == "" { r := r.(status := "running"); }
      runs := runs[r.runId := r];
    }

    method CommitRun(runId: string, orgId: string, projectId: string, now: nat) returns (res: Result<AgentRun>)
      modifies this`runs
      ensures (View(), res) == StoreRules.CommitRun(old(View()), runId, orgId, projectId, now)
      ensures res.Ok? ==> runId in old(runs) && runs == old(runs)[runId := res.value]
      ensures res.Ok? ==> Closed(old(runs)[runId], res.value, "committed", now)
    {
      if runId !in runs { return Err(NotFound); }
      var r := runs[runId];
      if r.orgId != orgId || r.projectId != projectId { return Err(Forbidden); }
      r := r.(status := "committed", endedAt := now);
      runs := runs[runId := r];
      res := Ok(r);
    }

    method RollbackRun(annotate: Annotate, runId: string, orgId: string, projectId: string, reason: string, now: nat)
      returns (res: Result<AgentRun>)
      modifies this`runs
      ensures (View(), res) == StoreRules.RollbackRun(annotate, old(View()), runId, orgId, projectId, reason, now)
      ensures res.Ok? ==> runId in old(runs) && runs == old(runs)[runId := res.value]
      ensures res.Ok? ==> Closed(old(runs)[runId], res.value.(metadata := old(runs)[runId].metadata), "rolled_back", now)
    {
      if runId !in runs { return Err(NotFound); }
      var r := runs[runId];
      if r.orgId != orgId || r.projectId != projectId { return Err(Forbidden); }
      r := r.(status := "rolled_back", endedAt := now);
      if reason != "" {
        var meta := annotate(if r.metadata == "" then "{}" else r.metadata, reason);
        if meta.Err? { return Err(meta.error); }
        r := r.(metadata := meta.value);
      }
      runs := runs[runId := r];
      res := Ok(r);
    }

    method NextSeq() returns (n: nat)
      modifies this`globalSeq
      ensures n == globalSeq == old(globalSeq) + 1
    {
      globalSeq := globalSeq + 1;
      n := globalSeq;
    }

    /** One atomic write of everything the new events put. */
    method WriteBatch(added: seq<Event>)
      modifies this`events, this`byRun, this`byType, this`idem
      ensures View() == WriteEvents(old(View()), added)
    {
      hide Put, SeqKey;
      for i := 0 to |added|
        invariant View() == WriteEvents(old(View()), added[..i])
        invariant runs == old(runs) && savedSeq == old(savedSeq) && globalSeq == old(globalSeq)
      {
        var e := added[i];
        assert added[..i + 1][..i] == added[..i];
        events := events[SeqKey(e.sequence) := e];
        byRun := Put(byRun, RunKey(e.runId, e.sequence));
        byType := Put(byType, TypeKey(e));
        if e.idempotencyKey != "" {
          idem := idem[e.idempotencyKey := e.eventId];
          idem := idem[e.idempotencyKey + ":hash" := e.eventHash];
        }
      }
      assert added[..|added|] == added;
    }

    /** The loop over the batch: known keys are answered, new events are numbered, chained and collected. */
    method IngestBatch(run: AgentRun, batch: seq<Event>, clock: Clock) returns (p: Pass)
      modifies this`globalSeq
      ensures p == Ingest(sha, idem, run, Begin(old(View()), run), batch, clock) && globalSeq == p.last
    {
      hide Canonical, Stamp, Fill, Sha256Hex, Ingest;
      var added, results, prev := [], [], run.lastEventHash;
      ghost var start := Begin(View(), run);
      IngestNone(sha, idem, run, start, clock);
      for i := 0 to |batch|
        invariant Pass(added, results, prev, globalSeq) == Ingest(sha, idem, run, start, batch[..i], clock)
      {
        var ev := batch[i];
        IngestSnoc(sha, idem, run, start, batch, clock, i);
        if ev.idempotencyKey != "" && Lookup(idem, ev.idempotencyKey) != "" {
          results := results + [Inserted(Lookup(idem, ev.idempotencyKey), Lookup(idem, ev.idempotencyKey + ":hash"), true)];
        } else {
          var n := NextSeq();
          FillStamps(sha, run, ev, n, clock(i), prev);
          ev := Fill(run, ev, n, clock(i), prev);
          var text := CanonicalJsonEvent(ev);
          ev := ev.(eventHash := Sha256Hex(sha, text));
          added := added + [ev];
          prev := ev.eventHash;
          results := results + [Inserted(ev.eventId, ev.eventHash, false)];
        }
      }
      assert batch[..|batch|] == batch;
      p := Pass(added, results, prev, globalSeq);
    }

    method SetStatus(run: AgentRun, batch: seq<Event>, now: nat) returns (r: AgentRun)
      ensures r == Advance(run, batch, now)
    {
      r := run;
      for i := 0 to |batch|
        invariant r == Advance(run, batch[..i], now)
      {
        assert batch[..i + 1][..i] == batch[..i];
        if batch[i].eventType == "agent_run.committed" { r := r.(status := "committed", endedAt := now); }
        else if batch[i].eventType == "agent_run.failed" { r := r.(status := "failed", endedAt := now); }
        else if batch[i].eventType == "agent_run.started" { r := r.(status := "running"); }
      }
      assert batch[..|batch|] == batch;
    }

    method AppendEvents(runId: string, orgId: string, projectId: string, batch: seq<Event>, clock: Clock)
      returns (res: Result<seq<Inserted>>)
      requires runId in runs ==> runs[runId].runId == runId
      modifies this
      ensures (View(), res) == Append(sha, old(View()), runId, orgId, projectId, batch, clock)
      ensures res.Ok? ==> runId in old(runs) && runs.Keys == old(runs).Keys
      ensures res.Ok? ==> Appended(old(idem), batch, clock(|batch|), old(runs)[runId], runs[runId])
    {
      hide Ingest, WriteEvents, Advance, Appended;
      AppendExact(sha, View(), runId, orgId, projectId, batch, clock);
      if runId !in runs { return Err(NotFound); }
      var run := runs[runId];
      if run.orgId != orgId || run.projectId != projectId { return Err(Forbidden); }
      var p := IngestBatch(run, batch, clock);
      CountAdded(sha, idem, run, Begin(old(View()), run), batch, clock);
      var r := run.(lastEventHash := p.prev, eventCount := run.eventCount + CountNew(p.results));
      r := SetStatus(r, batch, clock(|batch|));
      WriteKeepsRest(old(View()), p.added);
      WriteIgnores(old(View()), View(), p.added);
      WriteBatch(p.added);
      runs := runs[runId := r];
      savedSeq := globalSeq;
      res := Ok(p.results);
    }

    /** A page of the run's events: seek past the cursor, then read keys while they carry the run's prefix. */
    method Timeline(runId: string, orgId: string, projectId: string, limit: nat, cursor: Option<nat>, ghost evs: seq<Event>)
      returns (res: Result<Page>)
      requires Lists(View(), runId, evs) && (cursor.Some? ==> cursor.value + 1 < LIMIT)
      ensures res.Err? <==> FindRun(View(), runId, orgId, projectId).Err?
      ensures res.Err? ==> res.error == FindRun(View(), runId, orgId, projectId).error
      ensures res.Ok? ==> res.value.run == runs[runId] && IsPage(evs, limit, cursor, res.value.events, res.value.next)
      ensures res.Ok? ==>
        (res.value.next.Some? <==> |res.value.events| == limit && MoreKeys(byRun, runId, cursor, res.value.events))
    {
      hide Lists, IsPage, MoreKeys;
      if runId !in runs { return Err(NotFound); }
      var run := runs[runId];
      if run.orgId != orgId || run.projectId != projectId { return Err(Forbidden); }
      var page, last, valid := Scan(runId, limit, cursor, evs);
      var next := if |page| == limit && valid then Some(last) else None;
      res := Ok(Page(run, page, next));
    }

    /** The iterator's walk: the events read, the last number, and whether the iterator still stands on a key. */
    method Scan(runId: string, limit: nat, cursor: Option<nat>, ghost evs: seq<Event>)
      returns (page: seq<Event>, last: nat, valid: bool)
      requires Lists(View(), runId, evs) && (cursor.Some? ==> cursor.value + 1 < LIMIT)
      ensures IsPage(evs, limit, cursor, page, if |page| == limit && valid then Some(last) else None)
      ensures valid <==> MoreKeys(byRun, runId, cursor, page)
    {
      hide MoreKeys, Less, Target, At, RunSlice, SeqKey, SeqOf, Served, Pow256, IsPage, Rising, StartsWith, RunKey, LastNumber, Ascending;
      SliceRises(byRun, runId, evs);
      Pow256Values();
      ghost var k0 := AfterIsSuffix(evs, cursor);
      ghost var k := k0;
      var prefix := Prefix(runId);
      var idx := Seek(byRun, Target(runId, cursor));
      SeekLands(byRun, runId, evs, cursor, k);
      page, last := [], 0;
      LastOfNone();
      while idx < |byRun| && |page| < limit
        invariant k0 <= k <= |evs| && idx <= |byRun| && At(byRun, runId, evs, idx, k)
        invariant page == evs[k0..k] && |page| <= limit && last == LastNumber(page)
        invariant if page == [] then idx == Seek(byRun, Target(runId, cursor)) else idx > 0 && byRun[idx - 1] == RunKey(runId, last)
        decreases |byRun| - idx
      {
        var key := byRun[idx];
        AtKey(byRun, runId, evs, idx, k);
        if !StartsWith(key, prefix) || |key| < |prefix| + 8 { break; }
        var n := SeqOf(key[|prefix|..]);
        ServedAt(events, byRun, runId, evs, idx, k);
        PageSnoc(evs, k0, k);
        if SeqKey(n) in events {
          page := page + [events[SeqKey(n)]];
          last := n;
        }
        NextLands(byRun, runId, evs, idx, k);
        idx, k := idx + 1, k + 1;
      }
      valid := idx < |byRun|;
      if valid { AtKey(byRun, runId, evs, idx, k); }
      AtEnd(byRun, runId, evs, idx, k);
      SliceAscends(byRun, runId, evs);
      MoreExact(byRun, runId, cursor, idx, page);
      PageDone(evs, limit, cursor, k0, k, valid);
    }

    /**
      Verification reads one page of 5000. It accepts exactly when those events form a chain, whatever was done to the
      event table, and otherwise names the first bad one.
     */
    method Verify(runId: string, orgId: string, projectId: string, ghost evs: seq<Event>) returns (res: Result<Verdict>)
      requires Lists(View(), runId, evs)
      ensures res.Err? <==> FindRun(View(), runId, orgId, projectId).Err?
      ensures res.Err? ==> res.error == FindRun(View(), runId, orgId, projectId).error
      ensures res.Ok? ==> res.value.runId == runId && (res.value.valid ==> res.value.brokenAt == "")
      ensures res.Ok? ==> var page := Take(evs, 5000);
        && res.value.eventCount == |page| && (res.value.valid <==> Chain(sha, page))
        && (!res.value.valid ==> exists k :: 0 <= k < |page| && FirstBad(sha, page, k) && res.value.brokenAt == page[k].eventId)
    {
      hide Chain, IsPage, Lists, FirstBad;
      var page := Timeline(runId, orgId, projectId, 5000, None, evs);
      if page.Err? { return Err(page.error); }
      PageIsPrefix(evs, 5000, page.value.events, page.value.next);
      var verdict := VerifyChain(sha, page.value.events, runId);
      res := Ok(verdict);
    }

    /** Following next cursors on a fixed store ends, and yields every event of the run once, in order. */
    method ReadAll(runId: string, orgId: string, projectId: string, limits: nat -> nat, ghost evs: seq<Event>)
      returns (all: seq<Event>)
      requires Lists(View(), runId, evs) && forall e :: e in evs ==> e.sequence + 1 < LIMIT
      requires FindRun(View(), runId, orgId, projectId).Ok? && forall i :: limits(i) >= 1
      ensures all == evs
    {
      hide Lists, IsPage, Session, FindRun, Collected;
      ghost var visits: seq<Visit> := [];
      ListsRise(View(), runId, evs);
      EmptySession();
      all := [];
      var cursor: Option<nat> := None;
      var i := 0;
      while true
        invariant Session(visits) && all == Collected(visits) && i == |visits|
        invariant forall v :: v in visits ==> v.evs == evs
        invariant cursor == (if visits == [] then None else visits[|visits| - 1].next)
        invariant visits != [] ==> cursor.Some?
        invariant cursor.Some? ==> cursor.value + 1 < LIMIT
        decreases |evs| + 1 - |visits|
      {
        var page := Timeline(runId, orgId, projectId, limits(i), cursor, evs);
        ghost var v := Visit(evs, limits(i), page.value.events, page.value.next);
        assert visits != [] ==> visits[|visits| - 1] in visits;
        SessionGrows(visits, v);
        visits := visits + [v];
        all := all + page.value.events;
        SessionEnds(visits, evs);
        CursorBelow(visits, LIMIT - 2);
        cursor := page.value.next;
        i := i + 1;
        if cursor.None? { break; }
      }
    }

    /** One operation of the store. */
    method Do(op: Op)
      requires forall r :: r in runs ==> runs[r].runId == r
      modifies this
      ensures View() == Exec(sha, old(View()), op)
    {
      hide Append;
      match op {
        case DoStart(run, now) => var r := StartRun(run, now);
        case DoCommit(r, o, p, now) => var res := CommitRun(r, o, p, now);
        case DoRollback(annotate, r, o, p, reason, now) => var res := RollbackRun(annotate, r, o, p, reason, now);
        case DoAppend(r, o, p, batch, clock) => var res := AppendEvents(r, o, p, batch, clock);
        case DoAbort(n) => globalSeq := globalSeq + n;
        case DoReopen => globalSeq := savedSeq;
      }
    }

    /**
      A reader follows next cursors while the store goes on working: pages and operations in any order. What the reader
      has is always the beginning of the run's events, so nothing repeats or is skipped; once a page comes without a
      next cursor it has every event that was there at the start.
     */
    method Browse(runId: string, orgId: string, projectId: string, turns: seq<Turn>, ghost log: Log)
      returns (got: seq<Event>, done: bool, ghost after: Log)
      requires Inv(sha, View(), log) && FindRun(View(), runId, orgId, projectId).Ok? && runId in log
      requires (forall r :: r in runs ==> ':' !in r) && (forall t :: t in turns ==> TurnOk(t))
      requires globalSeq + TurnDemands(turns) + 1 < LIMIT
      modifies this
      ensures Inv(sha, View(), after) && runId in after && log[runId] <= after[runId]
      ensures got <= after[runId] && (done ==> log[runId] <= got)
    {
      hide Inv, IsPage, Session, Exec, ExecLog, Lists, FindRun, Collected;
      ghost var visits: seq<Visit> := [];
      EmptySession();
      got, done, after := [], false, log;
      var cursor: Option<nat> := None;
      DemandsFrom(turns, 0);
      for i := 0 to |turns|
        invariant Inv(sha, View(), after) && FindRun(View(), runId, orgId, projectId).Ok? && runId in after
        invariant (forall r :: r in runs ==> ':' !in r) && globalSeq + TurnDemands(turns[i..]) + 1 < LIMIT
        invariant log[runId] <= after[runId]
        invariant Session(visits) && got == Collected(visits)
        invariant cursor == (if visits == [] then None else visits[|visits| - 1].next)
        invariant visits != [] ==> log[runId] <= visits[0].evs && visits[|visits| - 1].evs <= after[runId]
        invariant done <==> visits != [] && cursor.None?
        invariant cursor.Some? ==> cursor.value + 1 < LIMIT
      {
        assert turns[i] in turns;
        DemandsFrom(turns, i);
        if turns[i].Work? {
          WorkExtends(sha, View(), after, turns[i].op, runId, orgId, projectId);
          after := ExecLog(sha, View(), after, turns[i].op);
          Do(turns[i].op);
        } else if !done {
          ghost var evs := after[runId];
          InvLists(sha, View(), after, runId, orgId, projectId);
          var page := Timeline(runId, orgId, projectId, turns[i].limit, cursor, evs);
          ghost var v := Visit(evs, turns[i].limit, page.value.events, page.value.next);
          SessionGrows(visits, v);
          visits := visits + [v];
          CursorBelow(visits, LIMIT - 2);
          got := got + page.value.events;
          cursor := page.value.next;
          done := cursor.None?;
        }
      }
      BrowseEnds(visits, log[runId], after[runId], done);
    }
  }

  /** A turn of a busy store: an operation, or the reader's next page. */
  datatype Turn = Work(op: Op) | Read(limit: nat)

  predicate TurnOk(t: Turn) {
    match t
    case Work(op) => StartsEmpty(op) && (op.DoStart? ==> ':' !in op.run.runId)
    case Read(limit) => limit >= 1
  }

  function TurnDemands(turns: seq<Turn>): nat {
    if turns == [] then 0 else (if turns[0].Work? then Demand(turns[0].op) else 0) + TurnDemands(turns[1..])
  }

  lemma DemandsFrom(turns: seq<Turn>, i: nat)
    requires i <= |turns|
    ensures turns[0..] == turns
    ensures i < |turns| ==>
      TurnDemands(turns[i..]) == (if turns[i].Work? then Demand(turns[i].op) else 0) + TurnDemands(turns[i + 1..])
  {
    if i < |turns| { assert turns[i..][0] == turns[i] && turns[i..][1..] == turns[i + 1..]; }
  }

  /** What one operation leaves for a reader of a run: more of the same events, and the run where it was. */
  lemma WorkExtends(sha: Digest, s: Store, log: Log, op: Op, runId: string, orgId: string, projectId: string)
    requires Inv(sha, s, log) && StartsEmpty(op) && s.globalSeq + Demand(op) < LIMIT && (op.DoStart? ==> ':' !in op.run.runId)
    requires FindRun(s, runId, orgId, projectId).Ok? && runId in log && forall r :: r in s.runs ==> ':' !in r
    ensures (forall r :: r in s.runs ==> s.runs[r].runId == r)
    ensures var t, after := Exec(sha, s, op), ExecLog(sha, s, log, op);
      && Inv(sha, t, after) && runId in after && log[runId] <= after[runId] && t.globalSeq <= s.globalSeq + Demand(op)
      && FindRun(t, runId, orgId, projectId).Ok? && (forall r :: r in t.runs ==> ':' !in r)
  {
    hide Inv, Exec, ExecLog;
    RunIdKept(sha, s, log);
    ExecKeeps(sha, s, log, op);
    ExecExtends(sha, s, log, op);
    StoreResend.ExecKeepsRun(sha, s, op, runId);
    ExecRuns(sha, s, op);
  }

  /** Only a start adds a run. */
  lemma ExecRuns(sha: Digest, s: Store, op: Op)
    requires forall r :: r in s.runs ==> s.runs[r].runId == r
    ensures forall r :: r in Exec(sha, s, op).runs ==> r in s.runs || (op.DoStart? && r == op.run.runId)
  {
    hide Ingest, WriteEvents, Advance;
    if op.DoAppend? && FindRun(s, op.runId, op.orgId, op.projectId).Ok? {
      var run := s.runs[op.runId];
      var p := Ingest(sha, s.idem, run, Begin(s, run), op.events, op.clock);
      AdvanceKeeps(run.(lastEventHash := p.prev, eventCount := run.eventCount + |p.added|), op.events, op.clock(|op.events|));
    }
  }

  lemma InvLists(sha: Digest, s: Store, log: Log, runId: string, orgId: string, projectId: string)
    requires Inv(sha, s, log) && s.globalSeq + 1 < LIMIT && (forall r :: r in s.runs ==> ':' !in r) && runId in log
    requires FindRun(s, runId, orgId, projectId).Ok?
    ensures Lists(s, runId, log[runId]) && Rising(log[runId]) && forall e :: e in log[runId] ==> e.sequence <= LIMIT - 2
  {
    hide Chain, TableInv, IndexInv;
    StoreLists(sha, s, log, runId);
    NumbersBelow(sha, s, log, runId);
  }

  lemma BrowseEnds(visits: seq<Visit>, first: seq<Event>, last: seq<Event>, done: bool)
    requires Session(visits) && first <= last
    requires visits != [] ==> first <= visits[0].evs && visits[|visits| - 1].evs <= last
    requires done ==> visits != [] && visits[|visits| - 1].next.None?
    ensures Collected(visits) <= last && (done ==> first <= Collected(visits))
  {
    if visits != [] {
      SessionCollects(visits);
      hide Session, Collected;
    }
  }

  /** The store's fields on an event, before its hash. */
  function Fill(run: AgentRun, ev: Event, n: nat, now: nat, prev: string): Event {
    var e := ev.(sequence := n, ingestedAt := now);
    var e1 := if e.occurredAt == 0 then e.(occurredAt := e.ingestedAt) else e;
    var e2 := e1.(orgId := run.orgId, projectId := run.projectId, runId := run.runId, environment := run.environment);
    var e3 := if e2.schemaVersion == "" then e2.(schemaVersion := "2026-05-01") else e2;
    var e4 := if e3.payloadMode == "" then e3.(payloadMode := "metadata_only") else e3;
    e4.(previousEventHash := prev)
  }

  lemma IngestSnoc(sha: Digest, idem: map<string, string>, run: AgentRun, start: Pass, batch: seq<Event>, clock: Clock, i: nat)
    requires i < |batch|
    ensures Ingest(sha, idem, run, start, batch[..i + 1], clock)
      == Step(sha, idem, run, Ingest(sha, idem, run, start, batch[..i], clock), batch[i], clock(i))
  {
    hide Step;
    assert batch[..i + 1][..i] == batch[..i];
  }

  lemma IngestNone(sha: Digest, idem: map<string, string>, run: AgentRun, start: Pass, clock: Clock)
    ensures Ingest(sha, idem, run, start, [], clock) == start
  {
  }

  lemma FillStamps(sha: Digest, run: AgentRun, ev: Event, n: nat, now: nat, prev: string)
    ensures var e := Fill(run, ev, n, now, prev);
      e.(eventHash := Sha256Hex(sha, Canonical(e))) == Stamp(sha, run, ev, n, now, prev)
  {
    hide Canonical;
  }

  lemma {:induction false} WriteIgnores(s: Store, t: Store, added: seq<Event>)
    requires t == s.(globalSeq := t.globalSeq)
    ensures WriteEvents(t, added) == WriteEvents(s, added).(globalSeq := t.globalSeq)
    decreases |added|
  {
    if added != [] { WriteIgnores(s, t, added[..|added| - 1]); }
  }

  lemma PageSnoc(evs: seq<Event>, k0: nat, k: nat)
    requires k0 <= k < |evs|
    ensures evs[k0..k + 1] == evs[k0..k] + [evs[k]] && LastNumber(evs[k0..k + 1]) == evs[k].sequence
  {
  }

  /** A walk that stopped because the page was full, or because no event was left, is a correct page. */
  lemma PageDone(evs: seq<Event>, limit: nat, cursor: Option<nat>, k0: nat, k: nat, valid: bool)
    requires k0 <= k <= |evs| && After(evs, cursor) == evs[k0..] && k - k0 <= limit
    requires k == |evs| || (k - k0 == limit && valid)
    ensures var page := evs[k0..k];
      IsPage(evs, limit, cursor, page, if |page| == limit && valid then Some(LastNumber(page)) else None)
  {
    hide After;
    assert evs[k0..][..k - k0] == evs[k0..k];
    assert k == |evs| ==> evs[k0..k] == evs[k0..];
  }

  /** The table answers every event of the list under its own number. */
  ghost predicate Served(events: map<string, Event>, evs: seq<Event>) {
    forall e :: e in evs ==> SeqKey(e.sequence) in events && events[SeqKey(e.sequence)] == e
  }

  /**
    What the index and the event table hold for a run. It says nothing of hashes: an event whose fields were altered
    in the table, other than its number, is listed as it is.
   */
  ghost predicate Lists(s: Store, runId: string, evs: seq<Event>) {
    RunSlice(s.byRun, runId, evs) && Served(s.events, evs)
  }

  lemma SliceRises(keys: seq<string>, runId: string, evs: seq<Event>)
    requires RunSlice(keys, runId, evs)
    ensures Rising(evs)
  {
    hide Rising, Ascending;
  }

  lemma SliceAscends(keys: seq<string>, runId: string, evs: seq<Event>)
    requires RunSlice(keys, runId, evs)
    ensures Ascending(keys)
  {
    hide Rising, Ascending;
  }

  lemma ListsRise(s: Store, runId: string, evs: seq<Event>)
    requires Lists(s, runId, evs)
    ensures Rising(evs)
  {
    hide Rising, Served;
    SliceRises(s.byRun, runId, evs);
  }

  /** A reachable store lists for every run what its log has, and verification of that accepts. */
  lemma StoreLists(sha: Digest, s: Store, log: Log, runId: string)
    requires Inv(sha, s, log) && s.savedSeq < LIMIT && runId in s.runs && (forall r :: r in s.runs ==> ':' !in r)
    ensures runId in log && Lists(s, runId, log[runId]) && forall n: nat :: Chain(sha, Take(log[runId], n))
  {
    hide Inv, SeqKey, Chain, Pow256, RunSlice;
    ChainOf(sha, s, log, runId);
    RunSliceOf(sha, s, log, runId);
    forall n: nat ensures Chain(sha, Take(log[runId], n)) {
      ChainTake(sha, log[runId], n);
    }
  }

  lemma ServedAt(events: map<string, Event>, keys: seq<string>, runId: string, evs: seq<Event>, idx: nat, k: nat)
    requires Served(events, evs) && RunSlice(keys, runId, evs) && At(keys, runId, evs, idx, k) && k < |evs|
    ensures idx < |keys| && |Prefix(runId)| <= |keys[idx]|
    ensures SeqOf(keys[idx][|Prefix(runId)|..]) == evs[k].sequence
    ensures SeqKey(evs[k].sequence) in events && events[SeqKey(evs[k].sequence)] == evs[k]
  {
    hide SeqKey, SeqOf, Pow256, Ascending;
    assert evs[k] in evs;
    KeyNumber(runId, evs[k].sequence);
  }

  lemma LastOfNone()
    ensures LastNumber([]) == 0
  {
  }

  lemma KeyNumber(runId: string, n: nat)
    requires n < Pow256(8)
    ensures |RunKey(runId, n)| == |Prefix(runId)| + 8 && StartsWith(RunKey(runId, n), Prefix(runId))
    ensures SeqOf(RunKey(runId, n)[|Prefix(runId)|..]) == n
  {
    SeqKeyRoundTrip(n);
    assert RunKey(runId, n)[|Prefix(runId)|..] == SeqKey(n);
  }

  lemma AtKey(keys: seq<string>, runId: string, evs: seq<Event>, idx: nat, k: nat)
    requires At(keys, runId, evs, idx, k) && RunSlice(keys, runId, evs) && idx < |keys|
    ensures k < |evs| <==> StartsWith(keys[idx], Prefix(runId))
    ensures k < |evs| ==> keys[idx] == RunKey(runId, evs[k].sequence) && |keys[idx]| == |Prefix(runId)| + 8
  {
    if k < |evs| {
      assert evs[k] in evs;
      KeyNumber(runId, evs[k].sequence);
    }
  }

  lemma AtEnd(keys: seq<string>, runId: string, evs: seq<Event>, idx: nat, k: nat)
    requires At(keys, runId, evs, idx, k)
    ensures idx == |keys| ==> k == |evs|
  {
  }

  lemma PageIsPrefix(evs: seq<Event>, limit: nat, events: seq<Event>, next: Option<nat>)
    requires IsPage(evs, limit, None, events, next)
    ensures events == Take(evs, limit)
  {
  }

  lemma ChainOf(sha: Digest, s: Store, log: Log, runId: string)
    requires Inv(sha, s, log) && runId in s.runs
    ensures runId in log && Chain(sha, log[runId])
  {
  }

  lemma ChainTake(sha: Digest, evs: seq<Event>, n: nat)
    requires Chain(sha, evs)
    ensures Chain(sha, Take(evs, n))
  {
    if n < |evs| { PrefixChain(sha, evs, n); }
  }

  lemma EmptySession()
    ensures Session([]) && Collected([]) == []
  {
  }

  lemma NumbersBelow(sha: Digest, s: Store, log: Log, runId: string)
    requires Inv(sha, s, log) && runId in s.runs
    ensures runId in log && Rising(log[runId]) && forall e :: e in log[runId] ==> e.sequence <= s.savedSeq
  {
  }

  lemma SessionGrows(vs: seq<Visit>, v: Visit)
    requires Session(vs) && v.limit >= 1 && Rising(v.evs)
    requires vs != [] ==> vs[|vs| - 1].next.Some? && vs[|vs| - 1].evs <= v.evs
    requires IsPage(v.evs, v.limit, if vs == [] then None else vs[|vs| - 1].next, v.events, v.next)
    ensures Session(vs + [v]) && Collected(vs + [v]) == Collected(vs) + v.events
  {
    hide IsPage, Rising, Collected;
    CollectedSnoc(vs, v);
    SessionSnoc(vs, v);
  }

  lemma SessionSnoc(vs: seq<Visit>, v: Visit)
    requires Session(vs)
    requires if vs == [] then VisitOk(v, None) else Follows(vs[|vs| - 1], v)
    ensures Session(vs + [v])
  {
    hide VisitOk, Follows;
    var all := vs + [v];
    forall i | 0 <= i < |all| ensures LinkAt(all, i) {
      if i < |vs| { assert LinkAt(vs, i); }
    }
  }

  lemma CollectedSnoc(vs: seq<Visit>, v: Visit)
    ensures Collected(vs + [v]) == Collected(vs) + v.events
  {
    assert (vs + [v])[..|vs|] == vs;
  }

  lemma CursorBelow(vs: seq<Visit>, bound: nat)
    requires Session(vs) && vs != [] && forall e :: e in vs[|vs| - 1].evs ==> e.sequence <= bound
    ensures vs[|vs| - 1].next.Some? ==> vs[|vs| - 1].next.value <= bound
  {
    SessionCollects(vs);
    var got, evs := Collected(vs), vs[|vs| - 1].evs;
    if got != [] { assert evs[|got| - 1] in evs; }
  }
}
