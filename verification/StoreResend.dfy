/** Sending a batch again: the idempotency table makes it a no-op (core/src/event_store.cpp, append_events). */
module StoreResend {
  import opened CanonicalEvent
  import opened HashChain
  import opened StoreInvariants
  import opened StoreRules

  /** The table answers this key with this event id and hash. */
  ghost predicate Bound(idem: map<string, string>, key: string, id: string, h: string) {
    Lookup(idem, key) == id && Lookup(idem, key + ":hash") == h
  }

  /** No event's key is the hash entry of this key, nor the other way round. */
  ghost predicate NoClash(key: string, events: seq<Event>) {
    forall e :: e in events && e.idempotencyKey != "" ==>
      e.idempotencyKey + ":hash" != key && e.idempotencyKey != key + ":hash"
  }

  ghost predicate DistinctKeys(events: seq<Event>) {
    && (forall i :: 0 <= i < |events| ==> events[i].idempotencyKey != "")
    && (forall i, j :: 0 <= i < j < |events| ==> events[i].idempotencyKey != events[j].idempotencyKey)
  }

  lemma SameSuffix(a: string, b: string)
    requires a + ":hash" == b + ":hash"
    ensures a == b
  {
    assert (a + ":hash")[..|a|] == a && (b + ":hash")[..|b|] == b;
  }

  // ---- what a pass adds ----

  /** Every added event comes from an unknown event of the batch, with its key and id. */
  lemma {:induction false} AddedFrom(sha: Digest, idem: map<string, string>, run: AgentRun, start: Pass, events: seq<Event>, clock: Clock)
    requires start.added == []
    ensures forall e :: e in Ingest(sha, idem, run, start, events, clock).added ==>
      exists ev :: ev in events && !Known(idem, ev) && ev.idempotencyKey == e.idempotencyKey
    decreases |events|
  {
    hide EventHash;
    if events != [] {
      var n := |events| - 1;
      AddedFrom(sha, idem, run, start, events[..n], clock);
      var before := Ingest(sha, idem, run, start, events[..n], clock).added;
      forall e | e in Ingest(sha, idem, run, start, events, clock).added
        ensures exists ev :: ev in events && !Known(idem, ev) && ev.idempotencyKey == e.idempotencyKey
      {
        if e in before {
          var ev :| ev in events[..n] && !Known(idem, ev) && ev.idempotencyKey == e.idempotencyKey;
          assert ev in events;
        } else {
          assert events[n] in events;
        }
      }
    }
  }

  lemma {:induction false} AddedNothing(sha: Digest, idem: map<string, string>, run: AgentRun, start: Pass, events: seq<Event>, clock: Clock)
    requires start.added == []
    ensures var p := Ingest(sha, idem, run, start, events, clock);
      && (p.added == [] <==> forall i :: 0 <= i < |events| ==> Known(idem, events[i]))
      && (p.added == [] ==> p.prev == start.prev && p.last == start.last)
    decreases |events|
  {
    hide EventHash, Stamp;
    if events != [] { AddedNothing(sha, idem, run, start, events[..|events| - 1], clock); }
  }

  /** Added keys are distinct when the batch's are. */
  lemma {:induction false} AddedDistinct(sha: Digest, idem: map<string, string>, run: AgentRun, start: Pass, events: seq<Event>, clock: Clock)
    requires start.added == [] && DistinctKeys(events)
    ensures DistinctKeys(Ingest(sha, idem, run, start, events, clock).added)
    decreases |events|
  {
    hide Step, DistinctKeys;
    if events != [] {
      var n := |events| - 1;
      var p := Ingest(sha, idem, run, start, events[..n], clock);
      KeysBefore(events, n);
      AddedDistinct(sha, idem, run, start, events[..n], clock);
      AddedFrom(sha, idem, run, start, events[..n], clock);
      forall j | 0 <= j < |p.added| ensures p.added[j].idempotencyKey != events[n].idempotencyKey {
        assert p.added[j] in p.added;
        var ev :| ev in events[..n] && ev.idempotencyKey == p.added[j].idempotencyKey;
      }
      StepDistinct(sha, idem, run, p, events[n], clock(n));
    } else {
      NoKeys();
    }
  }

  lemma NoKeys()
    ensures DistinctKeys([])
  {
  }

  lemma KeysBefore(events: seq<Event>, n: nat)
    requires DistinctKeys(events) && n < |events|
    ensures DistinctKeys(events[..n]) && events[n].idempotencyKey != ""
    ensures forall ev :: ev in events[..n] ==> ev.idempotencyKey != events[n].idempotencyKey
  {
    forall ev | ev in events[..n] ensures ev.idempotencyKey != events[n].idempotencyKey {
      var i :| 0 <= i < n && events[i] == ev;
    }
  }

  lemma StepDistinct(sha: Digest, idem: map<string, string>, run: AgentRun, p: Pass, ev: Event, now: nat)
    requires DistinctKeys(p.added) && ev.idempotencyKey != ""
    requires forall j :: 0 <= j < |p.added| ==> p.added[j].idempotencyKey != ev.idempotencyKey
    ensures DistinctKeys(Step(sha, idem, run, p, ev, now).added)
  {
    hide EventHash, DistinctKeys;
    DistinctSnoc(p.added, Stamp(sha, run, ev, p.last + 1, now, p.prev));
  }

  predicate Wrote(e: Event, ev: Event, r: Inserted) {
    e.idempotencyKey == ev.idempotencyKey && e.eventId == ev.eventId && r == Inserted(e.eventId, e.eventHash, false)
  }

  lemma DistinctSnoc(added: seq<Event>, e: Event)
    requires DistinctKeys(added) && e.idempotencyKey != ""
    requires forall j :: 0 <= j < |added| ==> added[j].idempotencyKey != e.idempotencyKey
    ensures DistinctKeys(added + [e])
  {
  }

  /** Where the i-th result comes from: the table, or an added event. */
  ghost predicate Source(idem: map<string, string>, ev: Event, r: Inserted, p: Pass) {
    if Known(idem, ev) then r == Inserted(Lookup(idem, ev.idempotencyKey), Lookup(idem, ev.idempotencyKey + ":hash"), true)
    else exists e :: e in p.added && Wrote(e, ev, r)
  }

  lemma SourceStays(idem: map<string, string>, ev: Event, r: Inserted, p: Pass, q: Pass)
    requires Source(idem, ev, r, p) && p.added <= q.added
    ensures Source(idem, ev, r, q)
  {
    if !Known(idem, ev) {
      var e :| e in p.added && Wrote(e, ev, r);
      assert e in q.added;
    }
  }

  lemma SourceNew(sha: Digest, idem: map<string, string>, run: AgentRun, p: Pass, ev: Event, now: nat)
    ensures var q := Step(sha, idem, run, p, ev, now);
      p.added <= q.added && |q.results| == |p.results| + 1 && q.results[..|p.results|] == p.results
      && Source(idem, ev, q.results[|p.results|], q)
  {
    hide EventHash;
    if !Known(idem, ev) {
      var e := Stamp(sha, run, ev, p.last + 1, now, p.prev);
      assert e in Step(sha, idem, run, p, ev, now).added;
    }
  }

  lemma {:induction false} ResultSources(sha: Digest, idem: map<string, string>, run: AgentRun, start: Pass, events: seq<Event>, clock: Clock, i: nat)
    requires start.results == [] && i < |events|
    ensures var p := Ingest(sha, idem, run, start, events, clock); Source(idem, events[i], p.results[i], p)
    decreases |events|
  {
    hide Source, Step;
    var n := |events| - 1;
    var before := Ingest(sha, idem, run, start, events[..n], clock);
    SourceNew(sha, idem, run, before, events[n], clock(n));
    if i < n {
      ResultSources(sha, idem, run, start, events[..n], clock, i);
      SourceStays(idem, events[i], before.results[i], before, Step(sha, idem, run, before, events[n], clock(n)));
    }
  }

  // ---- the table after a write ----

  /** Writing events leaves the entries of other keys alone. */
  lemma {:induction false} IdemKept(s: Store, added: seq<Event>, key: string)
    requires NoClash(key, added) && key != "" && forall e :: e in added ==> e.idempotencyKey != key
    ensures var t := WriteEvents(s, added).idem;
      Lookup(t, key) == Lookup(s.idem, key) && Lookup(t, key + ":hash") == Lookup(s.idem, key + ":hash")
    decreases |added|
  {
    if added != [] {
      var front, e := added[..|added| - 1], added[|added| - 1];
      assert forall x :: x in front ==> x in added;
      IdemKept(s, front, key);
      assert e in added;
      if e.idempotencyKey + ":hash" == key + ":hash" { SameSuffix(e.idempotencyKey, key); }
    }
  }

  /** A written event's entry answers with that event, when no later one shares its key. */
  lemma {:induction false} IdemWritten(s: Store, added: seq<Event>, e: Event)
    requires e in added && DistinctKeys(added) && NoClash(e.idempotencyKey, added)
    ensures Bound(WriteEvents(s, added).idem, e.idempotencyKey, e.eventId, e.eventHash)
    decreases |added|
  {
    var front, last, key := added[..|added| - 1], added[|added| - 1], e.idempotencyKey;
    assert last in added;
    var before := WriteEvents(s, front);
    if last == e {
      assert key + ":hash" != key;
    } else {
      assert e in front;
      assert forall x :: x in front ==> x in added;
      IdemWritten(s, front, e);
      assert last.idempotencyKey != key;
      if last.idempotencyKey + ":hash" == key + ":hash" { SameSuffix(last.idempotencyKey, key); }
    }
  }

  lemma NoClashFrom(key: string, events: seq<Event>, added: seq<Event>)
    requires NoClash(key, events)
    requires forall e :: e in added ==> exists ev :: ev in events && ev.idempotencyKey == e.idempotencyKey
    ensures NoClash(key, added)
  {
  }

  /** A bound key stays bound through every operation. */
  lemma ExecBound(sha: Digest, s: Store, op: Op, key: string, id: string, h: string)
    requires key != "" && id != "" && Bound(s.idem, key, id, h) && (op.DoAppend? ==> NoClash(key, op.events))
    ensures Bound(Exec(sha, s, op).idem, key, id, h)
  {
    hide Ingest, WriteEvents, NoClash;
    if op.DoAppend? {
      var found := FindRun(s, op.runId, op.orgId, op.projectId);
      if found.Ok? {
        var run := found.value;
        AddedFrom(sha, s.idem, run, Begin(s, run), op.events, op.clock);
        var added := Ingest(sha, s.idem, run, Begin(s, run), op.events, op.clock).added;
        NoClashFrom(key, op.events, added);
        IdemKept(s, added, key);
      }
    }
  }

  function ExecAll(sha: Digest, s: Store, ops: seq<Op>): Store {
    if ops == [] then s else Exec(sha, ExecAll(sha, s, ops[..|ops| - 1]), ops[|ops| - 1])
  }

  lemma {:induction false} ExecAllBound(sha: Digest, s: Store, ops: seq<Op>, key: string, id: string, h: string)
    requires key != "" && id != "" && Bound(s.idem, key, id, h)
    requires forall op :: op in ops && op.DoAppend? ==> NoClash(key, op.events)
    ensures Bound(ExecAll(sha, s, ops).idem, key, id, h)
    decreases |ops|
  {
    hide Exec, Bound, NoClash;
    if ops != [] {
      var n := |ops| - 1;
      assert ops[n] in ops && forall op :: op in ops[..n] ==> op in ops;
      ExecAllBound(sha, s, ops[..n], key, id, h);
      ExecBound(sha, ExecAll(sha, s, ops[..n]), ops[n], key, id, h);
    }
  }

  // ---- sending again ----

  /** After a batch with distinct keys is stored, each key is bound to the id and hash its result named. */
  lemma AppendBinds(sha: Digest, s: Store, runId: string, orgId: string, projectId: string, events: seq<Event>, clock: Clock, i: nat)
    requires FindRun(s, runId, orgId, projectId).Ok? && DistinctKeys(events) && i < |events|
    requires NoClash(events[i].idempotencyKey, events)
    ensures var done := Append(sha, s, runId, orgId, projectId, events, clock);
      && Bound(done.0.idem, events[i].idempotencyKey, done.1.value[i].eventId, done.1.value[i].eventHash)
      && (done.1.value[i].eventId == "" <==> !Known(s.idem, events[i]) && events[i].eventId == "")
  {
    hide Ingest, WriteEvents, Advance, NoClash;
    var run, key := s.runs[runId], events[i].idempotencyKey;
    var p := Ingest(sha, s.idem, run, Begin(s, run), events, clock);
    ResultSources(sha, s.idem, run, Begin(s, run), events, clock, i);
    AddedFrom(sha, s.idem, run, Begin(s, run), events, clock);
    NoClashFrom(key, events, p.added);
    if Known(s.idem, events[i]) {
      IdemKept(s, p.added, key);
    } else {
      var e :| e in p.added && Wrote(e, events[i], p.results[i]);
      AddedDistinct(sha, s.idem, run, Begin(s, run), events, clock);
      IdemWritten(s, p.added, e);
    }
  }

  /** The whole store but for the run's status and end time and the saved counter. */
  ghost predicate SameButStatus(s: Store, t: Store, runId: string) {
    && t.events == s.events && t.byRun == s.byRun && t.byType == s.byType && t.idem == s.idem
    && t.globalSeq == s.globalSeq && t.runs.Keys == s.runs.Keys
    && (forall r :: r in s.runs && r != runId ==> t.runs[r] == s.runs[r])
    && (runId in s.runs ==> t.runs[runId].lastEventHash == s.runs[runId].lastEventHash)
    && (runId in s.runs ==> t.runs[runId].eventCount == s.runs[runId].eventCount)
  }

  function Answer(idem: map<string, string>, key: string): Inserted {
    Inserted(Lookup(idem, key), Lookup(idem, key + ":hash"), true)
  }

  /** A batch whose keys are all known adds nothing and is answered from the table. */
  lemma AllKnown(sha: Digest, s: Store, runId: string, orgId: string, projectId: string, events: seq<Event>, clock: Clock)
    requires FindRun(s, runId, orgId, projectId).Ok? && s.runs[runId].runId == runId
    requires forall i :: 0 <= i < |events| ==> Known(s.idem, events[i])
    ensures var done := Append(sha, s, runId, orgId, projectId, events, clock);
      && SameButStatus(s, done.0, runId)
      && forall i :: 0 <= i < |events| ==> done.1.value[i] == Answer(s.idem, events[i].idempotencyKey)
  {
    hide Ingest, Advance;
    var run := s.runs[runId];
    var p := Ingest(sha, s.idem, run, Begin(s, run), events, clock);
    AddedNothing(sha, s.idem, run, Begin(s, run), events, clock);
    AdvanceKeeps(run.(lastEventHash := p.prev, eventCount := run.eventCount + |p.added|), events, clock(|events|));
    forall i | 0 <= i < |events| ensures Source(s.idem, events[i], p.results[i], p) {
      ResultSources(sha, s.idem, run, Begin(s, run), events, clock, i);
    }
  }

  /** Runs never move to another organisation or project, nor disappear. */
  lemma ExecKeepsRun(sha: Digest, s: Store, op: Op, runId: string)
    requires (forall r :: r in s.runs ==> s.runs[r].runId == r) && runId in s.runs
    ensures var t := Exec(sha, s, op);
      && (forall r :: r in t.runs ==> t.runs[r].runId == r)
      && runId in t.runs && t.runs[runId].orgId == s.runs[runId].orgId && t.runs[runId].projectId == s.runs[runId].projectId
  {
    hide Append;
    if op.DoAppend? { AppendKeepsRun(sha, s, op.runId, op.orgId, op.projectId, op.events, op.clock, runId); }
  }

  lemma AppendKeepsRun(sha: Digest, s: Store, at: string, orgId: string, projectId: string, events: seq<Event>, clock: Clock,
                       runId: string)
    requires (forall r :: r in s.runs ==> s.runs[r].runId == r) && runId in s.runs
    ensures var t := Append(sha, s, at, orgId, projectId, events, clock).0;
      && (forall r :: r in t.runs ==> t.runs[r].runId == r)
      && runId in t.runs && t.runs[runId].orgId == s.runs[runId].orgId && t.runs[runId].projectId == s.runs[runId].projectId
  {
    hide Ingest, Advance, WriteEvents;
    var found := FindRun(s, at, orgId, projectId);
    if found.Ok? {
      var run := found.value;
      var p := Ingest(sha, s.idem, run, Begin(s, run), events, clock);
      AdvanceKeeps(run.(lastEventHash := p.prev, eventCount := run.eventCount + |p.added|), events, clock(|events|));
    }
  }

  lemma {:induction false} ExecAllKeepsRun(sha: Digest, s: Store, ops: seq<Op>, runId: string)
    requires (forall r :: r in s.runs ==> s.runs[r].runId == r) && runId in s.runs
    ensures var t := ExecAll(sha, s, ops);
      && (forall r :: r in t.runs ==> t.runs[r].runId == r)
      && runId in t.runs && t.runs[runId].orgId == s.runs[runId].orgId && t.runs[runId].projectId == s.runs[runId].projectId
    decreases |ops|
  {
    hide Exec;
    if ops != [] {
      var n := |ops| - 1;
      ExecAllKeepsRun(sha, s, ops[..n], runId);
      ExecKeepsRun(sha, ExecAll(sha, s, ops[..n]), ops[n], runId);
    }
  }

  /**
    Sending a stored batch again, after any later operations, answers every event with the id and hash it had and
    leaves events, indexes, idempotency table, chain head and event count as they are. Keys are distinct and not
    empty, no result had an empty id, and nobody uses the hash entry of another key as a key.
   */
  lemma Resend(sha: Digest, s: Store, runId: string, orgId: string, projectId: string, events: seq<Event>, clock: Clock,
               ops: seq<Op>, later: Clock)
    requires FindRun(s, runId, orgId, projectId).Ok? && forall r :: r in s.runs ==> s.runs[r].runId == r
    requires DistinctKeys(events) && forall e :: e in events ==> NoClash(e.idempotencyKey, events)
    requires forall e, op :: e in events && op in ops && op.DoAppend? ==> NoClash(e.idempotencyKey, op.events)
    requires forall i :: 0 <= i < |events| ==> Append(sha, s, runId, orgId, projectId, events, clock).1.value[i].eventId != ""
    ensures var first := Append(sha, s, runId, orgId, projectId, events, clock);
            var t := ExecAll(sha, first.0, ops);
            var again := Append(sha, t, runId, orgId, projectId, events, later);
      && again.1.Ok? && |again.1.value| == |first.1.value| == |events|
      && (forall i :: 0 <= i < |events| ==> again.1.value[i] == first.1.value[i].(duplicate := true))
      && SameButStatus(t, again.0, runId)
  {
    hide ExecAll, Append, DistinctKeys, NoClash, SameButStatus;
    var first := Append(sha, s, runId, orgId, projectId, events, clock);
    AppendShape(sha, s, runId, orgId, projectId, events, clock);
    var t := ExecAll(sha, first.0, ops);
    ExecAllKeepsRun(sha, first.0, ops, runId);
    forall i | 0 <= i < |events|
      ensures Known(t.idem, events[i])
      ensures Answer(t.idem, events[i].idempotencyKey) == first.1.value[i].(duplicate := true)
    {
      assert events[i] in events;
      AppendBinds(sha, s, runId, orgId, projectId, events, clock, i);
      KeyNotEmpty(events, i);
      ExecAllBound(sha, first.0, ops, events[i].idempotencyKey, first.1.value[i].eventId, first.1.value[i].eventHash);
    }
    AllKnown(sha, t, runId, orgId, projectId, events, later);
    AppendShape(sha, t, runId, orgId, projectId, events, later);
  }

  lemma KeyNotEmpty(events: seq<Event>, i: nat)
    requires DistinctKeys(events) && i < |events|
    ensures events[i].idempotencyKey != ""
  {
  }

  lemma AppendShape(sha: Digest, s: Store, runId: string, orgId: string, projectId: string, events: seq<Event>, clock: Clock)
    requires FindRun(s, runId, orgId, projectId).Ok? && forall r :: r in s.runs ==> s.runs[r].runId == r
    ensures var done := Append(sha, s, runId, orgId, projectId, events, clock);
      && done.1.Ok? && |done.1.value| == |events|
      && FindRun(done.0, runId, orgId, projectId).Ok? && forall r :: r in done.0.runs ==> done.0.runs[r].runId == r
  {
    hide Ingest, Advance, WriteEvents;
    AppendKeepsRun(sha, s, runId, orgId, projectId, events, clock, runId);
  }

  /** Sent again at once, a batch adds nothing exactly when each event has an id or was known the first time. */
  lemma ResendExact(sha: Digest, s: Store, runId: string, orgId: string, projectId: string, events: seq<Event>, clock: Clock,
                    later: Clock)
    requires FindRun(s, runId, orgId, projectId).Ok? && forall r :: r in s.runs ==> s.runs[r].runId == r
    requires DistinctKeys(events) && forall e :: e in events ==> NoClash(e.idempotencyKey, events)
    ensures var t := Append(sha, s, runId, orgId, projectId, events, clock).0;
            var again := Append(sha, t, runId, orgId, projectId, events, later).0;
      again.runs[runId].eventCount == t.runs[runId].eventCount <==>
      forall i :: 0 <= i < |events| ==> events[i].eventId != "" || Known(s.idem, events[i])
  {
    hide Append, Ingest, DistinctKeys, NoClash;
    var first := Append(sha, s, runId, orgId, projectId, events, clock);
    AppendShape(sha, s, runId, orgId, projectId, events, clock);
    var t := first.0;
    forall i | 0 <= i < |events|
      ensures Known(t.idem, events[i]) <==> events[i].eventId != "" || Known(s.idem, events[i])
    {
      assert events[i] in events;
      AppendBinds(sha, s, runId, orgId, projectId, events, clock, i);
      KeyNotEmpty(events, i);
    }
    AddedNothing(sha, t.idem, t.runs[runId], Begin(t, t.runs[runId]), events, later);
    AppendCounts(sha, t, runId, orgId, projectId, events, later);
  }

  lemma AppendCounts(sha: Digest, s: Store, runId: string, orgId: string, projectId: string, events: seq<Event>, clock: Clock)
    requires FindRun(s, runId, orgId, projectId).Ok? && s.runs[runId].runId == runId
    ensures var t := Append(sha, s, runId, orgId, projectId, events, clock).0;
      var p := Ingest(sha, s.idem, s.runs[runId], Begin(s, s.runs[runId]), events, clock);
      runId in t.runs && t.runs[runId].eventCount == s.runs[runId].eventCount + |p.added|
  {
    hide Ingest, WriteEvents;
    var run := s.runs[runId];
    var p := Ingest(sha, s.idem, run, Begin(s, run), events, clock);
    AdvanceKeeps(run.(lastEventHash := p.prev, eventCount := run.eventCount + |p.added|), events, clock(|events|));
  }
}
