/**
  The SDK's side of event delivery (sdk/python/controldb/run.py) against the collector: events wait in a buffer,
  a flush posts the whole buffer, and a failed flush puts it back. Each post may be lost, answered, or processed
  with its answer lost.
 */
module Delivery {
  import opened Common
  import opened Decimal
  import opened Ingest

  /** What the network does with one attempt. */
  datatype Attempt = Lost | AckLost | Answered | Refused

  datatype Outcome = UnknownType | Closed | Raised | Done

  function Key(runId: string, step: nat, kind: string): string {
    runId + ":" + Dec(step) + ":" + kind
  }

  /** Keys of one run determine the step. */
  lemma KeyStep(runId: string, i: nat, k: string, j: nat, l: string)
    requires Key(runId, i, k) == Key(runId, j, l)
    ensures i == j
  {
    var x, y := ":" + k, ":" + l;
    var p := runId + ":";
    assert Key(runId, i, k)[|p|..] == Dec(i) + x && Key(runId, j, l)[|p|..] == Dec(j) + y;
    SpanStops(Dec(i), x);
    SpanStops(Dec(j), y);
    DecRoundTrip(i);
    DecRoundTrip(j);
  }

  /** The SDK's actor: a type and an id. */
  datatype Actor = Actor(kind: string, id: string)

  function ToDict(a: Actor): map<string, Option<string>> {
    map["type" := Some(a.kind), "id" := Some(a.id)]
  }

  /** A type and an id, and nothing else. */
  predicate ActorIs(d: map<string, Option<string>>, a: Actor) {
    d.Keys == {"type", "id"} && d["type"] == Some(a.kind) && d["id"] == Some(a.id)
  }

  lemma DictKeys(a: Actor)
    ensures ActorIs(ToDict(a), a)
  {
    assert "type"[0] != "id"[0];
  }

  /** Events numbered from zero, each with its own key, and nothing in them that the collector's columns drop. */
  ghost predicate Numbered(runId: string, emitted: seq<Sent>) {
    forall i :: 0 <= i < |emitted| ==>
      emitted[i].step == i && emitted[i].key == Key(runId, i, emitted[i].kind) && StoredAsSent(emitted[i])
  }

  ghost predicate ForeignKeys(runId: string, foreign: map<string, Receipt>) {
    forall k :: k in foreign ==> !StartsWith(k, runId + ":")
  }

  lemma NumberedOwnKeys(runId: string, emitted: seq<Sent>, foreign: map<string, Receipt>)
    requires Numbered(runId, emitted) && ForeignKeys(runId, foreign)
    ensures OwnKeys(emitted, foreign)
  {
    hide Key, StoredAsSent;
    forall i, j | 0 <= i < j < |emitted| ensures emitted[i].key != emitted[j].key {
      if emitted[i].key == emitted[j].key { KeyStep(runId, i, emitted[i].kind, j, emitted[j].kind); }
    }
    forall i | 0 <= i < |emitted| ensures emitted[i].key != "" && emitted[i].key !in foreign {
      KeyPrefix(runId, i, emitted[i].kind);
    }
    assert forall i :: 0 <= i < |emitted| ==> StoredAsSent(emitted[i]);
  }

  lemma KeyPrefix(runId: string, step: nat, kind: string)
    ensures StartsWith(Key(runId, step, kind), runId + ":") && Key(runId, step, kind) != ""
  {
  }

  class Run {
    const runId: string
    const agentId: string
    const batchSize: nat
    const maxRetries: nat
    const types: set<string>
    const collector: Collector
    var buffer: seq<Sent>
    var stepCounter: nat
    var status: string
    var committed: bool
    var closed: bool
    /** Every event emitted, and how many of them a successful flush covered. */
    ghost var emitted: seq<Sent>
    ghost var acked: nat

    /**
      The stored rows are the first emitted events, each once and in order, on a valid chain; the acknowledged events
      are stored; the acknowledged events followed by the buffer are all that was emitted.
     */
    ghost predicate Valid()
      reads this, collector
    {
      && stepCounter == |emitted| && Numbered(runId, emitted) && ForeignKeys(runId, collector.foreign)
      && acked <= |collector.rows| <= |emitted| && buffer == emitted[acked..]
      && Holds(collector.digest, collector.View(), emitted, |collector.rows|)
    }

    constructor (runId: string, agentId: string, batchSize: nat, maxRetries: nat, types: set<string>, collector: Collector)
      requires collector.View() == Table([], None, "running") && ForeignKeys(runId, collector.foreign)
      ensures Valid() && emitted == [] && acked == 0 && buffer == [] && !closed
      ensures this.runId == runId && this.agentId == agentId && this.collector == collector && this.types == types && this.batchSize == batchSize
      ensures this.maxRetries == maxRetries && status == "running" && !committed
    {
      this.runId, this.agentId, this.batchSize, this.maxRetries := runId, agentId, batchSize, maxRetries;
      this.types, this.collector := types, collector;
      buffer, stepCounter, status, committed, closed := [], 0, "running", false, false;
      emitted, acked := [], 0;
    }

    method NextStepIndex() returns (idx: nat)
      modifies this`stepCounter
      ensures idx == old(stepCounter) && stepCounter == idx + 1
    {
      idx := stepCounter;
      stepCounter := stepCounter + 1;
    }

    /** The collector takes every one of these types. */
    predicate Takes(events: seq<Sent>) {
      forall i :: 0 <= i < |events| ==> events[i].kind in collector.types
    }

    /** One request that reaches the collector: refused for an unknown type, or everything emitted is stored. */
    method Deliver(events: seq<Sent>, clock: Clock) returns (ok: bool)
      requires acked <= |collector.rows| <= |emitted| && events == emitted[acked..]
      requires Numbered(runId, emitted) && ForeignKeys(runId, collector.foreign)
      requires Holds(collector.digest, collector.View(), emitted, |collector.rows|)
      modifies collector`rows, collector`lastHash, collector`status
      ensures old(collector.rows) <= collector.rows
      ensures Holds(collector.digest, collector.View(), emitted, |collector.rows|)
      ensures ok == Takes(events)
      ensures if ok then |collector.rows| == |emitted| else collector.View() == old(collector.View())
    {
      hide Holds, Absorb, OwnKeys, Numbered, ForeignKeys, BatchIs, StatusSaid;
      NumberedOwnKeys(runId, emitted, collector.foreign);
      ghost var before, n := collector.View(), |collector.rows|;
      var ids := collector.AppendEvents(events, clock);
      ok := ids.Some?;
      if ok {
        assert forall i :: acked <= i < |emitted| ==> emitted[i] == events[i - acked];
        assert emitted[acked..|emitted|] == events;
        ReplayExtends(collector.digest, collector.types, collector.foreign, before, emitted, n, acked, |emitted|, clock);
        HoldsKeys(collector.digest, collector.View(), emitted, |emitted|);
      }
    }

    /**
      Up to maxRetries attempts; a lost answer is retried like a lost request. Succeeds exactly when some attempt is
      answered, none before it is refused and the types are known; whatever it returns, everything emitted is stored
      exactly when an attempt reached the collector first.
     */
    method Post(events: seq<Sent>, net: nat -> Attempt, clock: nat -> Clock) returns (ok: bool)
      requires acked <= |collector.rows| <= |emitted| && events == emitted[acked..]
      requires Numbered(runId, emitted) && ForeignKeys(runId, collector.foreign)
      requires Holds(collector.digest, collector.View(), emitted, |collector.rows|)
      modifies collector`rows, collector`lastHash, collector`status
      ensures old(collector.rows) <= collector.rows
      ensures Holds(collector.digest, collector.View(), emitted, |collector.rows|)
      ensures ok <==> Answers(net, maxRetries) && Takes(events)
      ensures if Reaches(net, maxRetries) && Takes(events) then |collector.rows| == |emitted|
        else collector.View() == old(collector.View())
    {
      assert Retrying(net, 0) && !Reaches(net, 0);
      hide Holds, Numbered, ForeignKeys, Takes, Answers, Reaches, Retrying;
      for attempt := 0 to maxRetries
        invariant old(collector.rows) <= collector.rows && |collector.rows| <= |emitted|
        invariant Holds(collector.digest, collector.View(), emitted, |collector.rows|)
        invariant Retrying(net, attempt)
        invariant Reaches(net, attempt) && Takes(events) ==> |collector.rows| == |emitted|
        invariant !Reaches(net, attempt) || !Takes(events) ==> collector.View() == old(collector.View())
      {
        var fate := net(attempt);
        NextAttempt(net, attempt, maxRetries);
        if fate == Refused { return false; }
        if fate != Lost {
          ok := Deliver(events, clock(attempt));
          if fate == Answered { return; }
        }
      }
      NoneAnswers(net, maxRetries);
      ok := false;
    }

    /** Post the whole buffer; on failure it goes back to the head of the buffer. */
    method Flush(net: nat -> Attempt, clock: nat -> Clock) returns (ok: bool)
      requires Valid()
      modifies this`buffer, this`acked, collector`rows, collector`lastHash, collector`status
      ensures Valid() && old(collector.rows) <= collector.rows
      ensures ok <==> old(buffer) == [] || (Answers(net, maxRetries) && Takes(old(buffer)))
      ensures ok ==> buffer == [] && acked == |emitted| == |collector.rows|
      ensures !ok ==> buffer == old(buffer) && acked == old(acked)
      ensures if old(buffer) != [] && Reaches(net, maxRetries) && Takes(old(buffer)) then |collector.rows| == |emitted|
        else collector.View() == old(collector.View())
    {
      hide Holds, Numbered, ForeignKeys, Answers, Reaches, Takes;
      if buffer == [] {
        assert |emitted| == acked;
        return true;
      }
      var events := buffer;
      buffer := [];
      ok := Post(events, net, clock);
      if ok {
        AnswersReach(net, maxRetries);
        acked := |emitted|;
      } else {
        buffer := events + buffer;
      }
    }

    /** An unknown type is an error; otherwise the event gets the next number and the key that goes with it. */
    method BuildEvent(kind: string, body: string, eventId: string, actor: Option<Actor>, at: int) returns (event: Option<Sent>)
      modifies this`stepCounter
      ensures kind !in types ==> event.None? && stepCounter == old(stepCounter)
      ensures kind in types ==>
        && event.Some? && stepCounter == old(stepCounter) + 1
        && event.value.step == old(stepCounter) && event.value.key == runId + ":" + Dec(old(stepCounter)) + ":" + kind
        && event.value.kind == kind && event.value.body == body && event.value.eventId == eventId
        && ActorIs(event.value.actor, if actor.Some? then actor.value else Actor("agent", agentId))
        && event.value.occurredAt == Stamp(at, 0) && StoredAsSent(event.value)
    {
      if kind !in types { return None; }
      var step := NextStepIndex();
      var who := if actor.Some? then actor.value else Actor("agent", agentId);
      DictKeys(who);
      event := Some(Sent(eventId, step, kind, body, Key(runId, step, kind), ToDict(who), Stamp(at, 0)));
    }

    /**
      Number the event, put it at the end of the buffer, and flush when the buffer is full. The actor is the agent unless
      one is given; the time `at` is in UTC.
     */
    method Emit(kind: string, body: string, eventId: string, actor: Option<Actor>, at: int,
                net: nat -> Attempt, clock: nat -> Clock) returns (r: Outcome)
      requires Valid()
      modifies this`stepCounter, this`buffer, this`emitted, this`acked, collector`rows, collector`lastHash, collector`status
      ensures Valid() && old(collector.rows) <= collector.rows
      ensures r == UnknownType <==> kind !in types
      ensures kind !in types ==> emitted == old(emitted) && buffer == old(buffer)
      ensures kind in types ==> |emitted| == |old(emitted)| + 1 && emitted[..|old(emitted)|] == old(emitted)
      ensures kind in types ==> var e := emitted[|old(emitted)|];
        && e.kind == kind && e.body == body && e.eventId == eventId && e.occurredAt == Stamp(at, 0)
        && ActorIs(e.actor, if actor.Some? then actor.value else Actor("agent", agentId))
        && e.step == |old(emitted)| && e.key == runId + ":" + Dec(|old(emitted)|) + ":" + kind
      ensures kind in types ==> var waiting := old(buffer) + [emitted[|old(emitted)|]];
        if |waiting| < batchSize then r == Done && buffer == waiting
        else
          && r == (if Answers(net, maxRetries) && Takes(waiting) then Done else Raised)
          && buffer == (if r == Done then [] else waiting)
      ensures kind !in types || |old(buffer)| + 1 < batchSize ==> acked == old(acked) && collector.View() == old(collector.View())
    {
      hide Holds, StoredAsSent, ToDict, ActorIs, Answers, Reaches, Takes, ForeignKeys;
      var built := BuildEvent(kind, body, eventId, actor, at);
      if built.None? { return UnknownType; }
      var event := built.value;
      HoldsMore(collector.digest, collector.View(), emitted, |collector.rows|, event);
      assert (emitted + [event])[acked..] == emitted[acked..] + [event];
      buffer := buffer + [event];
      emitted := emitted + [event];
      r := Done;
      if |buffer| >= batchSize {
        var ok := Flush(net, clock);
        if !ok { r := Raised; }
      }
    }

    /** The request that ends the run at the collector, retried like a post. */
    method RequestEnd(newStatus: string, net: nat -> Attempt) returns (ok: bool)
      modifies collector`status
      ensures ok <==> Answers(net, maxRetries)
      ensures collector.status == if Reaches(net, maxRetries) then newStatus else old(collector.status)
    {
      assert Retrying(net, 0) && !Reaches(net, 0);
      hide Answers, Reaches, Retrying;
      for attempt := 0 to maxRetries
        invariant Retrying(net, attempt)
        invariant collector.status == if Reaches(net, attempt) then newStatus else old(collector.status)
      {
        var fate := net(attempt);
        NextAttempt(net, attempt, maxRetries);
        if fate == Refused { return false; }
        if fate != Lost {
          collector.EndRun(newStatus);
          if fate == Answered { return true; }
        }
      }
      NoneAnswers(net, maxRetries);
      ok := false;
    }

    /** Emit an event and flush what waits: done exactly when all of it is stored and acknowledged. */
    method EmitAndFlush(kind: string, body: string, eventId: string, at: int, net: nat -> Attempt, clock: nat -> Clock)
      returns (r: Outcome)
      requires Valid()
      modifies this`stepCounter, this`buffer, this`emitted, this`acked, collector`rows, collector`lastHash, collector`status
      ensures Valid() && old(collector.rows) <= collector.rows
      ensures kind !in types ==> r == UnknownType && emitted == old(emitted)
      ensures kind in types ==> |emitted| == |old(emitted)| + 1 && emitted[..|old(emitted)|] == old(emitted)
      ensures kind in types ==> var e := emitted[|old(emitted)|];
        && e.kind == kind && e.body == body
        && r == (if Answers(net, maxRetries) && Takes(old(buffer) + [e]) then Done else Raised)
        && (r == Raised ==> buffer == old(buffer) + [e])
      ensures r == Done ==> buffer == [] && acked == |emitted| == |collector.rows|
    {
      hide Holds, Numbered, ForeignKeys, Answers, Reaches, Takes;
      r := Emit(kind, body, eventId, None, at, net, clock);
      if r != Done { return; }
      var ok := Flush(net, clock);
      if !ok { r := Raised; }
    }

    /**
      Commit, rollback and fail: emit the closing event, flush, close, and (except on failure) ask the collector to end
      the run. A failed flush leaves the run open; a failed request leaves it closed.
     */
    method Finish(ending: Ending, body: string, eventId: string, at: int, net: nat -> Attempt, clock: nat -> Clock, last: nat -> Attempt)
      returns (r: Outcome)
      requires Valid()
      modifies this, collector`rows, collector`lastHash, collector`status
      ensures Valid() && old(emitted) <= emitted && old(collector.rows) <= collector.rows
      ensures old(closed) ==> r == (if ending == Fail then Done else Closed) && emitted == old(emitted) && closed
      ensures old(closed) ==> collector.View() == old(collector.View()) && buffer == old(buffer)
      ensures old(closed) ==> status == old(status) && committed == old(committed)
      ensures !old(closed) && KindOf(ending) !in types ==> r == UnknownType && !closed && emitted == old(emitted)
      ensures !old(closed) && KindOf(ending) in types ==>
        |emitted| == |old(emitted)| + 1 && Closes(ending, emitted[|old(emitted)|].kind) && emitted[|old(emitted)|].body == body
      ensures !old(closed) && KindOf(ending) in types ==>
        && (closed <==> Answers(net, maxRetries) && Takes(old(buffer) + [emitted[|old(emitted)|]]))
        && r == (if closed && (ending == Fail || Answers(last, maxRetries)) then Done else Raised)
        && (!closed ==> buffer == old(buffer) + [emitted[|old(emitted)|]])
      ensures !old(closed) && closed ==>
        && Ends(ending, status) && committed == (old(committed) || ending == Commit)
        && buffer == [] && acked == |emitted| == |collector.rows| && collector.status == status
      ensures !closed ==> status == old(status) && committed == old(committed)
    {
      EndingExact(ending);
      hide Holds, Numbered, ForeignKeys, KindOf, StatusOf, Answers, Reaches, Takes, Closes, Ends;
      if closed { return if ending == Fail then Done else Closed; }
      r := EmitAndFlush(KindOf(ending), body, eventId, at, net, clock);
      if r != Done { return; }
      status, closed := StatusOf(ending), true;
      if ending == Commit { committed := true; }
      EndStatus(collector.digest, collector.View(), emitted, ending);
      if ending != Fail {
        var ok := RequestEnd(StatusOf(ending), last);
        if !ok { r := Raised; }
      }
    }
  }

  /** Before this attempt nothing was answered or refused. */
  ghost predicate Retrying(net: nat -> Attempt, k: nat) {
    forall j: nat :: j < k ==> net(j) == Lost || net(j) == AckLost
  }

  ghost predicate AllLost(net: nat -> Attempt, k: nat) {
    forall j: nat :: j < k ==> net(j) == Lost
  }

  ghost predicate AnsweredAt(net: nat -> Attempt, k: nat) {
    net(k) == Answered && Retrying(net, k)
  }

  ghost predicate ReachedAt(net: nat -> Attempt, k: nat) {
    (net(k) == Answered || net(k) == AckLost) && AllLost(net, k)
  }

  /** Some attempt is answered and none before it is refused. */
  ghost predicate Answers(net: nat -> Attempt, attempts: nat) {
    exists k: nat :: k < attempts && AnsweredAt(net, k)
  }

  /** Some attempt reaches the collector and none before it is refused. */
  ghost predicate Reaches(net: nat -> Attempt, attempts: nat) {
    exists k: nat :: k < attempts && ReachedAt(net, k)
  }

  lemma AnswersReach(net: nat -> Attempt, attempts: nat)
    requires Answers(net, attempts)
    ensures Reaches(net, attempts)
  {
    var k: nat :| k < attempts && AnsweredAt(net, k);
    FirstReach(net, k, attempts);
  }

  lemma {:induction false} FirstReach(net: nat -> Attempt, k: nat, attempts: nat)
    requires k < attempts && (net(k) == Answered || net(k) == AckLost) && Retrying(net, k)
    ensures Reaches(net, attempts)
  {
    if j: nat :| j < k && net(j) == AckLost {
      FirstReach(net, j, attempts);
    } else {
      assert ReachedAt(net, k);
    }
  }

  /** What one more attempt decides, when all before it were lost or their answers were. */
  lemma NextAttempt(net: nat -> Attempt, attempt: nat, attempts: nat)
    requires attempt < attempts && Retrying(net, attempt)
    ensures Reaches(net, attempt + 1) <==> Reaches(net, attempt) || net(attempt) == Answered || net(attempt) == AckLost
    ensures net(attempt) == Answered ==> Answers(net, attempts) && Reaches(net, attempts)
    ensures net(attempt) == Refused ==> !Answers(net, attempts) && (Reaches(net, attempts) <==> Reaches(net, attempt))
    ensures net(attempt) == Lost || net(attempt) == AckLost ==> Retrying(net, attempt + 1)
  {
    if net(attempt) == Answered || net(attempt) == AckLost {
      FirstReach(net, attempt, attempt + 1);
      FirstReach(net, attempt, attempts);
      assert net(attempt) == Answered ==> AnsweredAt(net, attempt);
    }
  }

  lemma NoneAnswers(net: nat -> Attempt, attempts: nat)
    requires Retrying(net, attempts)
    ensures !Answers(net, attempts)
  {
  }

  datatype Ending = Commit | Rollback | Fail

  function KindOf(ending: Ending): string {
    match ending
    case Commit => "agent_run.committed"
    case Rollback => "agent_run.rolled_back"
    case Fail => "agent_run.failed"
  }

  function StatusOf(ending: Ending): string {
    match ending
    case Commit => "committed"
    case Rollback => "rolled_back"
    case Fail => "failed"
  }

  /** The closing event of each ending. */
  predicate Closes(ending: Ending, kind: string) {
    && (ending == Commit ==> kind == "agent_run.committed")
    && (ending == Rollback ==> kind == "agent_run.rolled_back")
    && (ending == Fail ==> kind == "agent_run.failed")
  }

  /** The final status after each ending. */
  predicate Ends(ending: Ending, status: string) {
    && (ending == Commit ==> status == "committed")
    && (ending == Rollback ==> status == "rolled_back")
    && (ending == Fail ==> status == "failed")
  }

  lemma EndingExact(ending: Ending)
    ensures Closes(ending, KindOf(ending)) && Ends(ending, StatusOf(ending))
  {
  }

  /** Once the closing event is stored, the collector has the run's final status. */
  lemma EndStatus(digest: Digest, t: Table, emitted: seq<Sent>, ending: Ending)
    requires Holds(digest, t, emitted, |emitted|) && emitted != [] && emitted[|emitted| - 1].kind == KindOf(ending)
    ensures t.status == StatusOf(ending)
  {
    HoldsKeys(digest, t, emitted, |emitted|);
  }

  lemma HoldsMore(digest: Digest, t: Table, emitted: seq<Sent>, n: nat, e: Sent)
    requires Holds(digest, t, emitted, n)
    ensures Holds(digest, t, emitted + [e], n)
  {
    hide ValidChain;
    assert (emitted + [e])[..n] == emitted[..n];
  }

  // ---- any client, any network ----

  datatype ClientOp =
    | DoEmit(kind: string, body: string, eventId: string, actor: Option<Actor>, at: int, net: nat -> Attempt, clock: nat -> Clock)
    | DoFlush(net: nat -> Attempt, clock: nat -> Clock)
    | DoFinish(ending: Ending, body: string, eventId: string, at: int, net: nat -> Attempt, clock: nat -> Clock, last: nat -> Attempt)
    | DoForeign(key: string, receipt: Receipt)

  /** Another run's key does not start with this run's id and a colon. */
  predicate Separate(op: ClientOp, runId: string) {
    op.DoForeign? ==> !StartsWith(op.key, runId + ":")
  }

  /**
    Exactly-once delivery, for any sequence of calls and any pattern of lost posts and lost answers: the stored events
    are the first emitted ones, each once and in order; acknowledged events followed by the buffer are all that was
    emitted; acknowledged events are stored; the collector's verification accepts the run; and its status is the one the
    last stored state change names.
   */
  method Drive(run: Run, ops: seq<ClientOp>) returns (valid: bool)
    requires run.Valid() && forall op :: op in ops ==> Separate(op, run.runId)
    modifies run, run.collector
    ensures run.Valid() && valid
    ensures old(run.emitted) <= run.emitted && old(run.collector.rows) <= run.collector.rows
    ensures SentOf(run.collector.rows) <= run.emitted && run.acked <= |run.collector.rows|
    ensures run.emitted[..run.acked] + run.buffer == run.emitted
    ensures forall i, j :: 0 <= i < j < |run.collector.rows| ==>
      run.collector.rows[i].sent.step < run.collector.rows[j].sent.step
    ensures StatusSaid(SentOf(run.collector.rows), "running", run.collector.status)
  {
    hide Holds, StatusSaid, Answers, Reaches;
    var c := run.collector;
    for k := 0 to |ops|
      invariant run.Valid() && old(run.emitted) <= run.emitted && old(c.rows) <= c.rows
    {
      assert ops[k] in ops;
      match ops[k] {
        case DoEmit(kind, body, id, actor, at, net, clock) =>
          var r := run.Emit(kind, body, id, actor, at, net, clock);
        case DoFlush(net, clock) =>
          var ok := run.Flush(net, clock);
        case DoFinish(ending, body, id, at, net, clock, last) =>
          var r := run.Finish(ending, body, id, at, net, clock, last);
        case DoForeign(key, receipt) =>
          c.StoreForeign(key, receipt);
      }
    }
    HoldsFacts(c.digest, c.View(), run.emitted, |c.rows|);
    StepsRise(run.runId, run.emitted, c.rows);
    var broken;
    valid, broken := c.Verify();
  }

  lemma HoldsFacts(digest: Digest, t: Table, emitted: seq<Sent>, n: nat)
    requires Holds(digest, t, emitted, n)
    ensures ValidChain(digest, t.rows) && SentOf(t.rows) == emitted[..n]
    ensures StatusSaid(SentOf(t.rows), "running", t.status)
  {
    hide ValidChain, StatusSaid;
    RowsStatus(t.rows);
  }

  lemma StepsRise(runId: string, emitted: seq<Sent>, rows: seq<Row>)
    requires Numbered(runId, emitted) && SentOf(rows) <= emitted
    ensures forall i, j :: 0 <= i < j < |rows| ==> rows[i].sent.step < rows[j].sent.step
  {
    hide Key;
    forall i | 0 <= i < |rows| ensures rows[i].sent.step == i {
      assert SentOf(rows)[i] == emitted[i];
    }
  }
}
