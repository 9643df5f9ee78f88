/**
  What a proposer may conclude. It appends its command in term t at index k, waits, and is told "committed" when the
  commit index has reached k. By then another leader may have replaced the entry. The entry at k is the proposed one
  exactly when its term is still t, and under the contract it then stays at k for good.
 */
module RaftPropose {
  import opened RaftRules
  import opened RaftCluster
  import opened RaftElection
  import opened RaftLogs
  import opened RaftCompleteness
  import opened RaftSafety
  import opened RaftSteps
  import opened RaftSight
  import opened RaftLate

  // ---- leaders' logs over a run ----

  lemma LeaderLogsGrow(c: Conf, s: Cluster, a: Action)
    requires WellFormed(c) && Shape(c, s) && Enabled(c, s, a) && VotesInv(c, s) && LogsInv(c, s) && c.mode.locked
    ensures Grows(s.hist.leaderLog, Next(c, s, a).hist.leaderLog)
  {
    hide VotesInv, LogsInv, LogOk;
    if a.Finish? && s.nodes[a.i].role == Candidate && Effect(c, s, a).0.role == Leader {
      NewTerm(c, s, a);
    } else if a.ClientPropose? {
      LeaderHas(c, s, a.i);
    }
  }

  /** A run is a run up to any point of it. */
  lemma RunSplits(c: Conf, acts: seq<Action>, a: Action)
    requires Run(c, acts + [a]).At?
    ensures Run(c, acts).At? && Enabled(c, Run(c, acts).state, a)
    ensures Run(c, acts + [a]).state == Next(c, Run(c, acts).state, a)
  {
    hide Next, Enabled;
    assert (acts + [a])[..|acts|] == acts;
  }

  /** What a leader appended stays in its term's log. */
  lemma {:induction false} RunGrows(c: Conf, acts: seq<Action>, later: seq<Action>)
    requires WellFormed(c) && c.mode.locked && Run(c, acts + later).At?
    ensures Run(c, acts).At? && Grows(Run(c, acts).state.hist.leaderLog, Run(c, acts + later).state.hist.leaderLog)
    decreases |later|
  {
    hide Run, Next, Enabled, Effect, VotesInv, LogsInv;
    if later == [] {
      assert acts + later == acts;
    } else {
      var front, a := later[..|later| - 1], later[|later| - 1];
      assert acts + later == (acts + front) + [a];
      RunSplits(c, acts + front, a);
      RunGrows(c, acts, front);
      LogsReachable(c, acts + front);
      LeaderLogsGrow(c, Run(c, acts + front).state, a);
    }
  }

  // ---- a proposal and what follows it ----

  /** Server v proposes the command after the actions `before`, and `later` happens. */
  function Proposing(before: seq<Action>, v: Id, cmd: Cmd, later: seq<Action>): seq<Action> {
    before + [ClientPropose(v, cmd)] + later
  }

  /** The proposal is on record in the log of its term, whatever happens later. */
  lemma ProposalRecorded(c: Conf, before: seq<Action>, v: Id, cmd: Cmd, later: seq<Action>)
    requires WellFormed(c) && c.mode.locked && Run(c, Proposing(before, v, cmd, later)).At?
    ensures Run(c, before).At? && v in c.ids && Run(c, before).state.nodes[v].role == Leader
    ensures var n, ll := Run(c, before).state.nodes[v], Run(c, Proposing(before, v, cmd, later)).state.hist.leaderLog;
      n.term >= 1 && n.term in ll && |n.log| < |ll[n.term]| && ll[n.term][|n.log|] == Entry(n.term, cmd)
  {
    hide Run, VotesInv, LogsInv;
    var acts := before + [ClientPropose(v, cmd)];
    RunGrows(c, acts, later);
    RunSplits(c, before, ClientPropose(v, cmd));
    LogsReachable(c, before);
    LeaderWon(c, Run(c, before).state, v);
  }

  /**
    In every later state and at every server: the entry at the proposal's index is the proposed one exactly when it has
    the term it was proposed in.
   */
  lemma ProposedExactly(c: Conf, before: seq<Action>, v: Id, cmd: Cmd, later: seq<Action>, w: Id)
    requires WellFormed(c) && c.mode.locked && Run(c, Proposing(before, v, cmd, later)).At? && w in c.ids
    ensures Run(c, before).At? && v in c.ids
    ensures var n := Run(c, before).state.nodes[v];
      var log, k := Run(c, Proposing(before, v, cmd, later)).state.nodes[w].log, |n.log| + 1;
      TermAt(log, k) == n.term <==> k <= |log| && log[k - 1] == Entry(n.term, cmd)
  {
    hide Run, VotesInv, LeadersOk, NetLogs;
    ProposalRecorded(c, before, v, cmd, later);
    var acts := Proposing(before, v, cmd, later);
    LogsReachable(c, acts);
    var n, s := Run(c, before).state.nodes[v], Run(c, acts).state;
    var log, k := s.nodes[w].log, |n.log| + 1;
    if k <= |log| && TermAt(log, k) == n.term {
      assert NodeLogs(c, s.hist.leaderLog, w, s.nodes[w]);
      assert EntryOk(c.mode.wire, s.hist.leaderLog, log, k - 1, s.nodes[w].term);
    }
  }

  /** Only proposing puts an entry of a leader's own term in its log. */
  lemma NewOwnEntry(c: Conf, s: Cluster, a: Action, t: nat, k: nat)
    requires WellFormed(c) && Shape(c, s) && Enabled(c, s, a) && VotesInv(c, s) && LogsInv(c, s) && c.mode.locked
    requires var ll, ll' := s.hist.leaderLog, Next(c, s, a).hist.leaderLog;
      t in ll' && 1 <= k <= |ll'[t]| && ll'[t][k - 1].term == t && !(t in ll && k <= |ll[t]|)
    ensures var n := s.nodes[a.i];
      && a.i in c.ids && a.ClientPropose? && a.cmd == Next(c, s, a).hist.leaderLog[t][k - 1].cmd
      && n.role == Leader && n.term == t && |n.log| == k - 1 && Win(t, a.i) in s.hist.wins
  {
    hide VotesInv, LeadersOk, NetLogs;
    var n := s.nodes[a.i];
    assert NodeLogs(c, s.hist.leaderLog, a.i, n);
    assert k <= |n.log| ==> EntryOk(c.mode.wire, s.hist.leaderLog, n.log, k - 1, n.term);
    if a.Finish? && n.role == Candidate && Effect(c, s, a).0.role == Leader {
      NewTerm(c, s, a);
    } else if a.ClientPropose? {
      LeaderWon(c, s, a.i);
    }
  }

  lemma WinsKept(c: Conf, s: Cluster, a: Action)
    requires Shape(c, s) && Enabled(c, s, a)
    ensures s.hist.wins.Keys <= Next(c, s, a).hist.wins.Keys
  {
  }

  /** Step i of a run is the proposal of the entry at index k of the log of term t, by its leader. */
  ghost predicate ProposedAt(c: Conf, acts: seq<Action>, i: nat, t: nat, k: nat, cmd: Cmd) {
    && i < |acts| && acts[i].ClientPropose? && acts[i].cmd == cmd
    && Run(c, acts[..i]).At? && acts[i].i in c.ids
    && var n := Run(c, acts[..i]).state.nodes[acts[i].i];
      n.role == Leader && n.term == t && |n.log| == k - 1
  }

  /** Every entry of its own term in a leader's log was proposed, at that index, by the server that won the term. */
  lemma {:induction false} WhoProposed(c: Conf, acts: seq<Action>, t: nat, k: nat) returns (i: nat)
    requires WellFormed(c) && c.mode.locked && Run(c, acts).At?
    requires var ll := Run(c, acts).state.hist.leaderLog; t in ll && 1 <= k <= |ll[t]| && ll[t][k - 1].term == t
    ensures ProposedAt(c, acts, i, t, k, Run(c, acts).state.hist.leaderLog[t][k - 1].cmd) && i < |acts|
    ensures Win(t, acts[i].i) in Run(c, acts).state.hist.wins
  {
    hide Next, Enabled, Effect, VotesInv, LogsInv, ProposedAt;
    assert acts != [];
    var prev, a := acts[..|acts| - 1], acts[|acts| - 1];
    var s := Run(c, prev).state;
    LogsReachable(c, prev);
    LeaderLogsGrow(c, s, a);
    WinsKept(c, s, a);
    if t in s.hist.leaderLog && k <= |s.hist.leaderLog[t]| {
      i := WhoProposed(c, prev, t, k);
      ProposedEarlier(c, acts, i, t, k, s.hist.leaderLog[t][k - 1].cmd);
    } else {
      i := |acts| - 1;
      NewOwnEntry(c, s, a, t, k);
      ProposedLast(c, acts, t, k);
    }
  }

  lemma ProposedEarlier(c: Conf, acts: seq<Action>, i: nat, t: nat, k: nat, cmd: Cmd)
    requires acts != [] && ProposedAt(c, acts[..|acts| - 1], i, t, k, cmd)
    ensures ProposedAt(c, acts, i, t, k, cmd) && acts[i] == acts[..|acts| - 1][i]
  {
    hide Run;
    assert acts[..|acts| - 1][..i] == acts[..i];
  }

  lemma ProposedLast(c: Conf, acts: seq<Action>, t: nat, k: nat)
    requires acts != [] && Run(c, acts[..|acts| - 1]).At?
    requires var a, s := acts[|acts| - 1], Run(c, acts[..|acts| - 1]).state;
      a.ClientPropose? && a.i in c.ids && s.nodes[a.i].role == Leader && s.nodes[a.i].term == t && |s.nodes[a.i].log| == k - 1
    ensures ProposedAt(c, acts, |acts| - 1, t, k, acts[|acts| - 1].cmd)
  {
    hide Run;
  }

  // ---- what is committed for good ----

  /** A chosen entry of a term up to `bound` has e below it, or is it, at index k. */
  ghost predicate SettledBy(c: Conf, h: History, bound: nat, k: nat, e: Entry, u: nat, j: nat) {
    Chosen(c, h, u, j) && u <= bound && 1 <= k <= j && h.leaderLog[u][k - 1] == e
  }

  ghost predicate Settled(c: Conf, h: History, bound: nat, k: nat, e: Entry) {
    exists u: nat, j: nat :: SettledBy(c, h, bound, k, e, u, j)
  }

  /** At a server that has committed index k, entry e lies there if and only if it is settled. */
  lemma CommittedIsSettled(c: Conf, s: Cluster, w: Id, k: nat, e: Entry)
    requires Shape(c, s) && LeadOk(c, s) && CommitInv(c, s) && w in c.ids && 1 <= k <= s.nodes[w].commit
    ensures k <= |s.nodes[w].log|
    ensures s.nodes[w].log[k - 1] == e <==> Settled(c, s.hist, s.nodes[w].term, k, e)
    ensures forall bound: nat :: Settled(c, s.hist, bound, k, e) ==> s.nodes[w].log[k - 1] == e
  {
    hide LeadOk, NetCommit, AppliedHistory;
    var n, h := s.nodes[w], s.hist;
    assert NodeCommit(c, h, w, n);
    var t: nat, i: nat :| CommitBy(c, h, n.log, n.commit, n.term, t, i);
    assert Same(true, n.log[k - 1], h.leaderLog[t][k - 1]);
    if n.log[k - 1] == e { assert SettledBy(c, h, n.term, k, e, t, i); }
    forall bound: nat | Settled(c, h, bound, k, e) ensures n.log[k - 1] == e {
      var u: nat, j: nat :| SettledBy(c, h, bound, k, e, u, j);
      ChosenSame(c, s, t, i, u, j, k);
    }
  }

  lemma {:induction false} SettledStays(c: Conf, acts: seq<Action>, later: seq<Action>, bound: nat, k: nat, e: Entry)
    requires WellFormed(c) && c.mode == CONTRACT && Run(c, acts + later).At?
    ensures Run(c, acts).At?
    ensures Settled(c, Run(c, acts).state.hist, bound, k, e) ==> Settled(c, Run(c, acts + later).state.hist, bound, k, e)
    decreases |later|
  {
    hide Run, Next, Enabled, Effect, VotesInv, LogsInv, CompInv, Settled, Evolves;
    if later == [] {
      assert acts + later == acts;
    } else {
      var front, a := later[..|later| - 1], later[|later| - 1];
      assert acts + later == (acts + front) + [a];
      RunSplits(c, acts + front, a);
      SettledStays(c, acts, front, bound, k, e);
      CompReachable(c, acts + front);
      CompStep(c, Run(c, acts + front).state, a);
      SettledNext(c, Run(c, acts + front).state, Next(c, Run(c, acts + front).state, a), bound, k, e);
    }
  }

  lemma SettledNext(c: Conf, s: Cluster, s': Cluster, bound: nat, k: nat, e: Entry)
    requires Shape(c, s) && Shape(c, s') && Evolves(c, s, s')
    ensures Settled(c, s.hist, bound, k, e) ==> Settled(c, s'.hist, bound, k, e)
  {
    hide Evolves;
    if Settled(c, s.hist, bound, k, e) {
      var u: nat, j: nat :| SettledBy(c, s.hist, bound, k, e, u, j);
      ChosenStays(c, s, s', u, j);
      GrowsAt(c, s, s', u);
      assert SettledBy(c, s'.hist, bound, k, e, u, j);
    }
  }

  /**
    Under the contract, when a server's commit index has reached the proposal's index, the proposed command is settled
    exactly when the entry there still has the term it was proposed in: what a caller of propose could check.
   */
  lemma AnswerExact(c: Conf, before: seq<Action>, v: Id, cmd: Cmd, later: seq<Action>, w: Id)
    requires WellFormed(c) && c.mode == CONTRACT && Run(c, Proposing(before, v, cmd, later)).At? && w in c.ids
    requires Run(c, before).At? && v in c.ids
    requires Answered(Run(c, Proposing(before, v, cmd, later)).state.nodes[w], |Run(c, before).state.nodes[v].log| + 1)
    ensures var n, s := Run(c, before).state.nodes[v], Run(c, Proposing(before, v, cmd, later)).state;
      var k := |n.log| + 1;
      TermAt(s.nodes[w].log, k) == n.term <==> Settled(c, s.hist, s.nodes[w].term, k, Entry(n.term, cmd))
  {
    hide Run, CompInv, CommitInv, Settled;
    var acts := Proposing(before, v, cmd, later);
    ProposedExactly(c, before, v, cmd, later, w);
    CommitReachable(c, acts);
    var n := Run(c, before).state.nodes[v];
    LeadOfComp(c, Run(c, acts).state);
    CommittedIsSettled(c, Run(c, acts).state, w, |n.log| + 1, Entry(n.term, cmd));
  }

  lemma LeadOfComp(c: Conf, s: Cluster)
    requires Shape(c, s) && CompInv(c, s)
    ensures LeadOk(c, s)
  {
    hide AckOk, StoreOk, VoteOk, LeadOk, CandOk;
  }

  /**
    What settled means: in every later state the entry is at that index in the log of every leader of the bound's term
    or a later one, at every server that has committed the index, and in every apply call for it.
   */
  lemma SettledForGood(c: Conf, acts: seq<Action>, later: seq<Action>, bound: nat, k: nat, e: Entry)
    requires WellFormed(c) && c.mode == CONTRACT && Run(c, acts + later).At?
    requires Run(c, acts).At? && Settled(c, Run(c, acts).state.hist, bound, k, e)
    ensures var s := Run(c, acts + later).state;
      && (forall u :: u in s.hist.leaderLog && u >= bound ==> k <= |s.hist.leaderLog[u]| && s.hist.leaderLog[u][k - 1] == e)
      && (forall w :: w in c.ids && s.nodes[w].commit >= k ==> k <= |s.nodes[w].log| && s.nodes[w].log[k - 1] == e)
      && (forall d :: d in s.hist.applied && d.index == k ==> d.cmd == e.cmd)
  {
    hide Run, CompInv, CommitInv, Settled;
    SettledStays(c, acts, later, bound, k, e);
    CommitReachable(c, acts + later);
    var s := Run(c, acts + later).state;
    LeadOfComp(c, s);
    SettledIndex(c, s.hist, bound, k, e);
    forall u | u in s.hist.leaderLog && u >= bound ensures k <= |s.hist.leaderLog[u]| && s.hist.leaderLog[u][k - 1] == e {
      SettledLeads(c, s, bound, k, e, u);
    }
    forall w | w in c.ids && s.nodes[w].commit >= k ensures k <= |s.nodes[w].log| && s.nodes[w].log[k - 1] == e {
      CommittedIsSettled(c, s, w, k, e);
    }
    forall d | d in s.hist.applied && d.index == k ensures d.cmd == e.cmd {
      SettledApplied(c, s, bound, k, e, d);
    }
  }

  lemma SettledIndex(c: Conf, h: History, bound: nat, k: nat, e: Entry)
    requires Settled(c, h, bound, k, e)
    ensures k >= 1
  {
    hide Chosen;
  }

  lemma SettledLeads(c: Conf, s: Cluster, bound: nat, k: nat, e: Entry, u: nat)
    requires Shape(c, s) && LeadOk(c, s) && Settled(c, s.hist, bound, k, e) && u in s.hist.leaderLog && u >= bound
    ensures k <= |s.hist.leaderLog[u]| && s.hist.leaderLog[u][k - 1] == e
  {
    hide Blocked;
    var t: nat, j: nat :| SettledBy(c, s.hist, bound, k, e, t, j);
    if t < u {
      ChosenNotBlocked(c, s, t, j);
      assert Kept(c, s, s.hist.leaderLog[u], t, j);
      assert Same(true, s.hist.leaderLog[u][k - 1], s.hist.leaderLog[t][k - 1]);
    }
  }

  lemma SettledApplied(c: Conf, s: Cluster, bound: nat, k: nat, e: Entry, d: Delivered)
    requires Shape(c, s) && LeadOk(c, s) && CommitInv(c, s) && Settled(c, s.hist, bound, k, e)
    requires d in s.hist.applied && d.index == k
    ensures d.cmd == e.cmd
  {
    hide LeadOk, NodeCommit, NetCommit, Chosen;
    assert Founded(c, s.hist, d);
    var t: nat, i: nat :| AppliedBy(c, s.hist, d, t, i);
    var u: nat, j: nat :| SettledBy(c, s.hist, bound, k, e, u, j);
    ChosenSame(c, s, t, i, u, j, k);
  }

  // ---- a proposer told "committed" of another command ----

  /** The whole log of a newer leader replaces a conflicting one. */
  lemma Replaced(mode: Mode, i: Id, b: Brief, d: Brief)
    requires |b.log| == |d.log| == 1 && d.term <= b.term == b.log[0].term && d.log[0].term != b.term
    ensures var a := Request(i, b, 1); Accepts(d, a) && Received(mode, d, a) == Brief(b.term, Follower, b.log, d.commit)
  {
    var a := Request(i, b, 1);
    assert a.entries == b.log && Stamp(mode.wire, b.term, a.entries) == b.log && d.log[..0] + b.log == b.log;
  }

  lemma StampOne(wire: bool)
    ensures Y2 == Stamp(wire, 2, Y2)
  {
  }

  /** A proposes x in term 1; B wins term 2, proposes y, C stores it, B commits it. */
  lemma Misled1(mode: Mode) returns (s: Cluster)
    ensures Seen(Trio(mode), s, Three(Brief(1, Leader, X1, 0), Brief(2, Leader, Y2, 1), Brief(2, Follower, Y2, 0)))
    ensures A in s.nodes[B].peers && s.nodes[B].peers[A].next == 1
    ensures Win(1, A) in s.hist.wins && 1 in s.hist.leaderLog && s.hist.leaderLog[1] == X1
  {
    hide Reachable, Shape, Is, UpToDate, FreshPeers, Request, Accepts, Received, Three, Without, StillLed, Onward, Seen, Acked;
    var z, f1, f2 := Brief(0, Follower, [], 0), Brief(1, Follower, [], 0), Brief(2, Follower, [], 0);
    var a1, x1, b2 := Brief(1, Leader, [], 0), Brief(1, Leader, X1, 0), Brief(2, Leader, [], 0);
    var y2, y3, g2 := Brief(2, Leader, Y2, 0), Brief(2, Leader, Y2, 1), Brief(2, Follower, Y2, 0);
    var r;
    var none: seq<Entry> := [];
    assert none + [Entry(1, X)] == X1 && none + [Entry(2, Y)] == Y2;
    Names();
    EmptyIsUpToDate();
    s := Begin(mode);
    ThreeUpdates(z, z, z, f1);
    ThreeUpdates(z, f1, z, a1);
    s := Elects(mode, s, Three(z, z, z), A, B);
    ThreeUpdates(a1, f1, z, x1);
    s := Proposes(mode, s, Three(a1, f1, z), A, X);
    ThreeUpdates(x1, f1, z, f2);
    ThreeUpdates(x1, f1, f2, b2);
    s := Elects(mode, s, Three(x1, f1, z), B, C);
    FreshAt(mode, B, A, 0);
    FreshAt(mode, B, C, 0);
    ThreeUpdates(x1, b2, f2, y2);
    s := Proposes(mode, s, Three(x1, b2, f2), B, Y);
    StampOne(mode.wire);
    WholeLog(mode, B, y2, f2, Y2);
    ThreeUpdates(x1, y2, f2, g2);
    s, r := Ships(mode, s, Three(x1, y2, f2), B, C, 1);
    ThreeUpdates(x1, y2, g2, y3);
    RequestOne(B, y2);
    s := Commits(mode, s, Three(x1, y2, g2), B, C, Request(B, y2, 1), r);
  }

  /** B's next request replaces x at A and tells it that index 1 is committed. */
  lemma Misled2(mode: Mode, s: Cluster) returns (s': Cluster)
    requires Seen(Trio(mode), s, Three(Brief(1, Leader, X1, 0), Brief(2, Leader, Y2, 1), Brief(2, Follower, Y2, 0)))
    requires A in s.nodes[B].peers && s.nodes[B].peers[A].next == 1
    requires Win(1, A) in s.hist.wins && 1 in s.hist.leaderLog && s.hist.leaderLog[1] == X1
    ensures Reachable(Trio(mode), s') && A in s'.nodes && s'.nodes[A].log == Y2 && Answered(s'.nodes[A], 1)
    ensures Win(1, A) in s'.hist.wins && 1 in s'.hist.leaderLog && s'.hist.leaderLog[1] == X1
    ensures Delivered(1, Y) in s'.hist.applied
  {
    hide Reachable, Shape, UpToDate, FreshPeers, Request, Accepts, Received, Three, Without, StillLed;
    var x1, y3, g2 := Brief(1, Leader, X1, 0), Brief(2, Leader, Y2, 1), Brief(2, Follower, Y2, 0);
    Names();
    Replaced(mode, B, y3, x1);
    ThreeUpdates(x1, y3, g2, Brief(2, Follower, Y2, 1));
    s' := Learns(mode, s, Three(x1, y3, g2), B, A, 1);
    ThreeUpdates(Brief(2, Follower, Y2, 1), y3, g2, y3);
    SeenAt(Trio(mode), s', Three(Brief(2, Follower, Y2, 1), y3, g2), A);
  }

  /**
    In every mode, the contract included: a run in which A proposes x at index 1 while leading, and later its commit
    index is 1 with y at that index, committed and applied. A caller waiting at A is told that x is committed.
   */
  lemma ToldOfAnother(mode: Mode) returns (acts: seq<Action>, i: nat)
    ensures var c := Trio(mode);
      && Run(c, acts).At? && ProposedAt(c, acts, i, 1, 1, X) && acts[i].i == A && X != Y
      && Answered(Run(c, acts).state.nodes[A], 1) && Run(c, acts).state.nodes[A].log == [Entry(2, Y)]
      && Delivered(1, Y) in Run(c, acts).state.hist.applied
  {
    hide Run, Shape, FreshPeers, Three, Without;
    var d := Trio(mode.(locked := true));
    var s := Misled1(d.mode);
    s := Misled2(d.mode, s);
    acts :| Run(d, acts) == At(s);
    TrioWellFormed(d.mode);
    i := WhoProposed(d, acts, 1, 1);
    ElectionSafety(d, acts);
    assert Win(1, acts[i].i) == Win(1, A);
    LockedRuns(Trio(mode).ids, mode, acts);
    LockedProposal(Trio(mode).ids, mode, acts, i, 1, 1, X);
    assert X[0] != Y[0];
  }

  lemma TrioWellFormed(mode: Mode)
    ensures WellFormed(Trio(mode))
  {
    Names();
  }

  lemma LockedProposal(ids: seq<Id>, mode: Mode, acts: seq<Action>, i: nat, t: nat, k: nat, cmd: Cmd)
    requires ProposedAt(Conf(ids, mode.(locked := true)), acts, i, t, k, cmd)
    ensures ProposedAt(Conf(ids, mode), acts, i, t, k, cmd)
  {
    hide Run;
    LockedRuns(ids, mode, acts[..i]);
  }
}
