/**
  State Machine Safety under the contract: every commit index rests on a chosen entry,
  each process applies exactly its committed prefix, in order and once, and no two processes
  ever apply different commands at one index.
 */
module RaftSafety {
  import opened CommitRule
  import opened RaftRules
  import opened RaftCluster
  import opened RaftElection
  import opened RaftLogs
  import opened RaftCommitRule
  import opened RaftCompleteness

  ghost predicate CommitBy(c: Conf, h: History, log: seq<Entry>, commit: nat, bound: nat, t: nat, k: nat) {
    Chosen(c, h, t, k) && t <= bound && commit <= k && Matches(true, log, h.leaderLog[t], commit)
  }

  ghost predicate CommitOk(c: Conf, h: History, log: seq<Entry>, commit: nat, bound: nat) {
    commit == 0 || exists t: nat, k: nat :: CommitBy(c, h, log, commit, bound, t, k)
  }

  /** The apply calls so far are the first `applied` commands of the log, numbered from 1. */
  ghost predicate AppliedOk(n: Node) {
    && n.applied <= n.commit && n.applied <= |n.log| && |n.delivered| == n.applied
    && forall j :: 0 <= j < n.applied ==> n.delivered[j] == Delivered(j + 1, n.log[j].cmd)
  }

  ghost predicate LeaderOk(c: Conf, h: History, v: Id, n: Node)
    requires NodeShape(c, v, n)
  {
    n.role == Leader ==>
      && Acked(h, v, n.term) >= |n.log|
      && forall p :: p in c.ids && p != v ==> n.peers[p].matched <= Acked(h, p, n.term)
  }

  ghost predicate NodeCommit(c: Conf, h: History, v: Id, n: Node)
    requires NodeShape(c, v, n)
  {
    CommitOk(c, h, n.log, n.commit, n.term) && AppliedOk(n) && LeaderOk(c, h, v, n)
  }

  ghost predicate NetCommit(c: Conf, h: History, net: set<Msg>) {
    && (forall m :: m in net && m.AppendReq? ==>
          && m.aargs.term in h.leaderLog && m.aargs.leaderCommit <= m.aargs.prevIndex + |m.aargs.entries|
          && CommitOk(c, h, h.leaderLog[m.aargs.term], m.aargs.leaderCommit, m.aargs.term))
    && (forall m :: m in net && m.AppendResp? && m.areply.success ==>
          m.peer in c.ids && Acked(h, m.peer, m.request.term) >= m.request.prevIndex + |m.request.entries|)
  }

  ghost predicate AppliedBy(c: Conf, h: History, d: Delivered, t: nat, k: nat) {
    Chosen(c, h, t, k) && 1 <= d.index <= k && h.leaderLog[t][d.index - 1].cmd == d.cmd
  }

  ghost predicate Founded(c: Conf, h: History, d: Delivered) {
    exists t: nat, k: nat :: AppliedBy(c, h, d, t, k)
  }

  ghost predicate AppliedHistory(c: Conf, h: History) {
    forall d :: d in h.applied ==> Founded(c, h, d)
  }

  ghost predicate CommitInv(c: Conf, s: Cluster)
    requires Shape(c, s)
  {
    && (forall v :: v in c.ids ==> NodeCommit(c, s.hist, v, s.nodes[v]))
    && NetCommit(c, s.hist, s.net) && AppliedHistory(c, s.hist)
  }

  // ---- chosen entries agree ----

  /** Two chosen entries: the log below the earlier-term one is a prefix of the other's. */
  lemma ChosenAgree(c: Conf, s: Cluster, t: nat, k: nat, u: nat, j: nat)
    requires Shape(c, s) && LeadOk(c, s) && Chosen(c, s.hist, t, k) && Chosen(c, s.hist, u, j) && t <= u
    ensures t == u || Matches(true, s.hist.leaderLog[u], s.hist.leaderLog[t], k)
  {
    if t < u {
      ChosenNotBlocked(c, s, t, k);
      assert Kept(c, s, s.hist.leaderLog[u], t, k);
    }
  }

  /** Below two chosen entries lie the same entries. */
  lemma ChosenSame(c: Conf, s: Cluster, t: nat, i: nat, u: nat, j: nat, k: nat)
    requires Shape(c, s) && LeadOk(c, s) && Chosen(c, s.hist, t, i) && Chosen(c, s.hist, u, j) && 1 <= k <= i && k <= j
    ensures k <= |s.hist.leaderLog[t]| && k <= |s.hist.leaderLog[u]|
    ensures s.hist.leaderLog[t][k - 1] == s.hist.leaderLog[u][k - 1]
  {
    hide LeadOk;
    if t <= u { ChosenAgree(c, s, t, i, u, j); } else { ChosenAgree(c, s, u, j, t, i); }
  }

  // ---- what stays ----

  lemma CommitStays(c: Conf, s: Cluster, s': Cluster, log: seq<Entry>, log': seq<Entry>, commit: nat, bound: nat, bound': nat)
    requires Shape(c, s) && Shape(c, s') && Evolves(c, s, s')
    requires CommitOk(c, s.hist, log, commit, bound) && bound <= bound' && log <= log'
    ensures CommitOk(c, s'.hist, log', commit, bound')
  {
    hide Evolves;
    if commit > 0 {
      var t: nat, k: nat :| CommitBy(c, s.hist, log, commit, bound, t, k);
      ChosenStays(c, s, s', t, k);
      GrowsAt(c, s, s', t);
      assert CommitBy(c, s'.hist, log', commit, bound', t, k);
    }
  }

  lemma GrowsAt(c: Conf, s: Cluster, s': Cluster, t: nat)
    requires Shape(c, s) && Shape(c, s') && Evolves(c, s, s') && t in s.hist.leaderLog
    ensures t in s'.hist.leaderLog && s.hist.leaderLog[t] <= s'.hist.leaderLog[t]
  {
  }

  lemma AppliedStays(c: Conf, s: Cluster, s': Cluster)
    requires Shape(c, s) && Shape(c, s') && Evolves(c, s, s') && AppliedHistory(c, s.hist)
    requires s'.hist.applied == s.hist.applied
    ensures AppliedHistory(c, s'.hist)
  {
    forall d | d in s'.hist.applied ensures Founded(c, s'.hist, d) {
      FoundedStays(c, s, s', d);
    }
  }

  lemma FoundedStays(c: Conf, s: Cluster, s': Cluster, d: Delivered)
    requires Shape(c, s) && Shape(c, s') && Evolves(c, s, s') && Founded(c, s.hist, d)
    ensures Founded(c, s'.hist, d)
  {
    hide Evolves;
    var t: nat, k: nat :| AppliedBy(c, s.hist, d, t, k);
    ChosenStays(c, s, s', t, k);
    GrowsAt(c, s, s', t);
    assert AppliedBy(c, s'.hist, d, t, k);
  }

  lemma NetStays(c: Conf, s: Cluster, s': Cluster)
    requires Shape(c, s) && Shape(c, s') && Evolves(c, s, s') && NetCommit(c, s.hist, s.net)
    ensures NetCommit(c, s'.hist, s.net)
  {
    forall m | m in s.net && m.AppendReq?
      ensures m.aargs.term in s'.hist.leaderLog && CommitOk(c, s'.hist, s'.hist.leaderLog[m.aargs.term], m.aargs.leaderCommit, m.aargs.term)
    {
      var t := m.aargs.term;
      CommitStays(c, s, s', s.hist.leaderLog[t], s'.hist.leaderLog[t], m.aargs.leaderCommit, t, t);
    }
  }

  lemma NodeStays(c: Conf, s: Cluster, s': Cluster, v: Id)
    requires Shape(c, s) && Shape(c, s') && Evolves(c, s, s') && v in c.ids && NodeCommit(c, s.hist, v, s.nodes[v])
    requires s'.nodes[v] == s.nodes[v]
    ensures NodeCommit(c, s'.hist, v, s'.nodes[v])
  {
    hide CommitOk;
    var n := s.nodes[v];
    CommitStays(c, s, s', n.log, n.log, n.commit, n.term, n.term);
  }

  /** Node i and the messages it sends are shown to be fine in the new state; the rest stays fine. */
  lemma CommitFrame(c: Conf, s: Cluster, s': Cluster, i: Id)
    requires Shape(c, s) && Shape(c, s') && Evolves(c, s, s') && CommitInv(c, s) && i in c.ids
    requires s'.nodes == s.nodes[i := s'.nodes[i]] && NodeCommit(c, s'.hist, i, s'.nodes[i])
    requires NetCommit(c, s'.hist, s'.net - s.net) && AppliedHistory(c, s'.hist)
    ensures CommitInv(c, s')
  {
    hide Evolves, NodeCommit, AppliedHistory, CommitOk;
    NetStays(c, s, s');
    forall v | v in c.ids ensures NodeCommit(c, s'.hist, v, s'.nodes[v]) {
      if v != i { NodeStays(c, s, s', v); }
    }
  }

  // ---- the commit rule ----

  /** An index the leader's rule picks is on a majority of the servers. */
  lemma PickedByQuorum(c: Conf, i: Id, n: Node, x: nat) returns (q: set<Id>)
    requires WellFormed(c) && i in c.ids && NodeShape(c, i, n) && x <= MajorityValue(MatchValues(CfgOf(c, i), n))
    ensures Quorum(c, q)
    ensures forall p :: p in q ==> if p == i then x <= |n.log| else p in c.ids && x <= n.peers[p].matched
  {
    WithoutSize(c.ids, i);
    HeldByMajority(CfgOf(c, i), n, x);
    q := Holders(CfgOf(c, i), n, x);
  }

  lemma CommitIf(c: Conf, h: History, log: seq<Entry>, commit: nat, bound: nat, t: nat, k: nat)
    requires CommitBy(c, h, log, commit, bound, t, k)
    ensures CommitOk(c, h, log, commit, bound)
  {
  }

  /** The leader's rule only commits chosen entries. */
  lemma LeaderCommitOk(c: Conf, h: History, i: Id, n: Node)
    requires WellFormed(c) && i in c.ids && NodeShape(c, i, n) && n.role == Leader && n.term >= 1
    requires n.term in h.leaderLog && h.leaderLog[n.term] == n.log
    requires CommitOk(c, h, n.log, n.commit, n.term) && LeaderOk(c, h, i, n)
    ensures CommitOk(c, h, n.log, LeaderCommit(CfgOf(c, i), n).commit, n.term)
  {
    hide CommitOk, MajorityValue, MatchValues, Without;
    var x := MajorityValue(MatchValues(CfgOf(c, i), n));
    if x > n.commit && TermAt(n.log, x) == n.term {
      var q := PickedByQuorum(c, i, n, x);
      assert StoredBy(c, h, q, n.term, x);
      assert CommitBy(c, h, n.log, x, n.term, n.term, x);
      CommitIf(c, h, n.log, x, n.term, n.term, x);
    }
  }

  // ---- AppendEntries at the receiver ----

  /** The receiver's committed prefix survives any AppendEntries of a term it has not passed. */
  lemma PrefixSurvives(c: Conf, s: Cluster, i: Id, a: AppendArgs)
    requires Shape(c, s) && i in c.ids && LogsInv(c, s) && CompInv(c, s) && c.mode == CONTRACT
    requires s.nodes[i].term <= a.term && ReqOk(c.mode, s.hist.leaderLog, s.hist.wins, i, a)
    requires CommitOk(c, s.hist, s.nodes[i].log, s.nodes[i].commit, s.nodes[i].term)
    ensures var n, log' := s.nodes[i], HandleAppend(c.mode, s.nodes[i], a).0.log;
      CommitOk(c, s.hist, log', n.commit, a.term) && (n.commit > 0 ==> n.commit <= |n.log| && n.log[..n.commit] <= log')
  {
    hide HandleAppend, AckOk, StoreOk, VoteOk, CandOk, Blocked, LogOk, NetLogs;
    var n, log', ll := s.nodes[i], HandleAppend(c.mode, s.nodes[i], a).0.log, s.hist.leaderLog;
    if n.commit > 0 {
      var t: nat, k: nat :| CommitBy(c, s.hist, n.log, n.commit, n.term, t, k);
      if t < a.term {
        ChosenNotBlocked(c, s, t, k);
        assert Kept(c, s, ll[a.term], t, k);
      }
      HandleAppendKeeps(c.mode, n, a, ll[a.term], ll[t], n.commit);
      assert CommitBy(c, s.hist, log', n.commit, a.term, t, k);
      assert n.log[..n.commit] == log'[..n.commit];
    }
  }

  /** A raised commit index is the leader's, and lies within what was just stored. */
  lemma RaisedCommit(c: Conf, s: Cluster, i: Id, a: AppendArgs)
    requires Shape(c, s) && i in c.ids && LogsInv(c, s) && c.mode == CONTRACT
    requires ReqOk(c.mode, s.hist.leaderLog, s.hist.wins, i, a)
    requires a.leaderCommit <= a.prevIndex + |a.entries| && CommitOk(c, s.hist, s.hist.leaderLog[a.term], a.leaderCommit, a.term)
    ensures var (n', r) := HandleAppend(c.mode, s.nodes[i], a);
      r.success ==> a.leaderCommit <= |n'.log| && CommitOk(c, s.hist, n'.log, a.leaderCommit, a.term)
  {
    hide HandleAppend, LogOk, NetLogs;
    var (n', r) := HandleAppend(c.mode, s.nodes[i], a);
    assert NodeLogs(c, s.hist.leaderLog, i, s.nodes[i]);
    HandleAppendOk(c.mode, s.hist.leaderLog, s.hist.wins, i, s.nodes[i], a);
    if r.success && a.leaderCommit > 0 {
      var t: nat, k: nat :| CommitBy(c, s.hist, s.hist.leaderLog[a.term], a.leaderCommit, a.term, t, k);
      assert CommitBy(c, s.hist, n'.log, a.leaderCommit, a.term, t, k);
    }
  }

  lemma StoredCommit(c: Conf, s: Cluster, s': Cluster, i: Id, a: AppendArgs)
    requires Shape(c, s) && Shape(c, s') && i in c.ids && LogsInv(c, s) && CompInv(c, s) && c.mode == CONTRACT
    requires Stores(c, s, s', i, a) && Evolves(c, s, s') && ReqOk(c.mode, s.hist.leaderLog, s.hist.wins, i, a)
    requires NodeCommit(c, s.hist, i, s.nodes[i])
    requires a.leaderCommit <= a.prevIndex + |a.entries| && CommitOk(c, s.hist, s.hist.leaderLog[a.term], a.leaderCommit, a.term)
    ensures NodeCommit(c, s'.hist, i, s'.nodes[i])
  {
    hide CommitOk, LogsInv, CompInv, Evolves, ReqOk, Merge, Stamp, Shipped;
    PrefixSurvives(c, s, i, a);
    RaisedCommit(c, s, i, a);
    var n' := s'.nodes[i];
    CommitStays(c, s, s', n'.log, n'.log, n'.commit, a.term, a.term);
    HandleAppendCommit(c.mode, s.nodes[i], a);
    CommitWithin(c, s.hist, n'.log, n'.commit, a.term);
  }

  lemma CommitWithin(c: Conf, h: History, log: seq<Entry>, commit: nat, bound: nat)
    requires CommitOk(c, h, log, commit, bound)
    ensures commit <= |log|
  {
  }

  // ---- every action keeps the invariant ----

  lemma RecvAppendNet(c: Conf, s: Cluster, a: Action)
    requires WellFormed(c) && Shape(c, s) && Enabled(c, s, a) && a.RecvAppendReq?
    ensures Shape(c, Next(c, s, a)) && NetCommit(c, Next(c, s, a).hist, Next(c, s, a).net - s.net)
    ensures Next(c, s, a).hist.applied == s.hist.applied && Next(c, s, a).nodes == s.nodes[a.i := Next(c, s, a).nodes[a.i]]
  {
    NextShape(c, s, a);
  }

  lemma RecvAppendCommit(c: Conf, s: Cluster, a: Action)
    requires WellFormed(c) && Shape(c, s) && Enabled(c, s, a) && a.RecvAppendReq?
    requires VotesInv(c, s) && LogsInv(c, s) && CompInv(c, s) && CommitInv(c, s) && c.mode == CONTRACT
    ensures Shape(c, Next(c, s, a)) && CommitInv(c, Next(c, s, a))
  {
    hide Next, Effect, VotesInv, CompInv, Evolves, Stores, NodeCommit, CommitOk, LeadersOk, NodeLogs, AppliedHistory, ReqOk;
    CompStep(c, s, a);
    RecvAppendShape(c, s, a);
    RecvAppendNet(c, s, a);
    var s' := Next(c, s, a);
    AppliedStays(c, s, s');
    assert ReqOk(c.mode, s.hist.leaderLog, s.hist.wins, a.i, a.m.aargs);
    hide LogsInv;
    if s.nodes[a.i].term <= a.m.aargs.term {
      StoredCommit(c, s, s', a.i, a.m.aargs);
    } else {
      RefusedSame(c, s, a);
      NodeStays(c, s, s', a.i);
    }
    CommitFrame(c, s, s', a.i);
  }

  lemma RefusedSame(c: Conf, s: Cluster, a: Action)
    requires Shape(c, s) && Enabled(c, s, a) && a.RecvAppendReq? && s.nodes[a.i].term > a.m.aargs.term
    ensures Next(c, s, a).nodes[a.i] == s.nodes[a.i]
  {
  }

  /** The node keeps log, commit index and applied prefix, and leads afterwards only if it led before with the same peers. */
  ghost predicate Resting(n: Node, n': Node) {
    && n'.log == n.log && n'.commit == n.commit && n'.applied == n.applied && n'.delivered == n.delivered
    && n'.term >= n.term
    && (n'.role == Leader ==> n.role == Leader && n'.term == n.term && n'.peers == n.peers)
  }

  lemma RestingCommit(c: Conf, s: Cluster, s': Cluster, i: Id)
    requires Shape(c, s) && Shape(c, s') && Evolves(c, s, s') && i in c.ids && CommitInv(c, s)
    requires s'.nodes == s.nodes[i := s'.nodes[i]] && s'.hist.applied == s.hist.applied
    requires Resting(s.nodes[i], s'.nodes[i]) && NetCommit(c, s'.hist, s'.net - s.net)
    ensures CommitInv(c, s')
  {
    hide CommitOk, AppliedHistory, NetCommit;
    var n := s.nodes[i];
    assert NodeCommit(c, s.hist, i, n);
    CommitStays(c, s, s', n.log, n.log, n.commit, n.term, s'.nodes[i].term);
    AppliedStays(c, s, s');
    CommitFrame(c, s, s', i);
  }

  predicate RestingAction(a: Action) {
    a.Start? || a.RecvVoteReq? || a.RecvVoteResp?
  }

  lemma RestingShape(c: Conf, s: Cluster, a: Action)
    requires WellFormed(c) && Shape(c, s) && Enabled(c, s, a) && RestingAction(a)
    ensures var s' := Next(c, s, a);
      && Shape(c, s') && Resting(s.nodes[a.i], s'.nodes[a.i]) && s'.nodes == s.nodes[a.i := s'.nodes[a.i]]
      && s'.hist.applied == s.hist.applied && NetCommit(c, s'.hist, s'.net - s.net) && a.i in c.ids
  {
    NextShape(c, s, a);
  }

  lemma CrashCommit(c: Conf, s: Cluster, a: Action)
    requires WellFormed(c) && Shape(c, s) && Enabled(c, s, a) && a.Crash? && CommitInv(c, s) && Shape(c, Next(c, s, a)) && Evolves(c, s, Next(c, s, a))
    ensures Shape(c, Next(c, s, a)) && CommitInv(c, Next(c, s, a))
  {
    hide CommitOk, AppliedHistory, Evolves;
    NextShape(c, s, a);
    var s' := Next(c, s, a);
    assert NodeCommit(c, s'.hist, a.i, s'.nodes[a.i]) by { ZeroCommit(c, s'.hist, s'.nodes[a.i].log, s'.nodes[a.i].term); }
    AppliedStays(c, s, s');
    CommitFrame(c, s, s', a.i);
  }

  lemma ZeroCommit(c: Conf, h: History, log: seq<Entry>, bound: nat)
    ensures CommitOk(c, h, log, 0, bound)
  {
  }

  lemma FinishCommit(c: Conf, s: Cluster, a: Action)
    requires WellFormed(c) && Shape(c, s) && Enabled(c, s, a) && a.Finish? && CommitInv(c, s) && Shape(c, Next(c, s, a)) && Evolves(c, s, Next(c, s, a))
    ensures Shape(c, Next(c, s, a)) && CommitInv(c, Next(c, s, a))
  {
    hide CommitOk, AppliedHistory, Evolves;
    NextShape(c, s, a);
    var s' := Next(c, s, a);
    var n, n' := s.nodes[a.i], s'.nodes[a.i];
    assert NodeCommit(c, s.hist, a.i, n);
    CommitStays(c, s, s', n.log, n'.log, n.commit, n.term, n'.term);
    AppliedStays(c, s, s');
    if n.role == Leader && n'.role == Leader { NodeStaysLeader(c, s, s', a.i); }
    assert NodeCommit(c, s'.hist, a.i, n');
    CommitFrame(c, s, s', a.i);
  }

  lemma NodeStaysLeader(c: Conf, s: Cluster, s': Cluster, i: Id)
    requires Shape(c, s) && Shape(c, s') && i in c.ids && Evolves(c, s, s') && LeaderOk(c, s.hist, i, s.nodes[i])
    requires s.nodes[i].role == Leader && s'.nodes[i].role == Leader && s'.nodes[i].term == s.nodes[i].term
    requires s'.nodes[i].peers == s.nodes[i].peers && s'.nodes[i].log == s.nodes[i].log
    ensures LeaderOk(c, s'.hist, i, s'.nodes[i])
  {
  }

  lemma ProposeCommit(c: Conf, s: Cluster, a: Action)
    requires WellFormed(c) && Shape(c, s) && Enabled(c, s, a) && a.ClientPropose? && c.mode.locked && CommitInv(c, s) && Shape(c, Next(c, s, a)) && Evolves(c, s, Next(c, s, a))
    ensures Shape(c, Next(c, s, a)) && CommitInv(c, Next(c, s, a))
  {
    hide CommitOk, AppliedHistory;
    NextShape(c, s, a);
    var s' := Next(c, s, a);
    var n, n' := s.nodes[a.i], s'.nodes[a.i];
    assert NodeCommit(c, s.hist, a.i, n);
    CommitStays(c, s, s', n.log, n'.log, n.commit, n.term, n'.term);
    AppliedStays(c, s, s');
    assert NodeCommit(c, s'.hist, a.i, n');
    CommitFrame(c, s, s', a.i);
  }

  lemma SendShape(c: Conf, s: Cluster, a: Action)
    requires Shape(c, s) && Enabled(c, s, a) && a.SendAppend?
    ensures a.peer in s.nodes[a.i].peers && s.nodes[a.i].peers[a.peer].next >= 1
    ensures var s' := Next(c, s, a);
      && Shape(c, s') && s'.hist == s.hist && s'.nodes == s.nodes[a.i := s'.nodes[a.i]] && s'.nodes[a.i] == s.nodes[a.i]
      && s'.net == s.net + {AppendReq(a.peer, MakeAppend(CfgOf(c, a.i), s.nodes[a.i], a.peer))}
  {
    hide MakeAppend, Without;
    assert NodeShape(c, a.i, s.nodes[a.i]);
  }

  lemma SentCommit(c: Conf, h: History, m: Msg)
    requires m.AppendReq? && m.aargs.term in h.leaderLog && m.aargs.leaderCommit <= m.aargs.prevIndex + |m.aargs.entries|
    requires CommitOk(c, h, h.leaderLog[m.aargs.term], m.aargs.leaderCommit, m.aargs.term)
    ensures forall net :: net <= {m} ==> NetCommit(c, h, net)
  {
    hide CommitOk;
  }

  lemma SendCommit(c: Conf, s: Cluster, a: Action)
    requires WellFormed(c) && Shape(c, s) && Enabled(c, s, a) && a.SendAppend? && c.mode.locked && LogsInv(c, s) && CommitInv(c, s)
    requires Shape(c, Next(c, s, a)) && Evolves(c, s, Next(c, s, a))
    ensures Shape(c, Next(c, s, a)) && CommitInv(c, Next(c, s, a))
  {
    hide CommitOk, AppliedHistory, LogOk, LeadersOk, NetLogs, AppliedOk, Evolves, LeaderOk, Next, NetCommit, Suffix, Without;
    SendShape(c, s, a);
    var s' := Next(c, s, a);
    var n := s.nodes[a.i];
    assert NodeLogs(c, s.hist.leaderLog, a.i, n) && NodeCommit(c, s.hist, a.i, n);
    CommitWithin(c, s.hist, n.log, n.commit, n.term);
    ShipsWholeSuffix(CfgOf(c, a.i), n, a.peer);
    SentCommit(c, s.hist, AppendReq(a.peer, MakeAppend(CfgOf(c, a.i), n, a.peer)));
    hide LogsInv, NodeCommit, MakeAppend;
    NodeStays(c, s, s', a.i);
    AppliedStays(c, s, s');
    CommitFrame(c, s, s', a.i);
  }

  lemma LeaderCommitFields(cfg: Config, n: Node)
    requires forall p :: p in cfg.peers ==> p in n.peers
    ensures LeaderCommit(cfg, n) == n.(commit := LeaderCommit(cfg, n).commit) && LeaderCommit(cfg, n).commit >= n.commit
  {
  }

  lemma ReplyNode(c: Conf, h: History, i: Id, n: Node, m: Msg)
    requires WellFormed(c) && i in c.ids && NodeShape(c, i, n) && NodeCommit(c, h, i, n) && c.mode == CONTRACT
    requires n.role == Leader ==> n.term >= 1 && n.term in h.leaderLog && h.leaderLog[n.term] == n.log
    requires m.AppendResp? && m.peer in c.ids && m.peer != i
    requires m.areply.success ==> Acked(h, m.peer, m.request.term) >= m.request.prevIndex + |m.request.entries|
    ensures var n' := OnAppendReply(c.mode, CfgOf(c, i), n, m.peer, m.request, m.areply);
      NodeShape(c, i, n') ==> NodeCommit(c, h, i, n')
  {
    hide CommitOk, LeaderCommit;
    var n' := OnAppendReply(c.mode, CfgOf(c, i), n, m.peer, m.request, m.areply);
    if n.role == Leader && n.term == m.request.term {
      if m.areply.term > n.term {
        CommitLater(c, h, n.log, n.commit, n.term, n'.term);
      } else if m.areply.success {
        var x := m.request.prevIndex + |m.request.entries|;
        var n1 := n.(peers := n.peers[m.peer := Peer(x + 1, x)]);
        LeaderCommitOk(c, h, i, n1);
        LeaderCommitFields(CfgOf(c, i), n1);
      }
    }
  }

  lemma CommitLater(c: Conf, h: History, log: seq<Entry>, commit: nat, bound: nat, bound': nat)
    requires CommitOk(c, h, log, commit, bound) && bound <= bound'
    ensures CommitOk(c, h, log, commit, bound')
  {
    if commit > 0 {
      var t: nat, k: nat :| CommitBy(c, h, log, commit, bound, t, k);
      assert CommitBy(c, h, log, commit, bound', t, k);
    }
  }

  lemma ReplyShape(c: Conf, s: Cluster, a: Action)
    requires WellFormed(c) && Shape(c, s) && Enabled(c, s, a) && a.RecvAppendResp?
    ensures var s' := Next(c, s, a);
      && Shape(c, s') && s'.hist == s.hist && s'.net == s.net && s'.nodes == s.nodes[a.i := s'.nodes[a.i]]
      && s'.nodes[a.i] == OnAppendReply(c.mode, CfgOf(c, a.i), s.nodes[a.i], a.m.peer, a.m.request, a.m.areply)
  {
    NextShape(c, s, a);
  }

  lemma ReplyFacts(c: Conf, s: Cluster, a: Action)
    requires WellFormed(c) && Shape(c, s) && Enabled(c, s, a) && a.RecvAppendResp?
    requires VotesInv(c, s) && LogsInv(c, s) && CommitInv(c, s)
    ensures var n, ll := s.nodes[a.i], s.hist.leaderLog;
      && (n.role == Leader ==> n.term >= 1 && n.term in ll && ll[n.term] == n.log)
      && (a.m.areply.success ==>
            Acked(s.hist, a.m.peer, a.m.request.term) >= a.m.request.prevIndex + |a.m.request.entries|)
  {
    hide NodeCommit, AppliedHistory, LeadersOk, NetLogs, LogOk, CommitOk;
    assert NodeLogs(c, s.hist.leaderLog, a.i, s.nodes[a.i]);
    if s.nodes[a.i].role == Leader { LeaderWon(c, s, a.i); }
  }

  lemma ReplyCommit(c: Conf, s: Cluster, a: Action)
    requires WellFormed(c) && Shape(c, s) && Enabled(c, s, a) && a.RecvAppendResp? && c.mode == CONTRACT
    requires VotesInv(c, s) && LogsInv(c, s) && CommitInv(c, s) && Shape(c, Next(c, s, a)) && Evolves(c, s, Next(c, s, a))
    ensures Shape(c, Next(c, s, a)) && CommitInv(c, Next(c, s, a))
  {
    hide VotesInv, LogsInv, Next, Effect, NodeCommit, NetCommit, AppliedHistory, Evolves, OnAppendReply;
    ReplyShape(c, s, a);
    ReplyFacts(c, s, a);
    assert a.m.peer in c.ids && a.m.peer != a.i && NodeCommit(c, s.hist, a.i, s.nodes[a.i]);
    ReplyNode(c, s.hist, a.i, s.nodes[a.i], a.m);
    assert Next(c, s, a).net - s.net == {};
    EmptyNet(c, s.hist);
    CommitFrame(c, s, Next(c, s, a), a.i);
  }

  lemma AppliedNow(c: Conf, h: History, n: Node)
    requires CommitOk(c, h, n.log, n.commit, n.term) && CanApply(n)
    ensures Founded(c, h, Delivered(n.applied + 1, n.log[n.applied].cmd))
  {
    var t: nat, k: nat :| CommitBy(c, h, n.log, n.commit, n.term, t, k);
    assert AppliedBy(c, h, Delivered(n.applied + 1, n.log[n.applied].cmd), t, k);
  }

  lemma ApplyCommit(c: Conf, s: Cluster, a: Action)
    requires WellFormed(c) && Shape(c, s) && Enabled(c, s, a) && a.Apply? && CommitInv(c, s) && Shape(c, Next(c, s, a)) && Evolves(c, s, Next(c, s, a))
    ensures Shape(c, Next(c, s, a)) && CommitInv(c, Next(c, s, a))
  {
    hide Evolves, Founded, CommitOk;
    NextShape(c, s, a);
    var s' := Next(c, s, a);
    var n, n' := s.nodes[a.i], s'.nodes[a.i];
    assert NodeCommit(c, s.hist, a.i, n);
    AppliedNow(c, s.hist, n);
    forall d | d in s'.hist.applied ensures Founded(c, s'.hist, d) {
      FoundedStays(c, s, s', d);
    }
    CommitStays(c, s, s', n.log, n'.log, n.commit, n.term, n'.term);
    if n.role == Leader { NodeStaysLeader(c, s, s', a.i); }
    hide NetCommit;
    assert NodeCommit(c, s'.hist, a.i, n');
    assert s'.net - s.net == {};
    EmptyNet(c, s'.hist);
    CommitFrame(c, s, s', a.i);
  }

  lemma EmptyNet(c: Conf, h: History)
    ensures NetCommit(c, h, {})
  {
  }

  lemma CommitStep(c: Conf, s: Cluster, a: Action)
    requires WellFormed(c) && Shape(c, s) && Enabled(c, s, a) && c.mode == CONTRACT
    requires VotesInv(c, s) && LogsInv(c, s) && CompInv(c, s) && CommitInv(c, s)
    ensures Shape(c, Next(c, s, a)) && CommitInv(c, Next(c, s, a))
  {
    hide VotesInv, LogsInv, CompInv, CommitInv, Next, Effect, Evolves, Enabled, Resting, NetCommit;
    CompStep(c, s, a);
    NeverTorn(c, s, a);
    if RestingAction(a) {
      RestingShape(c, s, a);
      RestingCommit(c, s, Next(c, s, a), a.i);
    }
    else if a.Finish? { FinishCommit(c, s, a); }
    else if a.ClientPropose? { ProposeCommit(c, s, a); }
    else if a.SendAppend? { SendCommit(c, s, a); }
    else if a.RecvAppendReq? { RecvAppendCommit(c, s, a); }
    else if a.RecvAppendResp? { ReplyCommit(c, s, a); }
    else if a.Apply? { ApplyCommit(c, s, a); }
    else { CrashCommit(c, s, a); }
  }

  lemma InitCommit(c: Conf)
    ensures CommitInv(c, Init(c))
  {
  }

  lemma {:induction false} CommitReachable(c: Conf, acts: seq<Action>)
    requires WellFormed(c) && Run(c, acts).At? && c.mode == CONTRACT
    ensures CompInv(c, Run(c, acts).state) && CommitInv(c, Run(c, acts).state)
  {
    hide Next, Effect, VotesInv, LogsInv, CompInv, CommitInv, Enabled;
    CompReachable(c, acts);
    if acts == [] {
      InitCommit(c);
    } else {
      var prev := acts[..|acts| - 1];
      CompReachable(c, prev);
      CommitReachable(c, prev);
      CommitStep(c, Run(c, prev).state, acts[|acts| - 1]);
    }
  }

  /** No two apply calls, by any processes at any points of a run, give one index different commands. */
  lemma StateMachineSafety(c: Conf, acts: seq<Action>, d: Delivered, e: Delivered)
    requires WellFormed(c) && Run(c, acts).At? && c.mode == CONTRACT
    requires d in Run(c, acts).state.hist.applied && e in Run(c, acts).state.hist.applied && d.index == e.index
    ensures d == e
  {
    hide Run, Next, AckOk, StoreOk, VoteOk, LeadOk, CandOk, NodeCommit, NetCommit, Chosen;
    CommitReachable(c, acts);
    var s := Run(c, acts).state;
    assert Founded(c, s.hist, d) && Founded(c, s.hist, e);
    var t: nat, k: nat :| AppliedBy(c, s.hist, d, t, k);
    var u: nat, j: nat :| AppliedBy(c, s.hist, e, u, j);
    ChosenSame(c, s, t, k, u, j, d.index);
  }

  /**
    Each process has applied exactly the first `applied` commands of its log, in order and once, never
    beyond its commit index, and its commit index never points past its log.
   */
  lemma AppliesCommittedPrefix(c: Conf, acts: seq<Action>, v: Id)
    requires WellFormed(c) && Run(c, acts).At? && c.mode == CONTRACT && v in c.ids
    ensures var n := Run(c, acts).state.nodes[v];
      && n.applied <= n.commit <= |n.log|
      && n.delivered == seq(n.applied, j requires 0 <= j < n.applied && n.applied <= |n.log| => Delivered(j + 1, n.log[j].cmd))
  {
    hide Run, Next, CompInv, CommitOk, NetCommit, AppliedHistory;
    CommitReachable(c, acts);
    var s := Run(c, acts).state;
    assert NodeCommit(c, s.hist, v, s.nodes[v]);
    CommitWithin(c, s.hist, s.nodes[v].log, s.nodes[v].commit, s.nodes[v].term);
  }

  /** The committed prefixes of any two servers agree: one is a prefix of the other. */
  lemma CommittedPrefixesAgree(c: Conf, acts: seq<Action>, v: Id, w: Id)
    requires WellFormed(c) && Run(c, acts).At? && c.mode == CONTRACT && v in c.ids && w in c.ids
    ensures var n, m := Run(c, acts).state.nodes[v], Run(c, acts).state.nodes[w];
      n.commit <= |n.log| && m.commit <= |m.log| && (n.commit <= m.commit ==> n.log[..n.commit] <= m.log[..m.commit])
  {
    hide Run, Next, AckOk, StoreOk, VoteOk, CandOk, NetCommit, AppliedHistory, Blocked;
    CommitReachable(c, acts);
    var s := Run(c, acts).state;
    var n, m := s.nodes[v], s.nodes[w];
    assert NodeCommit(c, s.hist, v, n) && NodeCommit(c, s.hist, w, m);
    if 0 < n.commit <= m.commit {
      var t: nat, k: nat :| CommitBy(c, s.hist, n.log, n.commit, n.term, t, k);
      var u: nat, j: nat :| CommitBy(c, s.hist, m.log, m.commit, m.term, u, j);
      if t <= u { ChosenAgree(c, s, t, k, u, j); } else { ChosenAgree(c, s, u, j, t, k); }
      SamePrefix(n.log, m.log, s.hist.leaderLog[u], n.commit, m.commit);
    }
  }

  lemma SamePrefix(a: seq<Entry>, b: seq<Entry>, l: seq<Entry>, n: nat, m: nat)
    requires Matches(true, a, l, n) && Matches(true, b, l, m) && n <= m
    ensures n <= |a| && m <= |b| && a[..n] <= b[..m]
  {
  }

  lemma LeaderHolds(c: Conf, s: Cluster, log: seq<Entry>, commit: nat, bound: nat, u: nat)
    requires Shape(c, s) && LeadOk(c, s) && CommitOk(c, s.hist, log, commit, bound) && bound <= u && u in s.hist.leaderLog
    ensures commit <= |log| && log[..commit] <= s.hist.leaderLog[u]
  {
    hide Blocked;
    var ll := s.hist.leaderLog;
    if commit > 0 {
      var t: nat, k: nat :| CommitBy(c, s.hist, log, commit, bound, t, k);
      if t < u {
        ChosenNotBlocked(c, s, t, k);
        assert Kept(c, s, ll[u], t, k);
      }
      assert log[..commit] == ll[u][..commit];
    }
  }

  /** A current leader holds every entry committed at any server that has not moved past the leader's term. */
  lemma LeaderHoldsCommitted(c: Conf, acts: seq<Action>, v: Id, l: Id)
    requires WellFormed(c) && Run(c, acts).At? && c.mode == CONTRACT && v in c.ids && l in c.ids
    requires var s := Run(c, acts).state; s.nodes[l].role == Leader && s.nodes[v].term <= s.nodes[l].term
    ensures var n, m := Run(c, acts).state.nodes[v], Run(c, acts).state.nodes[l];
      n.commit <= |n.log| && n.log[..n.commit] <= m.log
  {
    hide Run, Next, AckOk, StoreOk, VoteOk, CandOk, NetCommit, AppliedHistory, LeadOk, VotesInv, LeadersOk, NetLogs, LogOk, CommitOk;
    CommitReachable(c, acts);
    LogsReachable(c, acts);
    var s := Run(c, acts).state;
    var n, m := s.nodes[v], s.nodes[l];
    assert NodeCommit(c, s.hist, v, n) && NodeLogs(c, s.hist.leaderLog, l, m);
    LeaderHolds(c, s, n.log, n.commit, n.term, m.term);
  }

  /** Under the contract a leader's match indices never pass its own log, so there the rule is exact. */
  lemma CommitRuleExactUnderContract(c: Conf, acts: seq<Action>, v: Id)
    requires WellFormed(c) && Run(c, acts).At? && c.mode == CONTRACT && v in c.ids
    requires Run(c, acts).state.nodes[v].role == Leader
    ensures var n := Run(c, acts).state.nodes[v];
      && (forall p :: p in CfgOf(c, v).peers ==> p in n.peers)
      && Specified(CfgOf(c, v), n, LeaderCommit(CfgOf(c, v), n).commit)
  {
    hide Run, Next, VotesInv, StoreOk, VoteOk, LeadOk, CandOk, NetCommit, AppliedHistory, CommitOk, LeadersOk, NetLogs, LogOk, Specified, LeaderCommit, MajorityValue, MatchValues;
    CommitReachable(c, acts);
    LogsReachable(c, acts);
    var s := Run(c, acts).state;
    var n, cfg := s.nodes[v], CfgOf(c, v);
    assert NodeCommit(c, s.hist, v, n) && NodeLogs(c, s.hist.leaderLog, v, n);
    TermsOrdered(c, acts, v);
    WithoutSize(c.ids, v);
    LeaderWon(c, s, v);
    forall p | p in cfg.peers ensures n.peers[p].matched <= |n.log| {
      if Acked(s.hist, p, n.term) > 0 { AckBound(c, s, p, n.term); }
    }
    MajorityWithin(cfg, n);
    CommitRuleMeetsSpec(cfg, n);
  }
}
