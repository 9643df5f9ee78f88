/**
  The cluster never gets stuck: under the contract, from every reachable state of two servers or more and for every
  command, it can go on to a state in which the command has been committed and applied. (That it will is a matter of
  timing and is not claimed.) A server alone never commits anything.
 */
module RaftProgress {
  import opened CommitRule
  import opened RaftRules
  import opened RaftCluster
  import opened RaftLogs
  import opened RaftCommitRule
  import opened RaftCompleteness
  import opened RaftEffects
  import opened RaftSafety
  import opened RaftSteps
  import opened RaftVoting

  // ---- the best candidate ----

  /** The first log is at least as up to date as the second. */
  predicate Further(a: seq<Entry>, b: seq<Entry>) {
    EndTerm(a) > EndTerm(b) || (EndTerm(a) == EndTerm(b) && |a| >= |b|)
  }

  lemma {:induction false} BestLog(ids: seq<Id>, nodes: map<Id, Node>) returns (i: Id)
    requires ids != [] && forall v :: v in ids ==> v in nodes
    ensures i in ids && forall v :: v in ids ==> Further(nodes[i].log, nodes[v].log)
  {
    if |ids| == 1 {
      i := ids[0];
    } else {
      i := BestLog(ids[1..], nodes);
      if !Further(nodes[i].log, nodes[ids[0]].log) { i := ids[0]; }
    }
  }

  lemma {:induction false} TopTerm(ids: seq<Id>, nodes: map<Id, Node>) returns (t: nat)
    requires forall v :: v in ids ==> v in nodes
    ensures forall v :: v in ids ==> nodes[v].term <= t
  {
    t := 0;
    if ids != [] {
      t := TopTerm(ids[1..], nodes);
      t := if nodes[ids[0]].term > t then nodes[ids[0]].term else t;
    }
  }

  lemma {:induction false} AllSize(ids: seq<Id>)
    requires forall i, j :: 0 <= i < j < |ids| ==> ids[i] != ids[j]
    ensures |SetOf(ids)| == |ids|
  {
    if ids != [] {
      AllSize(ids[1..]);
      assert ids[0] !in ids[1..];
    }
  }

  /** Server i stands and crashes until it has reached the term. */
  lemma {:induction false} Bump(c: Conf, s: Cluster, i: Id, t: nat) returns (s': Cluster)
    requires Reachable(c, s) && Shape(c, s) && i in c.ids
    ensures Shape(c, s') && Reachable(c, s') && Leads(c, s, s') && s'.nodes == s.nodes[i := s'.nodes[i]]
    ensures var n, n' := s.nodes[i], s'.nodes[i];
      n'.role == Follower && n'.election == NoElection && n'.term >= t && n'.log == n.log && n'.applied == 0
    decreases if s.nodes[i].term < t then t - s.nodes[i].term else 0
  {
    hide Reachable, Leads, NodeShape, FreshPeers, Without;
    var s1 := Step(c, s, Crash(i));
    if s1.nodes[i].term >= t {
      s' := s1;
    } else {
      var s2 := Stood(c, s1, i);
      LeadsThrough(c, s, s1, s2);
      s' := Bump(c, s2, i, t);
      LeadsThrough(c, s, s2, s');
    }
  }

  lemma FurtherVotes(n: Node, a: VoteArgs, log: seq<Entry>)
    requires a.term > n.term && a.lastTerm == EndTerm(log) && a.lastIndex == |log| && Further(log, n.log)
    ensures MayVote(n, a) && HandleVote(n, a).0.term == a.term
  {
    VoteExact(n, a);
  }

  /** When every other server may vote for i, it can come to lead with all of them in its new term. */
  lemma AllElect(c: Conf, s: Cluster, i: Id) returns (s': Cluster)
    requires WellFormed(c) && Reachable(c, s) && Shape(c, s) && i in c.ids
    requires s.nodes[i].role != Leader && s.nodes[i].election == NoElection
    requires var a := NextRequest(i, s.nodes[i]);
      forall v :: v in c.ids && v != i ==> MayVote(s.nodes[v], a) && HandleVote(s.nodes[v], a).0.term == a.term
    ensures Shape(c, s') && Reachable(c, s') && Leads(c, s, s')
    ensures s'.nodes[i].role == Leader && s'.nodes[i].applied == s.nodes[i].applied
    ensures forall v :: v in c.ids ==> s'.nodes[v].term == s.nodes[i].term + 1
  {
    hide Reachable, Leads, NodeShape, HandleVote, FreshPeers, EndTerm, MayVote;
    AllSize(c.ids);
    s' := MajorityElects(c, s, i, SetOf(c.ids));
  }

  /** Some server can come to lead a term no server has reached, with everyone else following it. */
  lemma SomeoneLeads(c: Conf, s: Cluster) returns (s': Cluster, i: Id)
    requires WellFormed(c) && Reachable(c, s) && Shape(c, s)
    ensures Shape(c, s') && Reachable(c, s') && Leads(c, s, s') && i in c.ids && s'.nodes[i].role == Leader && s'.nodes[i].applied == 0
    ensures forall v :: v in c.ids ==> s.nodes[v].term < s'.nodes[i].term && s'.nodes[v].term == s'.nodes[i].term
  {
    hide Reachable, Leads, NodeShape, HandleVote, EndTerm, MayVote, Further, WellFormed;
    assert c.ids != [] by { NotEmpty(c); }
    i := BestLog(c.ids, s.nodes);
    var t := TopTerm(c.ids, s.nodes);
    var s1 := Bump(c, s, i, t);
    var a := NextRequest(i, s1.nodes[i]);
    forall v | v in c.ids && v != i ensures MayVote(s1.nodes[v], a) && HandleVote(s1.nodes[v], a).0.term == a.term {
      FurtherVotes(s1.nodes[v], a, s.nodes[i].log);
    }
    s' := AllElect(c, s1, i);
    LeadsThrough(c, s, s1, s');
  }

  lemma NotEmpty(c: Conf)
    requires WellFormed(c)
    ensures c.ids != []
  {
  }

  // ---- bringing a follower up ----

  lemma Handled(mode: Mode, m: Node, a: AppendArgs)
    requires a.term >= m.term
    ensures var (m', r) := HandleAppend(mode, m, a);
      m'.term == a.term && r.term == m.term && (!r.success ==> a.prevIndex > 0)
  {
    hide Merge, Stamp;
  }

  /** A leader's rule applied twice changes nothing more. */
  lemma CommitSettles(cfg: Config, n: Node)
    requires forall p :: p in cfg.peers ==> p in n.peers
    ensures var n' := LeaderCommit(cfg, n);
      LeaderCommit(cfg, n') == n' && n' == n.(commit := n'.commit)
  {
    assert forall k: nat :: PeerMatches(n, cfg.peers) == PeerMatches(n.(commit := k), cfg.peers) by {
      forall k: nat ensures PeerMatches(n, cfg.peers) == PeerMatches(n.(commit := k), cfg.peers) {
        SameMatches(n, n.(commit := k), cfg.peers);
      }
    }
  }

  lemma {:induction false} SameMatches(n: Node, n': Node, peers: seq<Id>)
    requires n.peers == n'.peers && forall p :: p in peers ==> p in n.peers
    ensures PeerMatches(n, peers) == PeerMatches(n', peers)
  {
    if peers != [] { SameMatches(n, n', peers[1..]); }
  }

  /** Leader i still leads with the same log, knows v's match index, and has applied its commit rule. */
  ghost predicate Brought(c: Conf, s: Cluster, s': Cluster, i: Id, v: Id)
    requires Shape(c, s) && Shape(c, s') && i in c.ids && v in c.ids
  {
    var n, n' := s.nodes[i], s'.nodes[i];
    && n'.role == Leader && n'.term == n.term && n'.log == n.log && n'.applied == n.applied
    && n'.peers == n.peers[v := Peer(|n.log| + 1, |n.log|)]
    && (forall p :: p in CfgOf(c, i).peers ==> p in n'.peers) && LeaderCommit(CfgOf(c, i), n') == n'
    && s'.nodes == s.nodes[i := n'][v := s'.nodes[v]] && s'.nodes[v].term == n.term
  }

  /** Ship and answer: either v is brought up, or its next index goes down by one. */
  lemma Exchange(c: Conf, s: Cluster, i: Id, v: Id) returns (s': Cluster)
    requires WellFormed(c) && c.mode == CONTRACT && Reachable(c, s) && Shape(c, s) && i in c.ids && v in c.ids && i != v
    requires s.nodes[i].role == Leader && s.nodes[v].term <= s.nodes[i].term && v in s.nodes[i].peers
    ensures Shape(c, s') && Reachable(c, s') && Leads(c, s, s')
    ensures var n, n' := s.nodes[i], s'.nodes[i];
      || Brought(c, s, s', i, v)
      || (n.peers[v].next > 1 && n' == n.(peers := n.peers[v := n.peers[v].(next := n.peers[v].next - 1)])
          && s'.nodes == s.nodes[i := n'][v := s'.nodes[v]] && s'.nodes[v].term == n.term)
  {
    hide Reachable, Leads, HandleAppend, LeaderCommit, FollowerCommit, Run;
    var n := s.nodes[i];
    LeaderNext(c, s, i, v);
    var a := MakeAppend(CfgOf(c, i), n, v);
    var r := HandleAppend(c.mode, s.nodes[v], a).1;
    Handled(c.mode, s.nodes[v], a);
    var s1 := Ship(c, s, i, v);
    s' := Reply(c, s1, i, AppendResp(i, v, a, r));
    LeadsThrough(c, s, s1, s');
    if r.success {
      var n1 := n.(peers := n.peers[v := Peer(|n.log| + 1, |n.log|)]);
      CommitSettles(CfgOf(c, i), n1);
    }
  }

  lemma LeaderNext(c: Conf, s: Cluster, i: Id, v: Id)
    requires WellFormed(c) && c.mode == CONTRACT && Reachable(c, s) && Shape(c, s) && i in c.ids && v in c.ids && i != v
    requires s.nodes[i].role == Leader
    ensures NodeShape(c, i, s.nodes[i]) && 1 <= s.nodes[i].peers[v].next <= |s.nodes[i].log| + 1
    ensures forall p :: p in CfgOf(c, i).peers ==> p in s.nodes[i].peers
    ensures var a := MakeAppend(CfgOf(c, i), s.nodes[i], v); a.prevIndex + |a.entries| == |s.nodes[i].log|
  {
    hide Run, LogOk, LeadersOk, NetLogs;
    var acts :| Run(c, acts) == At(s);
    LogsReachable(c, acts);
    assert NodeLogs(c, s.hist.leaderLog, i, s.nodes[i]);
  }

  lemma {:induction false} Bring(c: Conf, s: Cluster, i: Id, v: Id) returns (s': Cluster)
    requires WellFormed(c) && c.mode == CONTRACT && Reachable(c, s) && Shape(c, s) && i in c.ids && v in c.ids && i != v
    requires s.nodes[i].role == Leader && s.nodes[v].term <= s.nodes[i].term && v in s.nodes[i].peers
    ensures Shape(c, s') && Reachable(c, s') && Leads(c, s, s') && Brought(c, s, s', i, v)
    decreases s.nodes[i].peers[v].next
  {
    hide Reachable, Leads, LeaderCommit, NodeShape, Without;
    s' := Exchange(c, s, i, v);
    if !Brought(c, s, s', i, v) {
      var s1 := s';
      s' := Bring(c, s1, i, v);
      LeadsThrough(c, s, s1, s');
    }
  }

  predicate Holds(n: Node, n': Node, p: Id, todo: set<Id>) {
    p in n.peers && p in n'.peers && n'.peers[p] == if p in todo then Peer(|n.log| + 1, |n.log|) else n.peers[p]
  }

  /** The servers in `todo` are known to hold the whole log; what was known of the others is still known. */
  ghost predicate AllBrought(c: Conf, s: Cluster, s': Cluster, i: Id, todo: set<Id>)
    requires Shape(c, s) && Shape(c, s') && i in c.ids
  {
    var n, n' := s.nodes[i], s'.nodes[i];
    && n'.role == Leader && n'.term == n.term && n'.log == n.log && n'.applied == n.applied
    && (forall p :: p in c.ids && p != i ==> Holds(n, n', p, todo))
    && (forall p :: p in CfgOf(c, i).peers ==> p in n'.peers)
    && (todo == {} ==> s' == s) && (todo != {} ==> LeaderCommit(CfgOf(c, i), n') == n')
  }

  lemma BroughtOn(c: Conf, s: Cluster, s1: Cluster, s': Cluster, i: Id, v: Id, todo: set<Id>)
    requires Shape(c, s) && Shape(c, s1) && Shape(c, s') && i in c.ids && v in todo && v in c.ids && v != i
    requires Brought(c, s, s1, i, v) && AllBrought(c, s1, s', i, todo - {v})
    ensures AllBrought(c, s, s', i, todo)
  {
    hide LeaderCommit, Without;
    assert NodeShape(c, i, s.nodes[i]);
    forall p | p in c.ids && p != i ensures Holds(s.nodes[i], s'.nodes[i], p, todo) {
      assert Holds(s1.nodes[i], s'.nodes[i], p, todo - {v});
    }
  }

  lemma BroughtNone(c: Conf, s: Cluster, i: Id)
    requires Shape(c, s) && i in c.ids && s.nodes[i].role == Leader
    ensures AllBrought(c, s, s, i, {})
  {
    assert NodeShape(c, i, s.nodes[i]);
  }

  lemma {:induction false} BringAll(c: Conf, s: Cluster, i: Id, todo: set<Id>) returns (s': Cluster)
    requires WellFormed(c) && c.mode == CONTRACT && Reachable(c, s) && Shape(c, s) && i in c.ids && i !in todo
    requires s.nodes[i].role == Leader && forall v :: v in todo ==> v in c.ids && s.nodes[v].term <= s.nodes[i].term
    ensures Shape(c, s') && Reachable(c, s') && Leads(c, s, s') && AllBrought(c, s, s', i, todo)
    decreases |todo|
  {
    hide Reachable, Leads, LeaderCommit, AllBrought, Without;
    if todo == {} {
      s' := s;
      LeadsSelf(c, s);
      BroughtNone(c, s, i);
    } else {
      var v :| v in todo;
      assert NodeShape(c, i, s.nodes[i]);
      var s1 := Bring(c, s, i, v);
      s' := BringAll(c, s1, i, todo - {v});
      LeadsThrough(c, s, s1, s');
      BroughtOn(c, s, s1, s', i, v, todo);
    }
  }

  // ---- committing and applying ----

  /** Everyone holds the last entry. */
  lemma AllHold(c: Conf, i: Id, n: Node)
    requires WellFormed(c) && i in c.ids
    requires forall p :: p in CfgOf(c, i).peers ==> p in n.peers && n.peers[p].matched == |n.log|
    ensures 2 * |Holders(CfgOf(c, i), n, |n.log|)| > |CfgOf(c, i).peers| + 1
  {
    var cfg := CfgOf(c, i);
    WithoutSize(c.ids, i);
    AllSize(cfg.peers);
    assert (set p | p in cfg.peers && n.peers[p].matched >= |n.log|) == SetOf(cfg.peers);
    AddOne(SetOf(cfg.peers), i);
  }

  /** A leader that knows its whole log, which ends in its own term, to be everywhere has committed it. */
  lemma WholeLogCommitted(c: Conf, s: Cluster, i: Id)
    requires WellFormed(c) && c.mode == CONTRACT && Reachable(c, s) && Shape(c, s) && i in c.ids
    requires var n := s.nodes[i]; n.role == Leader && n.log != [] && LastTerm(n.log) == n.term
    requires forall p :: p in CfgOf(c, i).peers ==> p in s.nodes[i].peers && s.nodes[i].peers[p].matched == |s.nodes[i].log|
    requires LeaderCommit(CfgOf(c, i), s.nodes[i]) == s.nodes[i]
    ensures s.nodes[i].commit == |s.nodes[i].log|
  {
    hide Run, LeaderCommit, Holders, Without;
    var acts :| Run(c, acts) == At(s);
    AppliesCommittedPrefix(c, acts, i);
    CommitRuleExactUnderContract(c, acts, i);
    AllHold(c, i, s.nodes[i]);
    assert s.nodes[i].commit < |s.nodes[i].log| ==> Committable(CfgOf(c, i), s.nodes[i], |s.nodes[i].log|);
  }

  /** A committed log can be applied to its end. */
  lemma {:induction false} ApplyUp(c: Conf, s: Cluster, i: Id) returns (s': Cluster)
    requires Reachable(c, s) && Shape(c, s) && i in c.ids
    requires var n := s.nodes[i]; n.applied < n.commit == |n.log|
    ensures Shape(c, s') && Reachable(c, s') && Leads(c, s, s')
    ensures var n := s.nodes[i];
      && Delivered(|n.log|, n.log[|n.log| - 1].cmd) in s'.hist.applied
      && s'.nodes[i].log == n.log && s'.nodes[i].applied == s'.nodes[i].commit == |n.log| && s'.nodes[i].term == n.term
    decreases s.nodes[i].commit - s.nodes[i].applied
  {
    hide Reachable, Leads, NodeShape;
    var s1 := Deliver(c, s, i);
    if s1.nodes[i].applied < s1.nodes[i].commit {
      s' := ApplyUp(c, s1, i);
      LeadsThrough(c, s, s1, s');
    } else {
      s' := s1;
    }
  }

  lemma OthersExist(c: Conf, i: Id)
    requires WellFormed(c) && |c.ids| >= 2 && i in c.ids
    ensures SetOf(c.ids) - {i} != {}
  {
    assert c.ids[0] in SetOf(c.ids) && c.ids[1] in SetOf(c.ids) && c.ids[0] != c.ids[1];
  }

  lemma EveryoneHolds(c: Conf, s: Cluster, s': Cluster, i: Id)
    requires Shape(c, s) && Shape(c, s') && i in c.ids && AllBrought(c, s, s', i, SetOf(c.ids) - {i})
    ensures forall p :: p in CfgOf(c, i).peers ==> p in s'.nodes[i].peers && s'.nodes[i].peers[p].matched == |s.nodes[i].log|
  {
    hide LeaderCommit;
    forall p | p in CfgOf(c, i).peers ensures p in s'.nodes[i].peers && s'.nodes[i].peers[p].matched == |s.nodes[i].log| {
      assert Holds(s.nodes[i], s'.nodes[i], p, SetOf(c.ids) - {i});
    }
  }

  lemma StillLeads(c: Conf, s: Cluster, s': Cluster, i: Id, todo: set<Id>)
    requires Shape(c, s) && Shape(c, s') && i in c.ids && AllBrought(c, s, s', i, todo) && todo != {}
    ensures var n, n' := s.nodes[i], s'.nodes[i];
      && n'.role == Leader && n'.term == n.term && n'.log == n.log && n'.applied == n.applied
      && (forall p :: p in CfgOf(c, i).peers ==> p in n'.peers) && LeaderCommit(CfgOf(c, i), n') == n'
  {
    hide LeaderCommit;
  }

  /**
    From every reachable state of a cluster of two or more, and for every command: the run can go on so that some server,
    in a term no server had reached, has committed the command at the end of its log and applied it.
   */
  lemma AlwaysProgress(c: Conf, acts: seq<Action>, cmd: Cmd) returns (later: seq<Action>, i: Id)
    requires WellFormed(c) && c.mode == CONTRACT && |c.ids| >= 2 && Run(c, acts).At?
    ensures Run(c, acts + later).At? && i in c.ids
    ensures var s, s' := Run(c, acts).state, Run(c, acts + later).state;
      var n := s'.nodes[i];
      && (forall v :: v in c.ids ==> s.nodes[v].term < n.term)
      && n.log != [] && n.log[|n.log| - 1] == Entry(n.term, cmd) && n.applied == n.commit == |n.log|
      && Delivered(|n.log|, cmd) in s'.hist.applied
  {
    hide Run, From, AllBrought, LeaderCommit, Without;
    var s := Run(c, acts).state;
    assert Reachable(c, s);
    hide Reachable;
    var s1;
    s1, i := SomeoneLeads(c, s);
    var s2 := Client(c, s1, i, cmd);
    LeadsThrough(c, s, s1, s2);
    var todo := SetOf(c.ids) - {i};
    var s3 := BringAll(c, s2, i, todo);
    LeadsThrough(c, s, s2, s3);
    OthersExist(c, i);
    EveryoneHolds(c, s2, s3, i);
    StillLeads(c, s2, s3, i, todo);
    WholeLogCommitted(c, s3, i);
    var s4 := ApplyUp(c, s3, i);
    LeadsThrough(c, s, s3, s4);
    later :| From(c, s, later) == At(s4);
    RunGoesOn(c, acts, later);
  }

  // ---- a server alone ----

  ghost predicate Alone(c: Conf, s: Cluster)
    requires Shape(c, s)
  {
    && (forall m :: m in s.net ==> !m.AppendReq? && !m.AppendResp?)
    && forall v :: v in c.ids ==> s.nodes[v].commit == 0
  }

  /** With one server nothing is ever shipped, and only answers to what was shipped move a commit index. */
  lemma {:induction false} AloneNeverCommits(c: Conf, acts: seq<Action>)
    requires |c.ids| == 1 && Run(c, acts).At?
    ensures Alone(c, Run(c, acts).state)
    ensures forall v :: v in c.ids ==> Run(c, acts).state.nodes[v].commit == 0
  {
    if acts != [] {
      var prev, a := acts[..|acts| - 1], acts[|acts| - 1];
      AloneNeverCommits(c, prev);
      AloneStep(c, Run(c, prev).state, a);
    }
  }

  lemma AloneStep(c: Conf, s: Cluster, a: Action)
    requires |c.ids| == 1 && Shape(c, s) && Enabled(c, s, a) && Alone(c, s)
    ensures Shape(c, Next(c, s, a)) && Alone(c, Next(c, s, a))
  {
    hide HandleAppend, OnAppendReply, MakeAppend, UpToDate, FreshPeers;
    NextShape(c, s, a);
  }
}
