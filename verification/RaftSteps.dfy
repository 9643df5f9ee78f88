/** Runs of three servers, step by step: what one election, one shipment or one reply does to the cluster. */
module RaftSteps {
  import opened RaftRules
  import opened RaftCluster

  ghost predicate Reachable(c: Conf, s: Cluster) {
    exists acts :: Run(c, acts) == At(s)
  }

  /** The cluster after further actions, or Stuck when one of them was not enabled. */
  function From(c: Conf, s: Cluster, later: seq<Action>): (r: Outcome)
    requires Shape(c, s)
    ensures r.At? ==> Shape(c, r.state)
    decreases |later|
  {
    if later == [] then At(s)
    else if Enabled(c, s, later[0]) then
      NextShape(c, s, later[0]);
      From(c, Next(c, s, later[0]), later[1..])
    else Stuck
  }

  /** From s the cluster can go on to s'. */
  ghost predicate Leads(c: Conf, s: Cluster, s': Cluster)
    requires Shape(c, s)
  {
    exists later :: From(c, s, later) == At(s')
  }

  lemma LeadsSelf(c: Conf, s: Cluster)
    requires Shape(c, s)
    ensures Leads(c, s, s)
  {
    assert From(c, s, []) == At(s);
  }

  lemma {:induction false} FromJoins(c: Conf, s: Cluster, first: seq<Action>, later: seq<Action>)
    requires Shape(c, s) && From(c, s, first).At?
    ensures From(c, s, first + later) == From(c, From(c, s, first).state, later)
    decreases |first|
  {
    hide Next, Enabled;
    if first == [] {
      assert first + later == later;
    } else {
      NextShape(c, s, first[0]);
      FromJoins(c, Next(c, s, first[0]), first[1..], later);
      assert (first + later)[1..] == first[1..] + later;
    }
  }

  lemma LeadsThrough(c: Conf, s: Cluster, s1: Cluster, s': Cluster)
    requires Shape(c, s) && Shape(c, s1) && Leads(c, s, s1) && Leads(c, s1, s')
    ensures Leads(c, s, s')
  {
    hide From;
    var first :| From(c, s, first) == At(s1);
    var later :| From(c, s1, later) == At(s');
    FromJoins(c, s, first, later);
    assert From(c, s, first + later) == At(s');
  }

  lemma {:induction false} StuckStays(c: Conf, acts: seq<Action>, later: seq<Action>)
    requires Run(c, acts).Stuck?
    ensures Run(c, acts + later).Stuck?
    decreases |later|
  {
    hide Next, Enabled;
    if later == [] {
      assert acts + later == acts;
    } else {
      var front := later[..|later| - 1];
      StuckStays(c, acts, front);
      assert (acts + later)[..|acts + later| - 1] == acts + front;
    }
  }

  /** Going on from where a run ended is a longer run. */
  lemma {:induction false} RunGoesOn(c: Conf, acts: seq<Action>, later: seq<Action>)
    requires Run(c, acts).At?
    ensures Run(c, acts + later) == From(c, Run(c, acts).state, later)
    decreases |later|
  {
    hide Next, Enabled;
    if later == [] {
      assert acts + later == acts;
    } else {
      var a := later[0];
      assert (acts + [a])[..|acts|] == acts;
      assert acts + [a] + later[1..] == acts + later;
      if Enabled(c, Run(c, acts).state, a) {
        RunGoesOn(c, acts + [a], later[1..]);
      } else {
        StuckStays(c, acts + [a], later[1..]);
      }
    }
  }

  lemma Step(c: Conf, s: Cluster, a: Action) returns (s': Cluster)
    requires Reachable(c, s) && Shape(c, s) && Enabled(c, s, a)
    ensures Shape(c, s') && Reachable(c, s') && s' == Next(c, s, a) && Leads(c, s, s')
  {
    hide Next, Enabled;
    var acts :| Run(c, acts) == At(s);
    NextShape(c, s, a);
    s' := Next(c, s, a);
    assert [a][1..] == [] && From(c, s', []) == At(s');
    assert From(c, s, [a]) == At(s');
    RunGoesOn(c, acts, [a]);
    assert Run(c, acts + [a]) == At(s');
  }

  // ---- three servers ----

  const A: Id := "a"
  const B: Id := "b"
  const C: Id := "c"
  const X: Cmd := [1]
  const Y: Cmd := [2]

  function Trio(mode: Mode): Conf {
    Conf([A, B, C], mode)
  }

  lemma Names()
    ensures A != B && A != C && B != C && A != "" && B != "" && C != ""
  {
    assert A[0] == 'a' && B[0] == 'b' && C[0] == 'c';
  }

  lemma TrioPeers(mode: Mode)
    ensures CfgOf(Trio(mode), A) == Config(A, [B, C])
    ensures CfgOf(Trio(mode), B) == Config(B, [A, C])
    ensures CfgOf(Trio(mode), C) == Config(C, [A, B])
    ensures forall i :: i in Trio(mode).ids <==> i == A || i == B || i == C
    ensures A != B && A != C && B != C
  {
    Names();
    var ids := [A, B, C];
    assert ids[1..] == [B, C] && ids[1..][1..] == [C] && ids[1..][1..][1..] == [];
    forall i ensures Without(ids, i) == (if A == i then [] else [A]) + (if B == i then [] else [B]) + (if C == i then [] else [C]) {
      assert Without([C], i) == (if C == i then [] else [C]) + Without([], i);
      assert Without([B, C], i) == (if B == i then [] else [B]) + Without([C], i);
    }
  }

  predicate SameFacts(h: History, h': History) {
    h'.wins == h.wins && h'.leaderLog == h.leaderLog && h'.acked == h.acked && h'.applied == h.applied
  }

  lemma Stand(c: Conf, s: Cluster, i: Id, v: Id) returns (s': Cluster)
    requires Reachable(c, s) && Shape(c, s) && i in c.ids && v in c.ids && i != v
    requires s.nodes[i].role != Leader && s.nodes[i].election == NoElection
    ensures Shape(c, s') && Reachable(c, s') && s.net <= s'.net && Leads(c, s, s') && SameFacts(s.hist, s'.hist)
    ensures s'.nodes == s.nodes[i := StartElection(CfgOf(c, i), s.nodes[i])]
    ensures VoteReq(v, VoteRequest(CfgOf(c, i), s'.nodes[i])) in s'.net
  {
    hide Leads;
    s' := Step(c, s, Start(i));
  }

  lemma Vote(c: Conf, s: Cluster, v: Id, a: VoteArgs) returns (s': Cluster)
    requires Reachable(c, s) && Shape(c, s) && v in c.ids && VoteReq(v, a) in s.net
    ensures Shape(c, s') && Reachable(c, s') && s.net <= s'.net && Leads(c, s, s') && SameFacts(s.hist, s'.hist)
    ensures s'.nodes == s.nodes[v := HandleVote(s.nodes[v], a).0]
    ensures VoteResp(a.candidate, v, a.term, HandleVote(s.nodes[v], a).1) in s'.net
  {
    hide HandleVote, Leads;
    s' := Step(c, s, RecvVoteReq(v, VoteReq(v, a)));
  }

  lemma Count(c: Conf, s: Cluster, i: Id, m: Msg) returns (s': Cluster)
    requires Reachable(c, s) && Shape(c, s) && Enabled(c, s, RecvVoteResp(i, m))
    ensures Shape(c, s') && Reachable(c, s') && s.net <= s'.net && Leads(c, s, s') && SameFacts(s.hist, s'.hist)
    ensures s'.nodes == s.nodes[i := OnVoteReply(s.nodes[i], m.voter, m.vreply)]
  {
    hide OnVoteReply, Leads;
    s' := Step(c, s, RecvVoteResp(i, m));
  }

  lemma Win3(mode: Mode, s: Cluster, i: Id, v: Id) returns (s': Cluster)
    requires var c := Trio(mode); Reachable(c, s) && Shape(c, s) && i in c.ids
    requires var n := s.nodes[i]; n.role == Candidate && n.election.Election? && n.election.voters == {v}
    ensures var c, n := Trio(mode), s.nodes[i];
      && Shape(c, s') && Reachable(c, s') && s.net <= s'.net
      && s'.nodes == s.nodes[i := n.(role := Leader, leaderId := i, peers := FreshPeers(CfgOf(c, i), |n.log|), election := NoElection, led := true)]
      && s'.hist.wins == s.hist.wins[Win(n.term, i) := {v, i}]
      && s'.hist.leaderLog == s.hist.leaderLog[n.term := n.log]
      && s'.hist.acked == s.hist.acked[(i, n.term) := |n.log|] && s'.hist.applied == s.hist.applied
  {
    TrioPeers(mode);
    assert |s.nodes[i].election.voters| == 1 && {v} + {i} == {v, i};
    s' := Step(Trio(mode), s, Finish(i));
  }

  lemma Grants1(m: Node, a: VoteArgs)
    requires a.term > m.term && UpToDate(m.log, a.lastTerm, a.lastIndex)
    ensures HandleVote(m, a) == (BecomeFollower(m, a.term).(votedFor := a.candidate), VoteReply(a.term, true))
  {
    hide UpToDate;
  }

  lemma CountsOne(n: Node, v: Id, r: VoteReply)
    requires n.election == Election(n.term, {}, {}) && r == VoteReply(n.term, true)
    ensures OnVoteReply(n, v, r) == n.(election := Election(n.term, {v}, {v}))
  {
    assert n.election.voters + {v} == {v};
  }

  /** Server i, not leading, wins an election with the vote of v. */
  lemma Elect(mode: Mode, s: Cluster, i: Id, v: Id) returns (s': Cluster)
    requires var c := Trio(mode); Reachable(c, s) && Shape(c, s) && i in c.ids && v in c.ids && i != v
    requires var n, m := s.nodes[i], s.nodes[v];
      n.role != Leader && n.election == NoElection && m.term <= n.term && UpToDate(m.log, LastTerm(n.log), |n.log|)
    ensures var c, n, m, t := Trio(mode), s.nodes[i], s.nodes[v], s.nodes[i].term + 1;
      && Shape(c, s') && Reachable(c, s') && s.net <= s'.net
      && s'.nodes == s.nodes[v := BecomeFollower(m, t).(votedFor := i)]
                            [i := n.(term := t, votedFor := i, role := Leader, leaderId := i,
                                     peers := FreshPeers(CfgOf(c, i), |n.log|), election := NoElection, led := true)]
      && s'.hist.wins == s.hist.wins[Win(t, i) := {v, i}]
      && s'.hist.leaderLog == s.hist.leaderLog[t := n.log]
      && s'.hist.acked == s.hist.acked[(i, t) := |n.log|] && s'.hist.applied == s.hist.applied
  {
    hide Reachable, FreshPeers, UpToDate, HandleVote, OnVoteReply, StartElection, NodeShape, LastTerm, Without, BecomeFollower;
    var t := s.nodes[i].term + 1;
    var s2 := Ask(Trio(mode), s, i, v);
    Stands(CfgOf(Trio(mode), i), s.nodes[i]);
    var s3 := Count(Trio(mode), s2, i, VoteResp(i, v, t, VoteReply(t, true)));
    CountsOne(s2.nodes[i], v, VoteReply(t, true));
    s' := Win3(mode, s3, i, v);
  }

  /** Server i stands and v, no further in term and no more up to date, votes for it. */
  lemma Ask(c: Conf, s: Cluster, i: Id, v: Id) returns (s': Cluster)
    requires Reachable(c, s) && Shape(c, s) && i in c.ids && v in c.ids && i != v
    requires var n, m := s.nodes[i], s.nodes[v];
      n.role != Leader && n.election == NoElection && m.term <= n.term && UpToDate(m.log, LastTerm(n.log), |n.log|)
    ensures var n, m, t := s.nodes[i], s.nodes[v], s.nodes[i].term + 1;
      && Shape(c, s') && Reachable(c, s') && s.net <= s'.net && SameFacts(s.hist, s'.hist)
      && s'.nodes == s.nodes[i := StartElection(CfgOf(c, i), n)][v := BecomeFollower(m, t).(votedFor := i)]
      && VoteResp(i, v, t, VoteReply(t, true)) in s'.net
  {
    hide Reachable, Leads, NodeShape, UpToDate, HandleVote, StartElection, Without, BecomeFollower;
    var n, m := s.nodes[i], s.nodes[v];
    Stands(CfgOf(c, i), n);
    var s1 := Stand(c, s, i, v);
    var args := VoteRequest(CfgOf(c, i), s1.nodes[i]);
    Grants1(m, args);
    s' := Vote(c, s1, v, args);
  }

  lemma Stands(cfg: Config, n: Node)
    ensures StartElection(cfg, n) ==
      n.(term := n.term + 1, votedFor := cfg.id, role := Candidate, election := Election(n.term + 1, {}, {}))
  {
  }

  lemma Client(c: Conf, s: Cluster, i: Id, cmd: Cmd) returns (s': Cluster)
    requires Reachable(c, s) && Shape(c, s) && i in c.ids && s.nodes[i].role == Leader
    ensures Shape(c, s') && Reachable(c, s') && s.net <= s'.net && Leads(c, s, s')
    ensures s'.nodes == s.nodes[i := Propose(s.nodes[i], cmd)]
    ensures var n := s.nodes[i];
      && s'.hist.wins == s.hist.wins && s'.hist.leaderLog == s.hist.leaderLog[n.term := n.log + [Entry(n.term, cmd)]]
      && s'.hist.acked == s.hist.acked[(i, n.term) := |n.log| + 1] && s'.hist.applied == s.hist.applied
  {
    hide Reachable, Leads;
    s' := Step(c, s, ClientPropose(i, cmd));
  }

  /** Leader i ships to v, who handles the request at once. */
  lemma Ship(c: Conf, s: Cluster, i: Id, v: Id) returns (s': Cluster)
    requires Reachable(c, s) && Shape(c, s) && i in c.ids && v in c.ids && i != v && s.nodes[i].role == Leader
    requires NodeShape(c, i, s.nodes[i])
    ensures var a := MakeAppend(CfgOf(c, i), s.nodes[i], v);
      var (m, r) := HandleAppend(c.mode, s.nodes[v], a);
      && Shape(c, s') && Reachable(c, s') && s.net <= s'.net && Leads(c, s, s')
      && s'.nodes == s.nodes[v := m] && AppendResp(i, v, a, r) in s'.net
      && s'.hist.wins == s.hist.wins && s'.hist.leaderLog == s.hist.leaderLog && s'.hist.applied == s.hist.applied
      && s'.hist.acked == if r.success
           then s.hist.acked[(v, a.term) := MaxNat(Acked(s.hist, v, a.term), a.prevIndex + |a.entries|)]
           else s.hist.acked
  {
    hide HandleAppend, Reachable, Leads;
    var a := MakeAppend(CfgOf(c, i), s.nodes[i], v);
    var s1 := Step(c, s, SendAppend(i, v));
    s' := Step(c, s1, RecvAppendReq(v, AppendReq(v, a)));
    LeadsThrough(c, s, s1, s');
  }

  lemma Reply(c: Conf, s: Cluster, i: Id, m: Msg) returns (s': Cluster)
    requires Shape(c, s) && i in c.ids && m.AppendResp? && m.peer in s.nodes[i].peers
    requires forall p :: p in CfgOf(c, i).peers ==> p in s.nodes[i].peers
    requires Enabled(c, s, RecvAppendResp(i, m)) && Reachable(c, s)
    ensures Shape(c, s') && Reachable(c, s') && s.net <= s'.net && Leads(c, s, s') && SameFacts(s.hist, s'.hist)
    ensures s'.nodes == s.nodes[i := OnAppendReply(c.mode, CfgOf(c, i), s.nodes[i], m.peer, m.request, m.areply)]
  {
    hide OnAppendReply, Leads;
    s' := Step(c, s, RecvAppendResp(i, m));
  }

  lemma Deliver(c: Conf, s: Cluster, i: Id) returns (s': Cluster)
    requires Reachable(c, s) && Shape(c, s) && i in c.ids && CanApply(s.nodes[i])
    ensures Shape(c, s') && Reachable(c, s') && s.net <= s'.net && Leads(c, s, s')
    ensures s'.nodes == s.nodes[i := ApplyOne(s.nodes[i])]
    ensures var n := s.nodes[i]; s'.hist.applied == s.hist.applied + {Delivered(n.applied + 1, n.log[n.applied].cmd)}
    ensures s'.hist.wins == s.hist.wins && s'.hist.leaderLog == s.hist.leaderLog && s'.hist.acked == s.hist.acked
  {
    hide Reachable, Leads;
    s' := Step(c, s, Apply(i));
  }

  predicate Looks(n: Node, term: nat, role: Role, log: seq<Entry>) {
    n.term == term && n.role == role && n.log == log && n.election == NoElection
  }

  lemma InitReachable(c: Conf)
    ensures Shape(c, Init(c)) && Reachable(c, Init(c))
  {
    assert Run(c, []) == At(Init(c));
  }

  lemma EmptyIsUpToDate()
    ensures UpToDate([], LastTerm([]), 0)
  {
  }
}
