/**
  Elections that can be won: in clusters of any size a server can win whenever a majority may vote for it.
 */
module RaftVoting {
  import opened RaftRules
  import opened RaftCluster
  import opened RaftEffects
  import opened RaftSteps

  // ---- a majority that may vote elects ----

  /** One voter votes and node i counts it. */
  lemma GatherOne(c: Conf, s: Cluster, i: Id, v: Id, a: VoteArgs, done: set<Id>) returns (s': Cluster)
    requires Reachable(c, s) && Shape(c, s) && i in c.ids && a.candidate == i && v in c.ids && v != i && v !in done
    requires var n := s.nodes[i]; n.role == Candidate && n.term == a.term && n.election == Election(a.term, done, done)
    requires VoteReq(v, a) in s.net && MayVote(s.nodes[v], a)
    ensures Shape(c, s') && Reachable(c, s') && Leads(c, s, s') && SameFacts(s.hist, s'.hist) && s.net <= s'.net
    ensures s'.nodes == s.nodes[v := HandleVote(s.nodes[v], a).0]
                               [i := s.nodes[i].(election := Election(a.term, done + {v}, done + {v}))]
  {
    hide Reachable, Leads, HandleVote, MayVote, OnVoteReply;
    VoteExact(s.nodes[v], a);
    var s1 := Vote(c, s, v, a);
    Counted(s.nodes[i], v, HandleVote(s.nodes[v], a).1, done);
    s' := Count(c, s1, i, VoteResp(i, v, a.term, HandleVote(s.nodes[v], a).1));
    LeadsThrough(c, s, s1, s');
  }

  /** Everyone in `todo` has handled the request, node i counts `all` votes, and the others are as they were. */
  ghost predicate Polled(c: Conf, s: Cluster, s': Cluster, i: Id, a: VoteArgs, todo: set<Id>, all: set<Id>)
    requires Shape(c, s) && Shape(c, s') && i in c.ids
  {
    && s'.nodes[i] == s.nodes[i].(election := Election(a.term, all, all))
    && forall v :: v in c.ids && v != i ==> s'.nodes[v] == (if v in todo then HandleVote(s.nodes[v], a).0 else s.nodes[v])
  }

  /** Candidate i may count every vote in `todo`. */
  ghost predicate Polling(c: Conf, s: Cluster, i: Id, a: VoteArgs, done: set<Id>, todo: set<Id>)
    requires Shape(c, s)
  {
    && i in c.ids && a.candidate == i && i !in todo && todo !! done
    && s.nodes[i].role == Candidate && s.nodes[i].term == a.term && s.nodes[i].election == Election(a.term, done, done)
    && forall v :: v in todo ==> v in c.ids && VoteReq(v, a) in s.net && MayVote(s.nodes[v], a)
  }

  lemma PolledOne(c: Conf, s: Cluster, s1: Cluster, i: Id, v: Id, a: VoteArgs, done: set<Id>, todo: set<Id>)
    requires Shape(c, s) && Shape(c, s1) && Polling(c, s, i, a, done, todo) && v in todo && s.net <= s1.net
    requires s1.nodes == s.nodes[v := HandleVote(s.nodes[v], a).0]
                                [i := s.nodes[i].(election := Election(a.term, done + {v}, done + {v}))]
    ensures Polling(c, s1, i, a, done + {v}, todo - {v}) && Polled(c, s, s1, i, a, {v}, done + {v})
  {
    hide HandleVote, MayVote, NodeShape;
  }

  lemma PolledOn(c: Conf, s: Cluster, s1: Cluster, s': Cluster, i: Id, v: Id, a: VoteArgs, done: set<Id>, todo: set<Id>)
    requires Shape(c, s) && Shape(c, s1) && Shape(c, s') && i in c.ids && v in todo
    requires Polled(c, s, s1, i, a, {v}, done + {v}) && Polled(c, s1, s', i, a, todo - {v}, done + {v} + (todo - {v}))
    ensures Polled(c, s, s', i, a, todo, done + todo)
  {
    hide HandleVote, NodeShape, Shape;
    assert done + {v} + (todo - {v}) == done + todo;
  }

  /** Node i collects the votes of everyone in `todo`. */
  lemma {:induction false} Gather(c: Conf, s: Cluster, i: Id, a: VoteArgs, done: set<Id>, todo: set<Id>) returns (s': Cluster)
    requires Reachable(c, s) && Shape(c, s) && Polling(c, s, i, a, done, todo)
    ensures Shape(c, s') && Reachable(c, s') && Leads(c, s, s') && Polled(c, s, s', i, a, todo, done + todo)
    decreases |todo|
  {
    if todo == {} {
      s' := s;
      LeadsSelf(c, s);
      assert done + todo == done;
    } else {
      hide Reachable, Leads, HandleVote, MayVote, SameFacts, Shape, NodeShape, Polled;
      var v :| v in todo;
      var s1 := GatherOne(c, s, i, v, a, done);
      PolledOne(c, s, s1, i, v, a, done, todo);
      s' := Gather(c, s1, i, a, done + {v}, todo - {v});
      LeadsThrough(c, s, s1, s');
      PolledOn(c, s, s1, s', i, v, a, done, todo);
    }
  }

  lemma Counted(n: Node, v: Id, r: VoteReply, done: set<Id>)
    requires n.election == Election(n.term, done, done) && r == VoteReply(n.term, true)
    ensures OnVoteReply(n, v, r) == n.(election := Election(n.term, done + {v}, done + {v}))
  {
  }

  /** The node that won, from the one that stood. */
  function Crowned(c: Conf, i: Id, n: Node): Node {
    n.(term := n.term + 1, votedFor := i, role := Leader, leaderId := i,
       peers := FreshPeers(CfgOf(c, i), |n.log|), election := NoElection, led := true)
  }

  lemma Crowns(c: Conf, s: Cluster, i: Id, q: set<Id>) returns (s': Cluster)
    requires WellFormed(c) && Reachable(c, s) && Shape(c, s) && i in c.ids && Quorum(c, q) && i in q
    requires var n := s.nodes[i]; n.role == Candidate && n.election == Election(n.term, q - {i}, q - {i})
    ensures Shape(c, s') && Reachable(c, s') && Leads(c, s, s')
    ensures var n := s.nodes[i];
      && s'.nodes == s.nodes[i := n.(role := Leader, leaderId := i, peers := FreshPeers(CfgOf(c, i), |n.log|), election := NoElection, led := true)]
      && Win(n.term, i) in s'.hist.wins
  {
    hide Reachable, Leads, FreshPeers;
    WithoutSize(c.ids, i);
    assert |q - {i}| == |q| - 1;
    s' := Step(c, s, Finish(i));
  }

  lemma Stood(c: Conf, s: Cluster, i: Id) returns (s': Cluster)
    requires Reachable(c, s) && Shape(c, s) && i in c.ids && s.nodes[i].role != Leader && s.nodes[i].election == NoElection
    ensures Shape(c, s') && Reachable(c, s') && Leads(c, s, s')
    ensures var n := s.nodes[i];
      s'.nodes == s.nodes[i := n.(term := n.term + 1, votedFor := i, role := Candidate, election := Election(n.term + 1, {}, {}))]
    ensures forall v :: v in c.ids && v != i ==> VoteReq(v, VoteRequest(CfgOf(c, i), s'.nodes[i])) in s'.net
  {
    hide Reachable, Leads;
    s' := Step(c, s, Start(i));
  }

  /** What server i asks for when it stands next. */
  function NextRequest(i: Id, n: Node): VoteArgs {
    VoteArgs(n.term + 1, i, |n.log|, EndTerm(n.log))
  }

  /**
    In every mode and every size of cluster: when server i may stand and a majority may vote for it in its next term, the
    cluster can go on to a state in which i has won that term with its log, each voter has voted for it, and the others
    are as they were.
   */
  lemma MajorityElects(c: Conf, s: Cluster, i: Id, q: set<Id>) returns (s': Cluster)
    requires WellFormed(c) && Reachable(c, s) && Shape(c, s) && i in c.ids && Quorum(c, q) && i in q
    requires s.nodes[i].role != Leader && s.nodes[i].election == NoElection
    requires forall v :: v in q && v != i ==> v in c.ids && MayVote(s.nodes[v], NextRequest(i, s.nodes[i]))
    ensures Shape(c, s') && Reachable(c, s') && Leads(c, s, s') && Win(s.nodes[i].term + 1, i) in s'.hist.wins
    ensures s'.nodes[i] == Crowned(c, i, s.nodes[i])
    ensures forall v :: v in c.ids && v != i ==>
      s'.nodes[v] == (if v in q then HandleVote(s.nodes[v], NextRequest(i, s.nodes[i])).0 else s.nodes[v])
  {
    hide Reachable, Leads, HandleVote, MayVote, FreshPeers, Without, Quorum;
    var a := NextRequest(i, s.nodes[i]);
    var s1 := Stood(c, s, i);
    assert VoteRequest(CfgOf(c, i), s1.nodes[i]) == a;
    var s2 := Gather(c, s1, i, a, {}, q - {i});
    assert {} + (q - {i}) == q - {i};
    s' := Crowns(c, s2, i, q);
    LeadsThrough(c, s, s1, s2);
    LeadsThrough(c, s, s2, s');
  }
}
