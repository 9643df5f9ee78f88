/**
  Election Safety of the code as written: at most one server ever leads a term. A candidate that
  fails to win clears its own vote without leaving the term and may then vote for a rival, so
  "one vote per server and term" only holds up to such dead self-candidacies.
 */
module RaftElection {
  import opened RaftRules
  import opened RaftCluster

  ghost predicate NodeVotes(c: Conf, bs: set<Ballot>, ws: map<Win, set<Id>>, v: Id, n: Node) {
    && (n.votedFor != "" ==> Ballot(v, n.term, n.votedFor) in bs)
    && (forall b :: b in bs && b.voter == v ==> b.term <= n.term)
    && (forall b :: b in bs && b.voter == v && b.term == n.term && b.candidate != v ==> n.votedFor == b.candidate)
    && (n.role == Candidate ==> n.election.Election? && n.election.term == n.term && n.votedFor == v)
    && (n.role == Leader ==> Win(n.term, v) in ws)
    && (Win(n.term, v) in ws ==> n.votedFor == v && n.role != Candidate)
    && (n.election.Election? ==> NodeTally(c, bs, v, n.election) && n.election.term <= n.term)
  }

  ghost predicate NodeTally(c: Conf, bs: set<Ballot>, v: Id, e: Election)
    requires e.Election?
  {
    && Ballot(v, e.term, v) in bs
    && (forall p :: p in e.voters ==> p in c.ids && p != v && Ballot(p, e.term, v) in bs)
  }

  predicate SameSlot(b: Ballot, b': Ballot) {
    b.voter == b'.voter && b.term == b'.term && b.candidate != b.voter && b'.candidate != b'.voter
  }

  ghost predicate BallotsOk(c: Conf, bs: set<Ballot>, ws: map<Win, set<Id>>) {
    && (forall b :: b in bs ==> b.voter in c.ids && b.candidate in c.ids && b.term >= 1)
    && (forall b, b' :: b in bs && b' in bs && SameSlot(b, b') ==> b == b')
    && (forall b :: b in bs && b.candidate != b.voter && Ballot(b.voter, b.term, b.voter) in bs
          ==> Win(b.term, b.voter) !in ws)
  }

  ghost predicate WinsOk(c: Conf, bs: set<Ballot>, ws: map<Win, set<Id>>) {
    forall w :: w in ws ==>
      && Quorum(c, ws[w]) && w.leader in ws[w]
      && (forall v :: v in ws[w] ==> Ballot(v, w.term, w.leader) in bs)
  }

  ghost predicate NetVotes(c: Conf, bs: set<Ballot>, net: set<Msg>) {
    && (forall m :: m in net && m.VoteReq? ==> m.vargs.term >= 1 && m.vargs.candidate in c.ids && m.vargs.candidate != m.dest)
    && (forall m :: m in net && m.VoteResp? && m.vreply.granted ==>
          m.voter in c.ids && m.voter != m.dest && Ballot(m.voter, m.vterm, m.dest) in bs)
  }

  ghost predicate VotesInv(c: Conf, s: Cluster)
    requires Shape(c, s)
  {
    && (forall v :: v in c.ids ==> NodeVotes(c, s.hist.ballots, s.hist.wins, v, s.nodes[v]))
    && BallotsOk(c, s.hist.ballots, s.hist.wins) && WinsOk(c, s.hist.ballots, s.hist.wins) && NetVotes(c, s.hist.ballots, s.net)
  }

  /** Votes of distinct candidates in one term come from one voter only if one of them was its own. */
  lemma OneWinner(c: Conf, h: History, a: Win, b: Win)
    requires BallotsOk(c, h.ballots, h.wins) && WinsOk(c, h.ballots, h.wins)
    requires a in h.wins && b in h.wins && a.term == b.term
    ensures a == b
  {
    var v := Intersect(c, h.wins[a], h.wins[b]);
    assert Ballot(v, a.term, a.leader) in h.ballots && Ballot(v, b.term, b.leader) in h.ballots;
  }

  /** Nothing about votes changes except at node i, whose term does not go back. */
  lemma VotesFrame(c: Conf, s: Cluster, i: Id, n': Node, sent: set<Msg>, h': History)
    requires Shape(c, s) && VotesInv(c, s) && i in c.ids && NodeShape(c, i, n')
    requires h'.ballots == s.hist.ballots && h'.wins == s.hist.wins
    requires NodeVotes(c, s.hist.ballots, s.hist.wins, i, n') && NetVotes(c, s.hist.ballots, sent)
    ensures Shape(c, Cluster(s.nodes[i := n'], s.net + sent, h'))
    ensures VotesInv(c, Cluster(s.nodes[i := n'], s.net + sent, h'))
  {
    var s' := Cluster(s.nodes[i := n'], s.net + sent, h');
    forall v | v in c.ids ensures NodeVotes(c, h'.ballots, h'.wins, v, s'.nodes[v]) {
      assert NodeVotes(c, s.hist.ballots, s.hist.wins, v, s'.nodes[v]);
    }
  }

  /** Following a higher term forgets the vote, and no ballot of that term exists yet. */
  lemma FollowVotes(c: Conf, bs: set<Ballot>, ws: map<Win, set<Id>>, v: Id, n: Node, t: nat)
    requires NodeVotes(c, bs, ws, v, n) && WinsOk(c, bs, ws) && t > n.term
    ensures NodeVotes(c, bs, ws, v, BecomeFollower(n, t))
  {
    assert Win(t, v) in ws ==> Ballot(v, t, v) in bs;
  }

  /** Stepping down, or finishing an election, without leaving the term and keeping the vote. */
  lemma KeepVotes(c: Conf, bs: set<Ballot>, ws: map<Win, set<Id>>, v: Id, n: Node, n': Node)
    requires NodeVotes(c, bs, ws, v, n)
    requires n'.term == n.term && n'.votedFor == n.votedFor
    requires n'.role == Follower || (n'.role == n.role && n'.election == n.election)
    requires n'.election == n.election || n'.election == NoElection
    ensures NodeVotes(c, bs, ws, v, n')
  {
  }

  /** A new ballot by voter i in its current term leaves everything said of other voters intact. */
  lemma CastBallot(c: Conf, s: Cluster, i: Id, n': Node, sent: set<Msg>, h': History, b: Ballot)
    requires Shape(c, s) && VotesInv(c, s) && i in c.ids && NodeShape(c, i, n')
    requires h'.ballots == s.hist.ballots + {b} && h'.wins == s.hist.wins
    requires b.voter == i && b.candidate in c.ids && NodeVotes(c, h'.ballots, h'.wins, i, n')
    requires NetVotes(c, h'.ballots, sent) && BallotsOk(c, h'.ballots, h'.wins)
    ensures Shape(c, Cluster(s.nodes[i := n'], s.net + sent, h'))
    ensures VotesInv(c, Cluster(s.nodes[i := n'], s.net + sent, h'))
  {
    var s' := Cluster(s.nodes[i := n'], s.net + sent, h');
    forall v | v in c.ids ensures NodeVotes(c, h'.ballots, h'.wins, v, s'.nodes[v]) {
      if v != i { OtherBallot(c, s.hist.ballots, s.hist.wins, v, s.nodes[v], b); }
    }
  }

  lemma OtherBallot(c: Conf, bs: set<Ballot>, ws: map<Win, set<Id>>, v: Id, n: Node, b: Ballot)
    requires NodeVotes(c, bs, ws, v, n) && b.voter != v
    ensures NodeVotes(c, bs + {b}, ws, v, n)
  {
  }

  /** A server that has not voted in its term, or voted the same way, may cast this ballot. */
  lemma NewBallot(c: Conf, bs: set<Ballot>, ws: map<Win, set<Id>>, n: Node, b: Ballot)
    requires WellFormed(c) && BallotsOk(c, bs, ws) && NodeVotes(c, bs, ws, b.voter, n)
    requires b.term == n.term >= 1 && b.voter in c.ids && b.candidate in c.ids && b.candidate != ""
    requires n.votedFor == "" || (n.votedFor == b.candidate && b.candidate != b.voter)
    ensures BallotsOk(c, bs + {b}, ws)
  {
    forall x, y | x in bs + {b} && y in bs + {b} && SameSlot(x, y) ensures x == y {
    }
    forall x | x in bs + {b} && x.candidate != x.voter && Ballot(x.voter, x.term, x.voter) in bs + {b}
      ensures Win(x.term, x.voter) !in ws
    {
      if x != b && Ballot(x.voter, x.term, x.voter) != b {
        assert x in bs && Ballot(x.voter, x.term, x.voter) in bs;
      }
    }
  }

  lemma StartNode(c: Conf, bs: set<Ballot>, ws: map<Win, set<Id>>, i: Id, n: Node)
    requires NodeVotes(c, bs, ws, i, n) && WinsOk(c, bs, ws) && i != ""
    ensures NodeVotes(c, bs + {Ballot(i, n.term + 1, i)}, ws, i, StartElection(CfgOf(c, i), n))
  {
    FollowVotes(c, bs, ws, i, n, n.term + 1);
  }

  lemma StartVotes(c: Conf, s: Cluster, a: Action)
    requires WellFormed(c) && Shape(c, s) && VotesInv(c, s) && a.Start? && Enabled(c, s, a)
    ensures Shape(c, Next(c, s, a)) && VotesInv(c, Next(c, s, a))
  {
    var n := s.nodes[a.i];
    var bs, ws := s.hist.ballots, s.hist.wins;
    var (n', sent, h') := Effect(c, s, a);
    FollowVotes(c, bs, ws, a.i, n, n.term + 1);
    var b := Ballot(a.i, n.term + 1, a.i);
    NewBallot(c, bs, ws, BecomeFollower(n, n.term + 1), b);
    StartNode(c, bs, ws, a.i, n);
    assert NodeShape(c, a.i, n) && NodeShape(c, a.i, n');
    CastBallot(c, s, a.i, n', sent, h', b);
  }

  lemma GrantNode(c: Conf, bs: set<Ballot>, ws: map<Win, set<Id>>, i: Id, n: Node, cand: Id)
    requires WellFormed(c) && i in c.ids && BallotsOk(c, bs, ws) && NodeVotes(c, bs, ws, i, n)
    requires cand in c.ids && cand != i && (n.votedFor == "" || n.votedFor == cand)
    ensures NodeVotes(c, bs + {Ballot(i, n.term, cand)}, ws, i, n.(votedFor := cand))
  {
  }

  lemma GrantVotes(c: Conf, s: Cluster, a: Action)
    requires WellFormed(c) && Shape(c, s) && VotesInv(c, s) && a.RecvVoteReq? && Enabled(c, s, a)
    ensures Shape(c, Next(c, s, a)) && VotesInv(c, Next(c, s, a))
  {
    hide NodeVotes, BallotsOk, WinsOk, UpToDate;
    var n := s.nodes[a.i];
    var bs, ws := s.hist.ballots, s.hist.wins;
    var args := a.m.vargs;
    assert NodeVotes(c, bs, ws, a.i, n);
    if args.term > n.term { FollowVotes(c, bs, ws, a.i, n, args.term); }
    var n1 := if args.term > n.term then BecomeFollower(n, args.term) else n;
    var (n', sent, h') := Effect(c, s, a);
    assert NodeShape(c, a.i, n) && NodeShape(c, a.i, n');
    if HandleVote(n, args).1.granted {
      var b := Ballot(a.i, args.term, args.candidate);
      NewBallot(c, bs, ws, n1, b);
      GrantNode(c, bs, ws, a.i, n1, args.candidate);
      CastBallot(c, s, a.i, n', sent, h', b);
    } else {
      VotesFrame(c, s, a.i, n', sent, h');
    }
  }

  lemma TallyNode(c: Conf, bs: set<Ballot>, ws: map<Win, set<Id>>, v: Id, n: Node, voter: Id, r: VoteReply)
    requires NodeVotes(c, bs, ws, v, n) && WinsOk(c, bs, ws) && n.election.Election?
    requires r.granted ==> voter in c.ids && voter != v && Ballot(voter, n.election.term, v) in bs
    ensures NodeVotes(c, bs, ws, v, OnVoteReply(n, voter, r))
  {
    if r.term > n.term { FollowVotes(c, bs, ws, v, n, r.term); }
  }

  lemma TallyVotes(c: Conf, s: Cluster, a: Action)
    requires WellFormed(c) && Shape(c, s) && VotesInv(c, s) && a.RecvVoteResp? && Enabled(c, s, a)
    ensures Shape(c, Next(c, s, a)) && VotesInv(c, Next(c, s, a))
  {
    hide NodeVotes, OnVoteReply, BallotsOk, WinsOk;
    NextShape(c, s, a);
    var n := s.nodes[a.i];
    assert NodeVotes(c, s.hist.ballots, s.hist.wins, a.i, n);
    var n' := OnVoteReply(n, a.m.voter, a.m.vreply);
    TallyNode(c, s.hist.ballots, s.hist.wins, a.i, n, a.m.voter, a.m.vreply);
    assert NodeShape(c, a.i, Next(c, s, a).nodes[a.i]);
    VotesFrame(c, s, a.i, n', {}, s.hist);
  }

  lemma VotersSize(c: Conf, i: Id, voters: set<Id>)
    requires WellFormed(c) && i in c.ids && HasQuorum(CfgOf(c, i), 1 + |voters|)
    requires forall p :: p in voters ==> p in c.ids && p != i
    ensures Quorum(c, voters + {i})
  {
    WithoutSize(c.ids, i);
    assert |voters + {i}| == |voters| + 1;
  }

  lemma OtherWin(c: Conf, bs: set<Ballot>, ws: map<Win, set<Id>>, v: Id, n: Node, w: Win, q: set<Id>)
    requires NodeVotes(c, bs, ws, v, n) && w.leader != v
    ensures NodeVotes(c, bs, ws[w := q], v, n)
  {
  }

  lemma WinVotes(c: Conf, s: Cluster, i: Id, n': Node, h': History, q: set<Id>)
    requires Shape(c, s) && VotesInv(c, s) && i in c.ids && NodeShape(c, i, n')
    requires s.nodes[i].role == Candidate && n' == s.nodes[i].(role := Leader, leaderId := i, peers := n'.peers, election := NoElection, led := true)
    requires h'.ballots == s.hist.ballots && h'.wins == s.hist.wins[Win(n'.term, i) := q]
    requires Quorum(c, q) && i in q && forall v :: v in q ==> Ballot(v, n'.term, i) in s.hist.ballots
    ensures Shape(c, Cluster(s.nodes[i := n'], s.net, h'))
    ensures VotesInv(c, Cluster(s.nodes[i := n'], s.net, h'))
  {
    hide Quorum, NodeVotes, BallotsOk, WinsOk, NetVotes, NodeShape;
    var s' := Cluster(s.nodes[i := n'], s.net, h');
    assert NodeVotes(c, s.hist.ballots, s.hist.wins, i, s.nodes[i]);
    forall v | v in c.ids ensures NodeVotes(c, h'.ballots, h'.wins, v, s'.nodes[v]) {
      if v != i {
        OtherWin(c, s.hist.ballots, s.hist.wins, v, s.nodes[v], Win(n'.term, i), q);
      } else {
        WinnerVotes(c, s.hist.ballots, s.hist.wins, i, s.nodes[i], n', q);
      }
    }
    WinTables(c, s.hist.ballots, s.hist.wins, i, n'.term, q, s.nodes[i]);
  }

  lemma WinnerVotes(c: Conf, bs: set<Ballot>, ws: map<Win, set<Id>>, i: Id, n: Node, n': Node, q: set<Id>)
    requires NodeVotes(c, bs, ws, i, n) && n.role == Candidate
    requires n' == n.(role := Leader, leaderId := i, peers := n'.peers, election := NoElection, led := true)
    ensures NodeVotes(c, bs, ws[Win(n.term, i) := q], i, n')
  {
  }

  lemma WinTables(c: Conf, bs: set<Ballot>, ws: map<Win, set<Id>>, i: Id, t: nat, q: set<Id>, n: Node)
    requires BallotsOk(c, bs, ws) && WinsOk(c, bs, ws) && NodeVotes(c, bs, ws, i, n) && n.term == t && n.role == Candidate
    requires Quorum(c, q) && i in q && forall v :: v in q ==> Ballot(v, t, i) in bs
    ensures BallotsOk(c, bs, ws[Win(t, i) := q]) && WinsOk(c, bs, ws[Win(t, i) := q])
  {
    hide Quorum;
  }

  lemma FinishVotes(c: Conf, s: Cluster, a: Action)
    requires WellFormed(c) && Shape(c, s) && VotesInv(c, s) && a.Finish? && Enabled(c, s, a)
    ensures Shape(c, Next(c, s, a)) && VotesInv(c, Next(c, s, a))
  {
    var n := s.nodes[a.i];
    var (n', sent, h') := Effect(c, s, a);
    NextShape(c, s, a);
    assert NodeVotes(c, s.hist.ballots, s.hist.wins, a.i, n);
    assert NodeShape(c, a.i, n) && NodeShape(c, a.i, Next(c, s, a).nodes[a.i]);
    assert s.net + sent == s.net;
    if n.role == Candidate && n'.role == Leader {
      VotersSize(c, a.i, n.election.voters);
      WinVotes(c, s, a.i, n', h', n.election.voters + {a.i});
    } else {
      VotesFrame(c, s, a.i, n', sent, h');
    }
  }

  lemma HandleAppendVotes(c: Conf, bs: set<Ballot>, ws: map<Win, set<Id>>, v: Id, n: Node, m: AppendArgs)
    requires NodeVotes(c, bs, ws, v, n) && WinsOk(c, bs, ws)
    ensures NodeVotes(c, bs, ws, v, HandleAppend(c.mode, n, m).0)
  {
    var n' := HandleAppend(c.mode, n, m).0;
    if m.term > n.term {
      FollowVotes(c, bs, ws, v, n, m.term);
      KeepVotes(c, bs, ws, v, BecomeFollower(n, m.term), n');
    } else {
      KeepVotes(c, bs, ws, v, n, n');
    }
  }

  lemma AppendReplyVotes(c: Conf, bs: set<Ballot>, ws: map<Win, set<Id>>, v: Id, n: Node, m: Msg)
    requires NodeVotes(c, bs, ws, v, n) && WinsOk(c, bs, ws) && m.AppendResp?
    requires NodeShape(c, v, n) && m.peer in c.ids && m.peer != v
    ensures NodeVotes(c, bs, ws, v, OnAppendReply(c.mode, CfgOf(c, v), n, m.peer, m.request, m.areply))
  {
    hide MatchValues, NodeVotes, WinsOk;
    var n' := OnAppendReply(c.mode, CfgOf(c, v), n, m.peer, m.request, m.areply);
    if n'.term > n.term {
      FollowVotes(c, bs, ws, v, n, n'.term);
    } else {
      KeepVotes(c, bs, ws, v, n, n');
    }
  }

  lemma TornVotes(c: Conf, bs: set<Ballot>, ws: map<Win, set<Id>>, v: Id, n: Node, m: AppendArgs, left: nat)
    requires NodeVotes(c, bs, ws, v, n) && WinsOk(c, bs, ws) && left <= |n.log|
    ensures NodeVotes(c, bs, ws, v, Torn(CfgOf(c, v), n, m, left))
  {
    var n' := Torn(CfgOf(c, v), n, m, left);
    if m.term > n.term {
      FollowVotes(c, bs, ws, v, n, m.term);
      KeepVotes(c, bs, ws, v, BecomeFollower(n, m.term), n');
    } else {
      KeepVotes(c, bs, ws, v, n, n');
    }
  }

  predicate Quiet(a: Action) {
    a.ClientPropose? || a.SendAppend? || a.RecvAppendReq? || a.RecvAppendResp? || a.Apply? || a.Crash? || a.TornCut?
  }

  lemma QuietNode(c: Conf, s: Cluster, a: Action)
    requires Shape(c, s) && Enabled(c, s, a) && Quiet(a)
    requires NodeVotes(c, s.hist.ballots, s.hist.wins, a.i, s.nodes[a.i]) && WinsOk(c, s.hist.ballots, s.hist.wins)
    ensures NodeVotes(c, s.hist.ballots, s.hist.wins, a.i, Effect(c, s, a).0)
  {
    var n := s.nodes[a.i];
    var bs, ws := s.hist.ballots, s.hist.wins;
    if a.RecvAppendReq? {
      HandleAppendVotes(c, bs, ws, a.i, n, a.m.aargs);
    } else if a.RecvAppendResp? {
      AppendReplyVotes(c, bs, ws, a.i, n, a.m);
    } else if a.TornCut? {
      TornVotes(c, bs, ws, a.i, n, a.m.aargs, a.left);
    } else {
      KeepVotes(c, bs, ws, a.i, n, Effect(c, s, a).0);
    }
  }

  lemma QuietEffect(c: Conf, s: Cluster, a: Action)
    requires Shape(c, s) && Enabled(c, s, a) && Quiet(a)
    ensures Effect(c, s, a).2.ballots == s.hist.ballots && Effect(c, s, a).2.wins == s.hist.wins
    ensures forall m :: m in Effect(c, s, a).1 ==> m.AppendReq? || m.AppendResp?
  {
  }

  lemma QuietVotes(c: Conf, s: Cluster, a: Action)
    requires WellFormed(c) && Shape(c, s) && VotesInv(c, s) && Enabled(c, s, a) && Quiet(a)
    ensures Shape(c, Next(c, s, a)) && VotesInv(c, Next(c, s, a))
  {
    NextShape(c, s, a);
    QuietNode(c, s, a);
    QuietEffect(c, s, a);
    var (n', sent, h') := Effect(c, s, a);
    assert NodeShape(c, a.i, Next(c, s, a).nodes[a.i]);
    VotesFrame(c, s, a.i, n', sent, h');
  }

  lemma VotesStep(c: Conf, s: Cluster, a: Action)
    requires WellFormed(c) && Shape(c, s) && VotesInv(c, s) && Enabled(c, s, a)
    ensures Shape(c, Next(c, s, a)) && VotesInv(c, Next(c, s, a))
  {
    if a.Start? { StartVotes(c, s, a); }
    else if a.RecvVoteReq? { GrantVotes(c, s, a); }
    else if a.RecvVoteResp? { TallyVotes(c, s, a); }
    else if a.Finish? { FinishVotes(c, s, a); }
    else { QuietVotes(c, s, a); }
  }

  lemma {:induction false} VotesReachable(c: Conf, acts: seq<Action>)
    requires WellFormed(c) && Run(c, acts).At?
    ensures VotesInv(c, Run(c, acts).state)
  {
    if acts != [] {
      VotesReachable(c, acts[..|acts| - 1]);
      VotesStep(c, Run(c, acts[..|acts| - 1]).state, acts[|acts| - 1]);
    }
  }

  predicate BothLead(s: Cluster, i: Id, j: Id)
    requires i in s.nodes && j in s.nodes
  {
    s.nodes[i].role == Leader && s.nodes[j].role == Leader && s.nodes[i].term == s.nodes[j].term
  }

  /**
    Election Safety, in every mode: whenever two servers have won elections of one term, at any
    two points of a run, they are the same server; in particular two current leaders of one term are.
   */
  lemma ElectionSafety(c: Conf, acts: seq<Action>)
    requires WellFormed(c) && Run(c, acts).At?
    ensures forall a, b :: a in Run(c, acts).state.hist.wins && b in Run(c, acts).state.hist.wins && a.term == b.term ==> a == b
    ensures var s := Run(c, acts).state;
      forall i, j :: i in c.ids && j in c.ids && BothLead(s, i, j) ==> i == j
  {
    VotesReachable(c, acts);
    var s := Run(c, acts).state;
    forall a, b | a in s.hist.wins && b in s.hist.wins && a.term == b.term ensures a == b {
      OneWinner(c, s.hist, a, b);
    }
    forall i, j | i in c.ids && j in c.ids && BothLead(s, i, j) ensures i == j {
      assert NodeVotes(c, s.hist.ballots, s.hist.wins, i, s.nodes[i]) && NodeVotes(c, s.hist.ballots, s.hist.wins, j, s.nodes[j]);
      OneWinner(c, s.hist, Win(s.nodes[i].term, i), Win(s.nodes[j].term, j));
    }
  }
}
