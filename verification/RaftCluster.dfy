/**
  A Raft cluster as a transition system. One action per critical section of the node; messages
  may be delayed, duplicated, reordered or never delivered; a node may crash and restart from
  its persisted term, vote and log between critical sections and while it cuts its log back.
 */
module RaftCluster {
  import opened RaftRules

  datatype Conf = Conf(ids: seq<Id>, mode: Mode)

  ghost predicate WellFormed(c: Conf) {
    && |c.ids| > 0
    && "" !in c.ids
    && (forall i, j :: 0 <= i < j < |c.ids| ==> c.ids[i] != c.ids[j])
  }

  function Without(ids: seq<Id>, id: Id): (r: seq<Id>)
    ensures forall p :: p in r <==> p in ids && p != id
  {
    if ids == [] then [] else (if ids[0] == id then [] else [ids[0]]) + Without(ids[1..], id)
  }

  function CfgOf(c: Conf, id: Id): Config {
    Config(id, Without(c.ids, id))
  }

  datatype Msg =
    | VoteReq(dest: Id, vargs: VoteArgs)
    | VoteResp(dest: Id, voter: Id, vterm: nat, vreply: VoteReply)
    | AppendReq(dest: Id, aargs: AppendArgs)
    | AppendResp(dest: Id, peer: Id, request: AppendArgs, areply: AppendReply)

  datatype Ballot = Ballot(voter: Id, term: nat, candidate: Id)
  datatype Win = Win(term: nat, leader: Id)

  /** What happened so far; no action reads it. */
  datatype History = History(
    ballots: set<Ballot>,                   // every vote ever granted, a candidate's own included
    candLog: map<(Id, nat), seq<Entry>>,    // the log a candidate stood with
    wins: map<Win, set<Id>>,                // every election ever won, with the votes counted
    leaderLog: map<nat, seq<Entry>>,        // the log of the leader of a term, as of its last append
    acked: map<(Id, nat), nat>,             // how much of that log a server has stored in that term
    applied: set<Delivered>)                // every apply call of every process

  datatype Cluster = Cluster(nodes: map<Id, Node>, net: set<Msg>, hist: History)

  datatype Action =
    | Start(i: Id)
    | RecvVoteReq(i: Id, m: Msg)
    | RecvVoteResp(i: Id, m: Msg)
    | Finish(i: Id)
    | ClientPropose(i: Id, cmd: Cmd)
    | SendAppend(i: Id, peer: Id)
    | RecvAppendReq(i: Id, m: Msg)
    | RecvAppendResp(i: Id, m: Msg)
    | Apply(i: Id)
    | Crash(i: Id)
    | TornCut(i: Id, m: Msg, keep: nat, left: nat)

  function Init(c: Conf): Cluster {
    Cluster(map i | i in c.ids :: Boot(CfgOf(c, i)), {}, History({}, map[], map[], map[], map[], {}))
  }

  predicate NodeShape(c: Conf, i: Id, n: Node) {
    forall p :: p in c.ids && p != i ==> p in n.peers && n.peers[p].next >= 1
  }

  predicate Shape(c: Conf, s: Cluster) {
    forall i :: i in c.ids ==> i in s.nodes && NodeShape(c, i, s.nodes[i])
  }

  predicate Enabled(c: Conf, s: Cluster, a: Action)
    requires Shape(c, s)
  {
    a.i in c.ids &&
    var n := s.nodes[a.i];
    match a
    case Start(i) => n.role != Leader && n.election == NoElection
    case RecvVoteReq(i, m) => m in s.net && m.VoteReq? && m.dest == i
    case RecvVoteResp(i, m) =>
      m in s.net && m.VoteResp? && m.dest == i && n.election.Election? &&
      n.election.term == m.vterm && m.voter !in n.election.answered
    case Finish(i) => n.election.Election?
    case ClientPropose(i, cmd) => MayLead(c.mode, n)
    case SendAppend(i, peer) => MayLead(c.mode, n) && peer in c.ids && peer != i
    case RecvAppendReq(i, m) => m in s.net && m.AppendReq? && m.dest == i
    case RecvAppendResp(i, m) =>
      m in s.net && m.AppendResp? && m.dest == i && m.peer in c.ids && m.peer != i
    case Apply(i) => CanApply(n)
    case Crash(i) => true
    case TornCut(i, m, keep, left) =>
      !c.mode.wholeCut && m in s.net && m.AppendReq? && m.dest == i && Cuts(c.mode, n, m.aargs, keep) && left <= keep <= |n.log|
  }

  function Acked(h: History, v: Id, t: nat): nat {
    if (v, t) in h.acked then h.acked[(v, t)] else 0
  }

  function MaxNat(a: nat, b: nat): nat {
    if a < b then b else a
  }

  /** The acting node, the messages it sends and the history after the action. */
  function Effect(c: Conf, s: Cluster, a: Action): (Node, set<Msg>, History)
    requires Shape(c, s) && Enabled(c, s, a)
  {
    var h := s.hist;
    var n := s.nodes[a.i];
    var cfg := CfgOf(c, a.i);
    match a
    case Start(i) =>
      var n' := StartElection(cfg, n);
      (n', set p | p in c.ids && p != i :: VoteReq(p, VoteRequest(cfg, n')),
       h.(ballots := h.ballots + {Ballot(i, n'.term, i)}, candLog := h.candLog[(i, n'.term) := n.log]))
    case RecvVoteReq(i, m) =>
      var (n', r) := HandleVote(n, m.vargs);
      (n', {VoteResp(m.vargs.candidate, i, m.vargs.term, r)},
       if r.granted then h.(ballots := h.ballots + {Ballot(i, m.vargs.term, m.vargs.candidate)}) else h)
    case RecvVoteResp(i, m) =>
      (OnVoteReply(n, m.voter, m.vreply), {}, h)
    case Finish(i) =>
      var n' := FinishElection(cfg, n);
      (n', {},
       if n'.role == Leader && n.role == Candidate then
         h.(wins := h.wins[Win(n.term, i) := n.election.voters + {i}],
            leaderLog := h.leaderLog[n.term := n.log], acked := h.acked[(i, n.term) := |n.log|])
       else h)
    case ClientPropose(i, cmd) =>
      var n' := Propose(n, cmd);
      (n', {},
       if n.role == Leader then
         h.(leaderLog := h.leaderLog[n.term := n'.log], acked := h.acked[(i, n.term) := |n'.log|])
       else h)
    case SendAppend(i, peer) =>
      (n, {AppendReq(peer, MakeAppend(cfg, n, peer))}, h)
    case RecvAppendReq(i, m) =>
      var (n', r) := HandleAppend(c.mode, n, m.aargs);
      (n', {AppendResp(m.aargs.leader, i, m.aargs, r)},
       if r.success then
         h.(acked := h.acked[(i, m.aargs.term) :=
              MaxNat(Acked(h, i, m.aargs.term), m.aargs.prevIndex + |m.aargs.entries|)])
       else h)
    case RecvAppendResp(i, m) =>
      (OnAppendReply(c.mode, cfg, n, m.peer, m.request, m.areply), {}, h)
    case Apply(i) =>
      (ApplyOne(n), {}, h.(applied := h.applied + {Delivered(n.applied + 1, n.log[n.applied].cmd)}))
    case Crash(i) =>
      (Restart(cfg, n), {}, h)
    case TornCut(i, m, keep, left) =>
      (Torn(cfg, n, m.aargs, left), {}, h)
  }

  function Next(c: Conf, s: Cluster, a: Action): Cluster
    requires Shape(c, s) && Enabled(c, s, a)
  {
    var (n', sent, h') := Effect(c, s, a);
    Cluster(s.nodes[a.i := n'], s.net + sent, h')
  }

  lemma ReplyKeepsPeers(c: Conf, i: Id, n: Node, peer: Id, a: AppendArgs, r: AppendReply)
    requires NodeShape(c, i, n) && peer in c.ids && peer != i
    ensures NodeShape(c, i, OnAppendReply(c.mode, CfgOf(c, i), n, peer, a, r))
  {
    hide MatchValues;
  }

  lemma HandleKeepsPeers(mode: Mode, n: Node, a: AppendArgs)
    ensures HandleAppend(mode, n, a).0.peers == n.peers
  {
    hide Merge, Stamp;
  }

  lemma NextShape(c: Conf, s: Cluster, a: Action)
    requires Shape(c, s) && Enabled(c, s, a)
    ensures Shape(c, Next(c, s, a))
  {
    hide UpToDate, Cuts, MakeAppend, VoteRequest, HandleAppend, OnAppendReply, Without;
    var (n', sent, h') := Effect(c, s, a);
    assert NodeShape(c, a.i, s.nodes[a.i]);
    if a.RecvAppendResp? {
      ReplyKeepsPeers(c, a.i, s.nodes[a.i], a.m.peer, a.m.request, a.m.areply);
    } else {
      if a.RecvAppendReq? { HandleKeepsPeers(c.mode, s.nodes[a.i], a.m.aargs); }
      assert NodeShape(c, a.i, n');
    }
  }

  /** Where a log is cut back at once no action tears it. */
  lemma NeverTorn(c: Conf, s: Cluster, a: Action)
    requires Shape(c, s) && Enabled(c, s, a) && c.mode.wholeCut
    ensures !a.TornCut?
  {
  }

  datatype Outcome = Stuck | At(state: Cluster)

  /** The cluster after a list of actions, or Stuck when one of them was not enabled. */
  function Run(c: Conf, acts: seq<Action>): (r: Outcome)
    ensures r.At? ==> Shape(c, r.state)
  {
    if acts == [] then
      At(Init(c))
    else
      var prev := Run(c, acts[..|acts| - 1]);
      var a := acts[|acts| - 1];
      if prev.At? && Enabled(c, prev.state, a) then
        NextShape(c, prev.state, a);
        At(Next(c, prev.state, a))
      else Stuck
  }

  // ---- majorities ----

  ghost predicate Quorum(c: Conf, q: set<Id>) {
    (forall v :: v in q ==> v in c.ids) && 2 * |q| > |c.ids|
  }

  function SetOf(ids: seq<Id>): (r: set<Id>)
    ensures forall v :: v in r <==> v in ids
    ensures |r| <= |ids|
  {
    if ids == [] then {} else {ids[0]} + SetOf(ids[1..])
  }

  lemma SubsetSize(a: set<Id>, b: set<Id>)
    requires a <= b
    ensures |a| <= |b|
  {
    assert b == a + (b - a);
  }

  /** Two majorities share a server. */
  lemma Intersect(c: Conf, q: set<Id>, r: set<Id>) returns (v: Id)
    requires Quorum(c, q) && Quorum(c, r)
    ensures v in q && v in r
  {
    SubsetSize(q + r, SetOf(c.ids));
    assert q !! r ==> |q + r| == |q| + |r|;
    assert q * r != {};
    v :| v in q && v in r;
  }

  lemma {:induction false} WithoutSize(ids: seq<Id>, id: Id)
    requires forall i, j :: 0 <= i < j < |ids| ==> ids[i] != ids[j]
    ensures |Without(ids, id)| == |ids| - (if id in ids then 1 else 0)
    ensures forall i, j :: 0 <= i < j < |Without(ids, id)| ==> Without(ids, id)[i] != Without(ids, id)[j]
  {
    if ids != [] {
      WithoutSize(ids[1..], id);
      var w := Without(ids[1..], id);
      if ids[0] == id {
        assert Without(ids, id) == w;
        assert id !in ids[1..];
      } else {
        assert Without(ids, id) == [ids[0]] + w;
        assert ids[0] !in ids[1..];
        assert ids[0] !in w;
      }
    }
  }
}
