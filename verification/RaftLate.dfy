/**
  What the late role check does. Proposing and shipping read the role before they take the mutex, so a node that has
  led may append under a term that another server leads. Then two logs hold different commands under one index and
  term, and two commands are applied at one index, whatever else is repaired.
 */
module RaftLate {
  import opened RaftRules
  import opened RaftCluster
  import opened RaftLogs
  import opened RaftSteps
  import opened RaftSight

  // ---- runs in which only leaders act ----

  predicate LeaderActs(s: Cluster, a: Action)
    requires a.i in s.nodes
  {
    a.ClientPropose? || a.SendAppend? ==> s.nodes[a.i].role == Leader
  }

  predicate LeadersAct(c: Conf, acts: seq<Action>)
    requires Run(c, acts).At?
  {
    acts == [] ||
    var prev := acts[..|acts| - 1];
    LeadersAct(c, prev) && LeaderActs(Run(c, prev).state, acts[|acts| - 1])
  }

  lemma LockedStep(ids: seq<Id>, mode: Mode, s: Cluster, a: Action)
    requires Shape(Conf(ids, mode), s)
    ensures var c, d := Conf(ids, mode), Conf(ids, mode.(locked := true));
      && Shape(d, s) && (Enabled(d, s, a) <==> Enabled(c, s, a) && LeaderActs(s, a))
      && (Enabled(d, s, a) ==> Next(d, s, a) == Next(c, s, a))
  {
    hide MatchValues, Merge, Stamp, UpToDate;
    var c, d := Conf(ids, mode), Conf(ids, mode.(locked := true));
    assert forall i, n :: NodeShape(c, i, n) == NodeShape(d, i, n);
    assert CfgOf(c, a.i) == CfgOf(d, a.i);
    if Enabled(c, s, a) && a.RecvAppendReq? { SameReceiver(mode, s.nodes[a.i], a.m.aargs); }
    if Enabled(c, s, a) && a.RecvAppendResp? {
      SameSender(mode, CfgOf(c, a.i), s.nodes[a.i], a.m.peer, a.m.request, a.m.areply);
    }
  }

  lemma SameReceiver(mode: Mode, n: Node, a: AppendArgs)
    ensures HandleAppend(mode.(locked := true), n, a) == HandleAppend(mode, n, a)
  {
  }

  lemma SameSender(mode: Mode, cfg: Config, n: Node, peer: Id, a: AppendArgs, r: AppendReply)
    requires (forall p :: p in cfg.peers ==> p in n.peers) && peer in n.peers
    ensures OnAppendReply(mode.(locked := true), cfg, n, peer, a, r) == OnAppendReply(mode, cfg, n, peer, a, r)
  {
  }

  /** Reading the role under the mutex takes away exactly the runs in which a server that does not lead proposes or ships. */
  lemma {:induction false} LockedRuns(ids: seq<Id>, mode: Mode, acts: seq<Action>)
    ensures var c, d := Conf(ids, mode), Conf(ids, mode.(locked := true));
      && (Run(d, acts).At? <==> Run(c, acts).At? && LeadersAct(c, acts))
      && (Run(d, acts).At? ==> Run(d, acts) == Run(c, acts))
  {
    hide Next, Enabled, Effect;
    var c, d := Conf(ids, mode), Conf(ids, mode.(locked := true));
    if acts == [] {
      assert Init(c).nodes == Init(d).nodes;
    } else {
      var prev := acts[..|acts| - 1];
      LockedRuns(ids, mode, prev);
      if Run(c, prev).At? { LockedStep(ids, mode, Run(c, prev).state, acts[|acts| - 1]); }
    }
  }

  /** Log Matching of the code as written, on runs in which only leaders propose and ship. */
  lemma LogMatchingWhileLeading(ids: seq<Id>, mode: Mode, acts: seq<Action>, v: Id, w: Id, i: nat)
    requires WellFormed(Conf(ids, mode)) && Run(Conf(ids, mode), acts).At? && LeadersAct(Conf(ids, mode), acts)
    requires var s := Run(Conf(ids, mode), acts).state;
      && v in ids && w in ids && i < |s.nodes[v].log| && i < |s.nodes[w].log|
      && s.nodes[v].log[i].term == s.nodes[w].log[i].term
    ensures var s := Run(Conf(ids, mode), acts).state;
      forall j :: 0 <= j <= i ==> s.nodes[v].log[j].cmd == s.nodes[w].log[j].cmd
  {
    hide Run, LeadersAct;
    LockedRuns(ids, mode, acts);
    LogMatching(Conf(ids, mode.(locked := true)), acts, v, w, i);
  }

  // ---- a run in which one does not ----

  const X2: seq<Entry> := [Entry(2, X)]
  const Y2: seq<Entry> := [Entry(2, Y)]

  /** A heartbeat of a newer leader with an empty log turns another one into its follower. */
  lemma EmptyHeartbeat(mode: Mode, i: Id, b: Brief, d: Brief)
    requires b.log == [] && d.log == [] && d.term <= b.term
    ensures var a := Request(i, b, 1); Accepts(d, a) && Received(mode, d, a) == Brief(b.term, Follower, [], d.commit)
  {
  }

  /** An entry already held under the same index and term is left as it is, whatever its command. */
  lemma HeldAlready(mode: Mode, i: Id, b: Brief, d: Brief)
    requires |b.log| == |d.log| == 1 && b.term == d.term == b.log[0].term == d.log[0].term
    ensures var a := Request(i, b, 1); Accepts(d, a) && Received(mode, d, a) == d.(role := Follower)
    ensures var a := Request(i, b, 2); Accepts(d, a) && Received(mode, d, a) == d.(role := Follower)
  {
    var a := Request(i, b, 1);
    var ents := Stamp(mode.wire, b.term, a.entries);
    assert a.entries == b.log && ents[0].term == d.log[0].term;
    assert ents[1..] == [] && Merge(d.log, 0, ents) == Merge(d.log, 1, []) == d.log;
  }

  /** A led term 1 and follows B, the leader of term 2, when its late proposal appends x; B has y there. */
  lemma Late1(mode: Mode) returns (s: Cluster)
    requires !mode.locked
    ensures Seen(Trio(mode), s, Three(Brief(2, Follower, X2, 0), Brief(2, Leader, Y2, 0), Brief(2, Follower, [], 0)))
    ensures s.nodes[B].peers == FreshPeers(CfgOf(Trio(mode), B), 0)
  {
    hide Reachable, Shape, Is, UpToDate, FreshPeers, Request, Accepts, Received, Three, Without, SameLeaders;
    var z, f1, a1 := Brief(0, Follower, [], 0), Brief(1, Follower, [], 0), Brief(1, Leader, [], 0);
    var f2, b2, x2, y2 := Brief(2, Follower, [], 0), Brief(2, Leader, [], 0), Brief(2, Follower, X2, 0), Brief(2, Leader, Y2, 0);
    var r;
    var none: seq<Entry> := [];
    assert none + [Entry(2, X)] == X2 && none + [Entry(2, Y)] == Y2;
    Names();
    EmptyIsUpToDate();
    s := Begin(mode);
    ThreeUpdates(z, z, z, f1);
    ThreeUpdates(z, f1, z, a1);
    s := Elects(mode, s, Three(z, z, z), A, B);
    ThreeUpdates(a1, f1, z, f2);
    ThreeUpdates(a1, f1, f2, b2);
    s := Elects(mode, s, Three(a1, f1, z), B, C);
    FreshAt(mode, B, A, 0);
    EmptyHeartbeat(mode, B, b2, a1);
    ThreeUpdates(a1, b2, f2, f2);
    s, r := Ships(mode, s, Three(a1, b2, f2), B, A, 1);
    ThreeUpdates(f2, b2, f2, x2);
    s := Slips(mode, s, Three(f2, b2, f2), A, X);
    ThreeUpdates(x2, b2, f2, y2);
    s := Proposes(mode, s, Three(x2, b2, f2), B, Y);
  }

  /** B takes A for a server that stores y, commits and applies it, and A applies x. */
  lemma Late2(mode: Mode, s: Cluster) returns (s': Cluster)
    requires Seen(Trio(mode), s, Three(Brief(2, Follower, X2, 0), Brief(2, Leader, Y2, 0), Brief(2, Follower, [], 0)))
    requires s.nodes[B].peers == FreshPeers(CfgOf(Trio(mode), B), 0)
    ensures Reachable(Trio(mode), s') && Delivered(1, X) in s'.hist.applied && Delivered(1, Y) in s'.hist.applied
  {
    hide Reachable, Shape, Is, UpToDate, FreshPeers, Request, Accepts, Received, Three, Without, SameLeaders;
    var x2, y2, y3, f2 := Brief(2, Follower, X2, 0), Brief(2, Leader, Y2, 0), Brief(2, Leader, Y2, 1), Brief(2, Follower, [], 0);
    var r;
    Names();
    FreshAt(mode, B, A, 0);
    FreshAt(mode, B, C, 0);
    HeldAlready(mode, B, y2, x2);
    HeldAlready(mode, B, y3, x2);
    ThreeUpdates(x2, y2, f2, x2);
    s', r := Ships(mode, s, Three(x2, y2, f2), B, A, 1);
    ThreeUpdates(x2, y2, f2, y3);
    RequestOne(B, y2);
    s' := Commits(mode, s', Three(x2, y2, f2), B, A, Request(B, y2, 1), r);
    ThreeUpdates(x2, y3, f2, x2.(commit := 1));
    s' := Learns(mode, s', Three(x2, y3, f2), B, A, 2);
  }

  /**
    With the role read before the mutex is taken, a reachable state has different commands under one index and term,
    and from it another is reachable in which two commands have been applied at index 1. The other two repairs do not
    help.
   */
  lemma LateProposalsLoseCommands(mode: Mode) returns (s: Cluster, s': Cluster)
    requires !mode.locked
    ensures Reachable(Trio(mode), s) && A in s.nodes && B in s.nodes && X != Y
    ensures s.nodes[A].log == [Entry(2, X)] && s.nodes[B].log == [Entry(2, Y)]
    ensures Reachable(Trio(mode), s') && Delivered(1, X) in s'.hist.applied && Delivered(1, Y) in s'.hist.applied
  {
    hide Reachable, Shape, FreshPeers, Three, Without;
    s := Late1(mode);
    var x2, y2, f2 := Brief(2, Follower, X2, 0), Brief(2, Leader, Y2, 0), Brief(2, Follower, [], 0);
    ThreeUpdates(x2, y2, f2, f2);
    SeenAt(Trio(mode), s, Three(x2, y2, f2), A);
    SeenAt(Trio(mode), s, Three(x2, y2, f2), B);
    s' := Late2(mode, s);
    assert X[0] != Y[0];
  }
}
