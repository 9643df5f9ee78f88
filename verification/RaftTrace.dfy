/**
  Why the contract matters: with re-stamping followers a run exists in which a command is committed and
  applied, a later leader lacks it, and another command is applied at its index. The other repairs
  make no difference: the run uses no stale reply and no crash, and only leaders propose and ship.
 */
module RaftTrace {
  import opened RaftRules
  import opened RaftCluster
  import opened RaftCompleteness
  import opened RaftSteps
  import opened RaftSight

  /** Followers stamp entries with the sender's term; the other repairs may or may not be made. */
  type Restamping = m: Mode | !m.wire witness AS_WRITTEN

  const X2: seq<Entry> := [Entry(2, X)]
  const Y4: seq<Entry> := [Entry(4, Y)]

  /** What happened in term 1 stays on record. */
  ghost predicate Remembers(s: Cluster) {
    && Delivered(1, X) in s.hist.applied && 1 in s.hist.leaderLog && s.hist.leaderLog[1] == X1
    && Acked(s.hist, A, 1) >= 1 && Acked(s.hist, B, 1) >= 1
  }

  lemma Stamps()
    ensures Stamp(false, 2, X1) == X2 && Stamp(false, 4, Y4) == Y4 && X1[..0] == []
  {
  }

  /** B leads term 2 and ships x to C, which stamps it with term 2. */
  lemma Trace2(mode: Restamping, s: Cluster) returns (s': Cluster)
    requires Seen(Trio(mode), s, Three(Brief(1, Leader, X1, 1), Brief(1, Follower, X1, 0), Brief(0, Follower, [], 0)))
    requires Remembers(s)
    ensures Seen(Trio(mode), s', Three(Brief(1, Leader, X1, 1), Brief(2, Leader, X1, 0), Brief(2, Follower, X2, 0)))
    ensures Remembers(s')
  {
    hide Reachable, Shape, Is, UpToDate, FreshPeers, Request, Accepts, Received, Three, Without, StillLed, Seen;
    var a, b1, c0 := Brief(1, Leader, X1, 1), Brief(1, Follower, X1, 0), Brief(0, Follower, [], 0);
    var b2, c2, d2 := Brief(2, Leader, X1, 0), Brief(2, Follower, [], 0), Brief(2, Follower, X2, 0);
    var r;
    Names();
    Stamps();
    NewerWins([], X1);
    ThreeUpdates(a, b1, c0, c2);
    ThreeUpdates(a, b1, c2, b2);
    s' := Elects(mode, s, Three(a, b1, c0), B, C);
    FreshAt(mode, B, C, 1);
    TooShort(mode, B, b2, c2, 2);
    ThreeUpdates(a, b2, c2, c2);
    RequestTerm(B, b2, 2);
    s', r := Ships(mode, s', Three(a, b2, c2), B, C, 2);
    s' := Refuses(mode, s', Three(a, b2, c2), B, C, Request(B, b2, 2), r);
    WholeLog(mode, B, b2, c2, X2);
    ThreeUpdates(a, b2, c2, d2);
    RequestTerm(B, b2, 1);
    s', r := Ships(mode, s', Three(a, b2, c2), B, C, 1);
  }

  lemma RequestTerm(i: Id, b: Brief, next: nat)
    requires next >= 1
    ensures Request(i, b, next).term == b.term
  {
  }

  /** C leads term 3; its heartbeats make A and B drop x: its term for x is not theirs. */
  lemma Trace3(mode: Restamping, s: Cluster) returns (s': Cluster)
    requires Seen(Trio(mode), s, Three(Brief(1, Leader, X1, 1), Brief(2, Leader, X1, 0), Brief(2, Follower, X2, 0)))
    requires Remembers(s)
    ensures Seen(Trio(mode), s', Three(Brief(3, Follower, [], 1), Brief(3, Follower, [], 0), Brief(3, Leader, X2, 0)))
    ensures Remembers(s')
  {
    hide Reachable, Shape, Is, UpToDate, FreshPeers, Request, Accepts, Received, Three, Without, StillLed, Seen;
    var a, b2, d2 := Brief(1, Leader, X1, 1), Brief(2, Leader, X1, 0), Brief(2, Follower, X2, 0);
    var b3, c3, e, e1 := Brief(3, Follower, X1, 0), Brief(3, Leader, X2, 0), Brief(3, Follower, [], 0), Brief(3, Follower, [], 1);
    var r;
    Names();
    Stamps();
    NewerWins(X1, X2);
    ThreeUpdates(a, b2, d2, b3);
    ThreeUpdates(a, b3, d2, c3);
    s' := Elects(mode, s, Three(a, b2, d2), C, B);
    FreshAt(mode, C, A, 1);
    FreshAt(mode, C, B, 1);
    RequestTerm(C, c3, 2);
    CutBack(mode, C, c3, a, 2);
    ThreeUpdates(a, b3, c3, e1);
    s', r := Ships(mode, s', Three(a, b3, c3), C, A, 2);
    CutBack(mode, C, c3, b3, 2);
    ThreeUpdates(e1, b3, c3, e);
    s', r := Ships(mode, s', Three(e1, b3, c3), C, B, 2);
  }

  /** B leads term 4 with an empty log. */
  lemma Trace4(mode: Restamping, s: Cluster) returns (s': Cluster)
    requires Seen(Trio(mode), s, Three(Brief(3, Follower, [], 1), Brief(3, Follower, [], 0), Brief(3, Leader, X2, 0)))
    requires Remembers(s)
    ensures Seen(Trio(mode), s', Three(Brief(4, Follower, [], 1), Brief(4, Leader, [], 0), Brief(3, Leader, X2, 0)))
    ensures Remembers(s') && 4 in s'.hist.leaderLog && s'.hist.leaderLog[4] == []
    ensures s'.nodes[B].peers == FreshPeers(CfgOf(Trio(mode), B), 0)
  {
    hide Reachable, Shape, Is, UpToDate, FreshPeers, Three, Without, StillLed, Seen;
    var e, e1, c3 := Brief(3, Follower, [], 0), Brief(3, Follower, [], 1), Brief(3, Leader, X2, 0);
    var a4, b4 := Brief(4, Follower, [], 1), Brief(4, Leader, [], 0);
    Names();
    EmptyIsUpToDate();
    ThreeUpdates(e1, e, c3, a4);
    ThreeUpdates(a4, e, c3, b4);
    s' := Elects(mode, s, Three(e1, e, c3), B, A);
  }

  /** y is stored by B and A, committed and applied. */
  lemma Trace5(mode: Restamping, s: Cluster) returns (s': Cluster)
    requires Seen(Trio(mode), s, Three(Brief(4, Follower, [], 1), Brief(4, Leader, [], 0), Brief(3, Leader, X2, 0)))
    requires s.nodes[B].peers == FreshPeers(CfgOf(Trio(mode), B), 0)
    ensures Reachable(Trio(mode), s') && s'.hist.applied == s.hist.applied + {Delivered(1, Y)}
  {
    hide Reachable, Shape, Is, UpToDate, FreshPeers, Request, Accepts, Received, Three, Without, StillLed, Seen;
    var a4, b4, c3 := Brief(4, Follower, [], 1), Brief(4, Leader, [], 0), Brief(3, Leader, X2, 0);
    var b5, a5 := Brief(4, Leader, Y4, 0), Brief(4, Follower, Y4, 1);
    var r;
    var none: seq<Entry> := [];
    assert none + [Entry(4, Y)] == Y4;
    Names();
    Stamps();
    FreshAt(mode, B, A, 0);
    FreshAt(mode, B, C, 0);
    ThreeUpdates(a4, b4, c3, b5);
    s' := Proposes(mode, s, Three(a4, b4, c3), B, Y);
    WholeLog(mode, B, b5, a4, Y4);
    ThreeUpdates(a4, b5, c3, a5);
    s', r := Ships(mode, s', Three(a4, b5, c3), B, A, 1);
    ThreeUpdates(a5, b5, c3, a5);
    RequestOne(B, b5);
    s' := Commits(mode, s', Three(a5, b5, c3), B, A, Request(B, b5, 1), r);
  }

  lemma ChosenInTermOne(mode: Restamping, s: Cluster)
    requires Remembers(s)
    ensures Chosen(Trio(mode), s.hist, 1, 1)
  {
    TrioPeers(mode);
    assert StoredBy(Trio(mode), s.hist, {A, B}, 1, 1);
  }

  /**
    As written, Leader Completeness and State Machine Safety fail. A reachable state has x chosen and
    applied in term 1 and a leader of term 4 with an empty log; from it another state is reachable in
    which x and y have both been applied at index 1.
   */
  lemma AsWrittenLosesCommands(mode: Restamping) returns (s: Cluster, s': Cluster)
    ensures var c := Trio(mode);
      && Reachable(c, s) && Chosen(c, s.hist, 1, 1) && s.hist.leaderLog[1] == [Entry(1, X)]
      && 4 in s.hist.leaderLog && s.hist.leaderLog[4] == []
      && Reachable(c, s') && X != Y && Delivered(1, X) in s'.hist.applied && Delivered(1, Y) in s'.hist.applied
  {
    hide Reachable, Chosen, FreshPeers, Without, Shape, Three, Is;
    s := Opening(mode);
    s := Trace2(mode, s);
    s := Trace3(mode, s);
    s := Trace4(mode, s);
    ChosenInTermOne(mode, s);
    s' := Trace5(mode, s);
    assert X[0] != Y[0];
  }
}
