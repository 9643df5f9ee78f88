/**
  What stale replies do. Two runs of three servers in which a leader processes acknowledgements of requests it sent in
  an earlier term: as written, a leader whose match indices lie past its own log; and with the stamping repaired
  but stale replies still processed, two commands applied at one index.
 */
module RaftStale {
  import opened CommitRule
  import opened RaftRules
  import opened RaftCluster
  import opened RaftCommitRule
  import opened RaftSteps
  import opened RaftSight

  // ---- the commit rule misses its specification ----

  const XY1: seq<Entry> := [Entry(1, X), Entry(1, Y)]
  const XY3: seq<Entry> := [Entry(3, X), Entry(3, Y)]

  /** x and y stored in term 1, the acknowledgement held back. */
  ghost predicate HeldOne(s: Cluster, r: AppendReply) {
    AppendResp(A, B, AppendArgs(1, A, 0, 0, XY1, 0), r) in s.net && r.success && r.term == 1
  }

  ghost predicate HeldTwo(s: Cluster, r: AppendReply) {
    AppendResp(A, C, AppendArgs(3, A, 0, 0, XY1, 0), r) in s.net && r.success && r.term == 3
  }

  /** A leads term 1 and B stores x and y. */
  lemma Miss1() returns (s: Cluster, r: AppendReply)
    ensures Seen(Trio(AS_WRITTEN), s, Three(Brief(1, Leader, XY1, 0), Brief(1, Follower, XY1, 0), Brief(0, Follower, [], 0)))
    ensures HeldOne(s, r)
  {
    hide Reachable, Shape, Is, UpToDate, FreshPeers, Request, Accepts, Received, Three, Without;
    var z, f := Brief(0, Follower, [], 0), Brief(1, Follower, [], 0);
    Names();
    EmptyIsUpToDate();
    ThreeUpdates(z, z, z, f);
    s := Begin(AS_WRITTEN);
    ThreeUpdates(z, f, z, Brief(1, Leader, [], 0));
    s := Elects(AS_WRITTEN, s, Three(z, z, z), A, B);
    FreshAt(AS_WRITTEN, A, B, 0);
    var b1, b2 := Brief(1, Leader, [Entry(1, X)], 0), Brief(1, Leader, XY1, 0);
    ThreeUpdates(Brief(1, Leader, [], 0), f, z, b1);
    s := Proposes(AS_WRITTEN, s, Three(Brief(1, Leader, [], 0), f, z), A, X);
    var none: seq<Entry> := [];
    assert none + [Entry(1, X)] == [Entry(1, X)] && [Entry(1, X)] + [Entry(1, Y)] == XY1;
    ThreeUpdates(b1, f, z, b2);
    s := Proposes(AS_WRITTEN, s, Three(b1, f, z), A, Y);
    StampXY(1);
    WholeLog(AS_WRITTEN, A, b2, f, XY1);
    ThreeUpdates(b2, f, z, Brief(1, Follower, XY1, 0));
    s, r := Ships(AS_WRITTEN, s, Three(b2, f, z), A, B, 1);
  }

  lemma StampXY(t: nat)
    ensures Stamp(false, t, XY1) == [Entry(t, X), Entry(t, Y)]
  {
  }

  /** A leads term 3 and brings C up, which stores x and y under term 3. */
  lemma Miss2(s: Cluster, r: AppendReply) returns (s': Cluster, r': AppendReply)
    requires Seen(Trio(AS_WRITTEN), s, Three(Brief(1, Leader, XY1, 0), Brief(1, Follower, XY1, 0), Brief(0, Follower, [], 0)))
    requires HeldOne(s, r)
    ensures Seen(Trio(AS_WRITTEN), s', Three(Brief(3, Leader, XY1, 0), Brief(3, Follower, XY1, 0), Brief(3, Follower, XY3, 0)))
    ensures HeldOne(s', r) && HeldTwo(s', r')
  {
    hide Reachable, Shape, Is, UpToDate, FreshPeers, Request, Accepts, Received, Three, Without, LastTerm;
    var a1, a2, a3 := Brief(1, Leader, XY1, 0), Brief(2, Follower, XY1, 0), Brief(3, Leader, XY1, 0);
    var b1, b3, c0, c3 := Brief(1, Follower, XY1, 0), Brief(3, Follower, XY1, 0), Brief(0, Follower, [], 0), Brief(3, Follower, [], 0);
    Names();
    ThreeUpdates(a1, b1, c0, a2);
    s' := Bumps(AS_WRITTEN, s, Three(a1, b1, c0), A);
    SelfUpToDate(XY1);
    ThreeUpdates(a2, b1, c0, b3);
    ThreeUpdates(a2, b3, c0, a3);
    s' := Elects(AS_WRITTEN, s', Three(a2, b1, c0), A, B);
    FreshAt(AS_WRITTEN, A, C, 2);
    TooShort(AS_WRITTEN, A, a3, c0, 3);
    ThreeUpdates(a3, b3, c0, c3);
    s', r' := Ships(AS_WRITTEN, s', Three(a3, b3, c0), A, C, 3);
    ThreeUpdates(a3, b3, c3, c3);
    s' := Refuses(AS_WRITTEN, s', Three(a3, b3, c3), A, C, Request(A, a3, 3), r');
    s' := Refuses(AS_WRITTEN, s', Three(a3, b3, c3), A, C, Request(A, a3, 3), r');
    StampXY(3);
    WholeLog(AS_WRITTEN, A, a3, c3, XY3);
    ThreeUpdates(a3, b3, c3, Brief(3, Follower, XY3, 0));
    s', r' := Ships(AS_WRITTEN, s', Three(a3, b3, c3), A, C, 1);
  }

  /** C's heartbeats empty a log of term 1: first its second entry goes, then its first. */
  lemma Empties(s: Cluster, m: Sight, v: Id) returns (s': Cluster)
    requires Seen(Trio(AS_WRITTEN), s, m) && (v == A || v == B) && m.Keys == {A, B, C} && m[C] == Brief(4, Leader, XY3, 0)
    requires m[v].log == XY1 && m[v].term <= 4 && v in s.nodes[C].peers && s.nodes[C].peers[v].next == 3
    ensures Seen(Trio(AS_WRITTEN), s', m[v := Brief(4, Follower, [], m[v].commit)]) && Onward(s, s')
    ensures forall w :: w in s.nodes[C].peers && w != v ==> w in s'.nodes[C].peers && s'.nodes[C].peers[w] == s.nodes[C].peers[w]
  {
    hide Reachable, Shape, Is, Request, Accepts, Received, Without;
    Names();
    var d1 := Brief(4, Follower, [Entry(1, X)], m[v].commit);
    var d2 := d1.(log := []);
    var r;
    assert XY1[..1] == d1.log && d1.log[..0] == d2.log;
    CutBack(AS_WRITTEN, C, m[C], m[v], 3);
    s', r := Ships(AS_WRITTEN, s, m, C, v, 3);
    s' := Refuses(AS_WRITTEN, s', m[v := d1], C, v, Request(C, m[C], 3), r);
    CutBack(AS_WRITTEN, C, m[C], d1, 2);
    s', r := Ships(AS_WRITTEN, s', m[v := d1], C, v, 2);
    assert m[v := d1][v := d2] == m[v := d2];
  }

  /** C leads term 4 and empties the logs of A and B. */
  lemma Miss3(s: Cluster) returns (s': Cluster)
    requires Seen(Trio(AS_WRITTEN), s, Three(Brief(3, Leader, XY1, 0), Brief(3, Follower, XY1, 0), Brief(3, Follower, XY3, 0)))
    ensures Seen(Trio(AS_WRITTEN), s', Three(Brief(4, Follower, [], 0), Brief(4, Follower, [], 0), Brief(4, Leader, XY3, 0)))
    ensures Onward(s, s')
  {
    hide Reachable, Shape, Is, UpToDate, FreshPeers, Three, Without;
    var a3, b3, b4, e := Brief(3, Leader, XY1, 0), Brief(3, Follower, XY1, 0), Brief(4, Follower, XY1, 0), Brief(4, Follower, [], 0);
    var c3, c4 := Brief(3, Follower, XY3, 0), Brief(4, Leader, XY3, 0);
    Names();
    NewerWins(XY1, XY3);
    ThreeUpdates(a3, b3, c3, b4);
    ThreeUpdates(a3, b4, c3, c4);
    s' := Elects(AS_WRITTEN, s, Three(a3, b3, c3), C, B);
    FreshAt(AS_WRITTEN, C, A, 2);
    FreshAt(AS_WRITTEN, C, B, 2);
    ThreeUpdates(a3, b4, c4, e);
    ThreeKeys(a3, b4, c4);
    s' := Empties(s', Three(a3, b4, c4), A);
    ThreeUpdates(e, b4, c4, e);
    ThreeKeys(e, b4, c4);
    s' := Empties(s', Three(e, b4, c4), B);
  }

  /** A leads term 5 with an empty log, records both old acknowledgements and takes a command. */
  lemma Miss4(s: Cluster, r: AppendReply, r': AppendReply) returns (s': Cluster)
    requires Seen(Trio(AS_WRITTEN), s, Three(Brief(4, Follower, [], 0), Brief(4, Follower, [], 0), Brief(4, Leader, XY3, 0)))
    requires HeldOne(s, r) && HeldTwo(s, r')
    ensures Reachable(Trio(AS_WRITTEN), s') && A in s'.nodes && Is(s'.nodes[A], Brief(5, Leader, [Entry(5, X)], 0))
    ensures var peers := s'.nodes[A].peers; B in peers && C in peers && peers[B].matched == 2 && peers[C].matched == 2
  {
    hide Reachable, Shape, Is, UpToDate, FreshPeers, Three, Without;
    var e, c4 := Brief(4, Follower, [], 0), Brief(4, Leader, XY3, 0);
    var a5, b5, a6 := Brief(5, Leader, [], 0), Brief(5, Follower, [], 0), Brief(5, Leader, [Entry(5, X)], 0);
    Names();
    EmptyIsUpToDate();
    ThreeUpdates(e, e, c4, b5);
    ThreeUpdates(e, b5, c4, a5);
    s' := Elects(AS_WRITTEN, s, Three(e, e, c4), A, B);
    FreshAt(AS_WRITTEN, A, B, 0);
    FreshAt(AS_WRITTEN, A, C, 0);
    ThreeUpdates(a5, b5, c4, a6);
    s' := Acks(AS_WRITTEN, s', Three(a5, b5, c4), A, B, AppendArgs(1, A, 0, 0, XY1, 0), r);
    s' := Acks(AS_WRITTEN, s', Three(a5, b5, c4), A, C, AppendArgs(3, A, 0, 0, XY1, 0), r');
    var none: seq<Entry> := [];
    assert none + [Entry(5, X)] == [Entry(5, X)];
    s' := Proposes(AS_WRITTEN, s', Three(a5, b5, c4), A, X);
    ThreeUpdates(a6, b5, c4, a6);
  }

  /**
    As written, the commit rule misses its specification in a reachable state: old acknowledgements put a majority of
    match indices past the leader's own log, whose one entry is of its term and could be committed.
   */
  lemma CommitRuleMisses() returns (s: Cluster)
    ensures Reachable(Trio(AS_WRITTEN), s) && A in s.nodes
    ensures var cfg, n := CfgOf(Trio(AS_WRITTEN), A), s.nodes[A];
      && n.role == Leader && (forall p :: p in cfg.peers ==> p in n.peers)
      && MajorityValue(MatchValues(cfg, n)) > |n.log| > n.commit && LastTerm(n.log) == n.term
      && !Specified(cfg, n, LeaderCommit(cfg, n).commit)
  {
    hide Reachable, Specified, LeaderCommit, MajorityValue;
    var r, r';
    s, r := Miss1();
    s, r' := Miss2(s, r);
    s := Miss3(s);
    s := Miss4(s, r, r');
    TrioPeers(AS_WRITTEN);
    MatchesOfThree(A, B, C, s.nodes[A]);
    Middle(1, 2, 2, 2);
    CommitRuleMeetsSpec(CfgOf(Trio(AS_WRITTEN), A), s.nodes[A]);
  }

  // ---- carrying terms is not enough ----

  /** Entries carry their own terms, stale replies are still processed. */
  const STALE: Mode := Mode(true, false, true, true)

  const Y2: seq<Entry> := [Entry(2, Y)]
  const X5: seq<Entry> := [Entry(5, X)]
  const YX: seq<Entry> := [Entry(2, Y), Entry(6, X)]

  ghost predicate HeldStale(s: Cluster, r: AppendReply) {
    AppendResp(A, B, AppendArgs(3, A, 0, 0, X1, 0), r) in s.net && r.success && r.term == 3
  }

  lemma Singles()
    ensures var none: seq<Entry> := [];
      none + [Entry(1, X)] == X1 && none + [Entry(2, Y)] == Y2 && none + [Entry(5, X)] == X5 && Y2 + [Entry(6, X)] == YX
  {
  }

  /** A takes x in term 1, C takes y in term 2, neither ships. */
  lemma Stale1() returns (s: Cluster)
    ensures Seen(Trio(STALE), s, Three(Brief(1, Leader, X1, 0), Brief(2, Follower, [], 0), Brief(2, Leader, Y2, 0)))
  {
    hide Reachable, Shape, Is, UpToDate, FreshPeers, Three, Without;
    var z, f1, f2 := Brief(0, Follower, [], 0), Brief(1, Follower, [], 0), Brief(2, Follower, [], 0);
    var a1, a2, c2, c3 := Brief(1, Leader, [], 0), Brief(1, Leader, X1, 0), Brief(2, Leader, [], 0), Brief(2, Leader, Y2, 0);
    Names();
    Singles();
    EmptyIsUpToDate();
    s := Begin(STALE);
    ThreeUpdates(z, z, z, f1);
    ThreeUpdates(z, f1, z, a1);
    s := Elects(STALE, s, Three(z, z, z), A, B);
    ThreeUpdates(a1, f1, z, a2);
    s := Proposes(STALE, s, Three(a1, f1, z), A, X);
    ThreeUpdates(a2, f1, z, f1);
    s := Bumps(STALE, s, Three(a2, f1, z), C);
    ThreeUpdates(a2, f1, f1, f2);
    ThreeUpdates(a2, f2, f1, c2);
    s := Elects(STALE, s, Three(a2, f1, f1), C, B);
    ThreeUpdates(a2, f2, c2, c3);
    s := Proposes(STALE, s, Three(a2, f2, c2), C, Y);
  }

  /** A leads term 3 and ships x of term 1 to B; the acknowledgement is held back. */
  lemma Stale2(s: Cluster) returns (s': Cluster, r: AppendReply)
    requires Seen(Trio(STALE), s, Three(Brief(1, Leader, X1, 0), Brief(2, Follower, [], 0), Brief(2, Leader, Y2, 0)))
    ensures Seen(Trio(STALE), s', Three(Brief(3, Leader, X1, 0), Brief(3, Follower, X1, 0), Brief(2, Leader, Y2, 0)))
    ensures HeldStale(s', r)
  {
    hide Reachable, Shape, Is, UpToDate, FreshPeers, Request, Accepts, Received, Three, Without;
    var a1, a2, a3, c := Brief(1, Leader, X1, 0), Brief(2, Follower, X1, 0), Brief(3, Leader, X1, 0), Brief(2, Leader, Y2, 0);
    var b2, b3 := Brief(2, Follower, [], 0), Brief(3, Follower, [], 0);
    Names();
    ThreeUpdates(a1, b2, c, a2);
    s' := Bumps(STALE, s, Three(a1, b2, c), A);
    NewerWins([], X1);
    ThreeUpdates(a2, b2, c, b3);
    ThreeUpdates(a2, b3, c, a3);
    s' := Elects(STALE, s', Three(a2, b2, c), A, B);
    FreshAt(STALE, A, B, 1);
    TooShort(STALE, A, a3, b3, 2);
    ThreeUpdates(a3, b3, c, b3);
    s', r := Ships(STALE, s', Three(a3, b3, c), A, B, 2);
    s' := Refuses(STALE, s', Three(a3, b3, c), A, B, Request(A, a3, 2), r);
    WholeLog(STALE, A, a3, b3, X1);
    ThreeUpdates(a3, b3, c, Brief(3, Follower, X1, 0));
    s', r := Ships(STALE, s', Three(a3, b3, c), A, B, 1);
  }

  /** C leads term 4 and empties the logs of A and B. */
  lemma Stale3(s: Cluster) returns (s': Cluster)
    requires Seen(Trio(STALE), s, Three(Brief(3, Leader, X1, 0), Brief(3, Follower, X1, 0), Brief(2, Leader, Y2, 0)))
    ensures Seen(Trio(STALE), s', Three(Brief(4, Follower, [], 0), Brief(4, Follower, [], 0), Brief(4, Leader, Y2, 0)))
    ensures Onward(s, s')
  {
    hide Reachable, Shape, Is, UpToDate, FreshPeers, Request, Accepts, Received, Three, Without;
    var a3, b3, b4, e := Brief(3, Leader, X1, 0), Brief(3, Follower, X1, 0), Brief(4, Follower, X1, 0), Brief(4, Follower, [], 0);
    var c2, c3, c4 := Brief(2, Leader, Y2, 0), Brief(3, Follower, Y2, 0), Brief(4, Leader, Y2, 0);
    var r;
    Names();
    ThreeUpdates(a3, b3, c2, c3);
    s' := Bumps(STALE, s, Three(a3, b3, c2), C);
    NewerWins(X1, Y2);
    ThreeUpdates(a3, b3, c3, b4);
    ThreeUpdates(a3, b4, c3, c4);
    s' := Elects(STALE, s', Three(a3, b3, c3), C, B);
    FreshAt(STALE, C, A, 1);
    FreshAt(STALE, C, B, 1);
    assert X1[..0] == [];
    CutBack(STALE, C, c4, a3, 2);
    ThreeUpdates(a3, b4, c4, e);
    s', r := Ships(STALE, s', Three(a3, b4, c4), C, A, 2);
    CutBack(STALE, C, c4, b4, 2);
    ThreeUpdates(e, b4, c4, e);
    s', r := Ships(STALE, s', Three(e, b4, c4), C, B, 2);
  }

  /** A leads term 5, takes x again, and commits it on the old acknowledgement although no other server has it. */
  lemma Stale4(s: Cluster, r: AppendReply) returns (s': Cluster)
    requires Seen(Trio(STALE), s, Three(Brief(4, Follower, [], 0), Brief(4, Follower, [], 0), Brief(4, Leader, Y2, 0)))
    requires HeldStale(s, r)
    ensures Seen(Trio(STALE), s', Three(Brief(5, Leader, X5, 1), Brief(5, Follower, [], 0), Brief(4, Leader, Y2, 0)))
    ensures Delivered(1, X) in s'.hist.applied
  {
    hide Reachable, Shape, Is, UpToDate, FreshPeers, Three, Without;
    var e, c := Brief(4, Follower, [], 0), Brief(4, Leader, Y2, 0);
    var a5, a6, b5 := Brief(5, Leader, [], 0), Brief(5, Leader, X5, 0), Brief(5, Follower, [], 0);
    Names();
    Singles();
    EmptyIsUpToDate();
    ThreeUpdates(e, e, c, b5);
    ThreeUpdates(e, b5, c, a5);
    s' := Elects(STALE, s, Three(e, e, c), A, B);
    FreshAt(STALE, A, B, 0);
    FreshAt(STALE, A, C, 0);
    ThreeUpdates(a5, b5, c, a6);
    s' := Proposes(STALE, s', Three(a5, b5, c), A, X);
    ThreeUpdates(a6, b5, c, Brief(5, Leader, X5, 1));
    s' := Commits(STALE, s', Three(a6, b5, c), A, B, AppendArgs(3, A, 0, 0, X1, 0), r);
  }

  /** C leads term 6 and commits y at the same index, stored by itself and B. */
  lemma Stale5(s: Cluster) returns (s': Cluster)
    requires Seen(Trio(STALE), s, Three(Brief(5, Leader, X5, 1), Brief(5, Follower, [], 0), Brief(4, Leader, Y2, 0)))
    ensures Reachable(Trio(STALE), s') && s'.hist.applied == s.hist.applied + {Delivered(1, Y)}
  {
    hide Reachable, Shape, Is, UpToDate, FreshPeers, Request, Accepts, Received, Three, Without;
    var a, b5, b6, c4 := Brief(5, Leader, X5, 1), Brief(5, Follower, [], 0), Brief(6, Follower, [], 0), Brief(4, Leader, Y2, 0);
    var c5, c6, c7 := Brief(5, Follower, Y2, 0), Brief(6, Leader, Y2, 0), Brief(6, Leader, YX, 0);
    var r;
    Names();
    Singles();
    ThreeUpdates(a, b5, c4, c5);
    s' := Bumps(STALE, s, Three(a, b5, c4), C);
    NewerWins([], Y2);
    ThreeUpdates(a, b5, c5, b6);
    ThreeUpdates(a, b6, c5, c6);
    s' := Elects(STALE, s', Three(a, b5, c5), C, B);
    FreshAt(STALE, C, A, 1);
    FreshAt(STALE, C, B, 1);
    ThreeUpdates(a, b6, c6, c7);
    s' := Proposes(STALE, s', Three(a, b6, c6), C, X);
    TooShort(STALE, C, c7, b6, 2);
    ThreeUpdates(a, b6, c7, b6);
    s', r := Ships(STALE, s', Three(a, b6, c7), C, B, 2);
    s' := Refuses(STALE, s', Three(a, b6, c7), C, B, Request(C, c7, 2), r);
    WholeLog(STALE, C, c7, b6, YX);
    var b7 := Brief(6, Follower, YX, 0);
    ThreeUpdates(a, b6, c7, b7);
    s', r := Ships(STALE, s', Three(a, b6, c7), C, B, 1);
    ThreeUpdates(a, b7, c7, b7);
    s' := Commits(STALE, s', Three(a, b7, c7), C, B, AppendArgs(6, C, 0, 0, YX, 0), r);
  }

  /** Dropping stale replies is needed too: without it two commands are applied at one index even when entries carry their terms. */
  lemma StaleRepliesLoseCommands() returns (s: Cluster)
    ensures Reachable(Trio(STALE), s) && X != Y && Delivered(1, X) in s.hist.applied && Delivered(1, Y) in s.hist.applied
  {
    hide Reachable, Seen;
    var r;
    s := Stale1();
    s, r := Stale2(s);
    s := Stale3(s);
    s := Stale4(s, r);
    s := Stale5(s);
    assert X[0] != Y[0];
  }
}
