/**
  What a crash during a rewrite of the log file does. A follower that cuts a conflicting suffix off empties its file and
  writes the entries that stay one by one; when it crashes in between, entries it acknowledged are gone. Two commands
  are then applied at one index, whatever else is repaired.
 */
module RaftTorn {
  import opened RaftRules
  import opened RaftCluster
  import opened RaftSteps
  import opened RaftSight

  // ---- what a cut leaves in place ----

  lemma {:induction false} ConflictKeeps(log: seq<Entry>, at: nat, ents: seq<Entry>, keep: nat)
    requires at <= |log| && Conflicts(log, at, ents, keep)
    ensures at <= keep < |log| && keep - at < |ents| && Merge(log, at, ents) == log[..keep] + ents[keep - at..]
    ensures log[keep].term != ents[keep - at].term
    decreases |ents|
  {
    if log[at].term == ents[0].term {
      ConflictKeeps(log, at + 1, ents[1..], keep);
      assert ents[1..][keep - at - 1..] == ents[keep - at..];
    }
  }

  /** A request that cuts the log back to `keep` entries leaves those as they were. */
  lemma CutKeeps(mode: Mode, n: Node, a: AppendArgs, keep: nat)
    requires Cuts(mode, n, a, keep)
    ensures keep < |n.log| && keep <= |HandleAppend(mode, n, a).0.log| && HandleAppend(mode, n, a).0.log[..keep] == n.log[..keep]
  {
    hide Merge, Stamp, Conflicts;
    if !(a.prevIndex > 0 && TermAt(n.log, a.prevIndex) != a.prevTerm) {
      var ents := Stamp(mode.wire, a.term, a.entries);
      ConflictKeeps(n.log, a.prevIndex, ents, keep);
    }
  }

  // ---- a run in which a cut is torn ----

  const X1Y2: seq<Entry> := [Entry(1, X), Entry(2, Y)]
  const X1Y3: seq<Entry> := [Entry(1, X), Entry(3, Y)]
  const Y4: seq<Entry> := [Entry(4, Y)]

  /** B leads term 2 and takes y; A crashes, leads term 3 and takes y too; neither ships. */
  lemma Torn2(mode: Mode, s: Cluster) returns (s': Cluster)
    requires Seen(Trio(mode), s, Three(Brief(1, Leader, X1, 1), Brief(1, Follower, X1, 0), Brief(0, Follower, [], 0)))
    ensures Seen(Trio(mode), s', Three(Brief(3, Leader, X1Y3, 0), Brief(2, Leader, X1Y2, 0), Brief(3, Follower, [], 0)))
    ensures B in s'.nodes[A].peers && s'.nodes[A].peers[B].next == 2 && Onward(s, s')
  {
    hide Reachable, Shape, Is, UpToDate, FreshPeers, Three, Without, StillLed, SameLeaders;
    var x2, g1, z := Brief(1, Leader, X1, 1), Brief(1, Follower, X1, 0), Brief(0, Follower, [], 0);
    var b2, b3, c2, c3 := Brief(2, Leader, X1, 0), Brief(2, Leader, X1Y2, 0), Brief(2, Follower, [], 0), Brief(3, Follower, [], 0);
    var a2, a3, a4 := Brief(2, Follower, X1, 0), Brief(3, Leader, X1, 0), Brief(3, Leader, X1Y3, 0);
    assert X1 + [Entry(2, Y)] == X1Y2 && X1 + [Entry(3, Y)] == X1Y3;
    Names();
    NewerWins([], X1);
    ThreeUpdates(x2, g1, z, c2);
    ThreeUpdates(x2, g1, c2, b2);
    s' := Elects(mode, s, Three(x2, g1, z), B, C);
    ThreeUpdates(x2, b2, c2, b3);
    s' := Proposes(mode, s', Three(x2, b2, c2), B, Y);
    ThreeUpdates(x2, b3, c2, a2);
    s' := Bumps(mode, s', Three(x2, b3, c2), A);
    ThreeUpdates(a2, b3, c2, c3);
    ThreeUpdates(a2, b3, c3, a3);
    s' := Elects(mode, s', Three(a2, b3, c2), A, C);
    FreshAt(mode, A, B, 1);
    ThreeUpdates(a3, b3, c3, a4);
    s' := Proposes(mode, s', Three(a3, b3, c3), A, Y);
  }

  /** A's request makes B cut its second entry off; B crashes before it has written the first one back. */
  lemma Torn3(mode: Mode, s: Cluster) returns (s': Cluster)
    requires Seen(Trio(mode), s, Three(Brief(3, Leader, X1Y3, 0), Brief(2, Leader, X1Y2, 0), Brief(3, Follower, [], 0)))
    requires !mode.wholeCut && B in s.nodes[A].peers && s.nodes[A].peers[B].next == 2
    ensures Seen(Trio(mode), s', Three(Brief(3, Leader, X1Y3, 0), Brief(3, Follower, [], 0), Brief(3, Follower, [], 0)))
    ensures Onward(s, s')
  {
    hide Reachable, Shape, Is, Three, Without, StillLed, SameLeaders;
    var a4, b3, c3 := Brief(3, Leader, X1Y3, 0), Brief(2, Leader, X1Y2, 0), Brief(3, Follower, [], 0);
    Names();
    ThreeUpdates(a4, b3, c3, c3);
    ConflictAtTwo(mode, A, a4, b3);
    s' := Tears(mode, s, Three(a4, b3, c3), A, B, 2, 1, 0);
    assert X1Y2[..0] == [];
  }

  lemma ConflictAtTwo(mode: Mode, i: Id, b: Brief, d: Brief)
    requires |b.log| == |d.log| == 2 && b.log[0] == d.log[0] && d.term <= b.term == b.log[1].term && d.log[1].term != b.term
    ensures CutsBrief(mode, d, Request(i, b, 2), 1)
  {
    var a := Request(i, b, 2);
    assert a.entries == [b.log[1]] && Stamp(mode.wire, a.term, a.entries) == a.entries;
  }

  /** B and C, both empty, make C leader of term 4, which commits y at index 1. */
  lemma Torn4(mode: Mode, s: Cluster) returns (s': Cluster)
    requires Seen(Trio(mode), s, Three(Brief(3, Leader, X1Y3, 0), Brief(3, Follower, [], 0), Brief(3, Follower, [], 0)))
    ensures Reachable(Trio(mode), s') && s'.hist.applied == s.hist.applied + {Delivered(1, Y)}
  {
    hide Reachable, Shape, Is, UpToDate, FreshPeers, Request, Accepts, Received, Three, Without, StillLed, SameLeaders;
    var a, c3, b4, c4 := Brief(3, Leader, X1Y3, 0), Brief(3, Follower, [], 0), Brief(4, Follower, [], 0), Brief(4, Leader, [], 0);
    var c5, b5 := Brief(4, Leader, Y4, 0), Brief(4, Follower, Y4, 0);
    var r;
    var none: seq<Entry> := [];
    assert none + [Entry(4, Y)] == Y4;
    Names();
    EmptyIsUpToDate();
    ThreeUpdates(a, c3, c3, b4);
    ThreeUpdates(a, b4, c3, c4);
    s' := Elects(mode, s, Three(a, c3, c3), C, B);
    FreshAt(mode, C, A, 0);
    FreshAt(mode, C, B, 0);
    ThreeUpdates(a, b4, c4, c5);
    s' := Proposes(mode, s', Three(a, b4, c4), C, Y);
    StampY(mode.wire);
    WholeLog(mode, C, c5, b4, Y4);
    ThreeUpdates(a, b4, c5, b5);
    s', r := Ships(mode, s', Three(a, b4, c5), C, B, 1);
    ThreeUpdates(a, b5, c5, b5);
    RequestOne(C, c5);
    s' := Commits(mode, s', Three(a, b5, c5), C, B, Request(C, c5, 1), r);
  }

  lemma StampY(wire: bool)
    ensures Y4 == Stamp(wire, 4, Y4)
  {
  }

  /** With the log file rewritten in place, a reachable state has two commands applied at index 1. */
  lemma TornCutsLoseCommands(mode: Mode) returns (s: Cluster)
    requires !mode.wholeCut
    ensures Reachable(Trio(mode), s) && X != Y && Delivered(1, X) in s.hist.applied && Delivered(1, Y) in s.hist.applied
  {
    hide Reachable, Seen;
    s := Opening(mode);
    s := Torn2(mode, s);
    s := Torn3(mode, s);
    s := Torn4(mode, s);
    assert X[0] != Y[0];
  }
}
