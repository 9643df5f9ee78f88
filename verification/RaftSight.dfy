/**
  Runs of three servers between elections, told briefly: what each server's term, role, log and commit index are after
  an election, a proposal, a shipment, an acknowledgement or a crash.
 */
module RaftSight {
  import opened CommitRule
  import opened RaftRules
  import opened RaftCluster
  import opened RaftCommitRule
  import opened RaftSteps

  /** A server between elections that has applied all it knows committed. */
  datatype Brief = Brief(term: nat, role: Role, log: seq<Entry>, commit: nat)

  predicate Is(n: Node, b: Brief) {
    Looks(n, b.term, b.role, b.log) && n.commit == b.commit && n.applied == b.commit
  }

  type Sight = map<Id, Brief>

  ghost predicate Seen(c: Conf, s: Cluster, m: Sight) {
    && Reachable(c, s) && Shape(c, s)
    && forall i :: i in c.ids ==> i in s.nodes && i in m && Is(s.nodes[i], m[i])
  }

  /** Messages and applied commands are never lost. */
  ghost predicate Onward(s: Cluster, s': Cluster) {
    s.net <= s'.net && s'.hist.applied == s.hist.applied
  }

  /** Elections won and leaders' logs are as they were. */
  predicate SameLeaders(s: Cluster, s': Cluster) {
    s'.hist.wins == s.hist.wins && s'.hist.leaderLog == s.hist.leaderLog
  }

  /** No process that has led restarts. */
  predicate StillLed(s: Cluster, s': Cluster) {
    forall w :: w in s.nodes && s.nodes[w].led ==> w in s'.nodes && s'.nodes[w].led
  }

  // ---- one step of such a run ----

  /** Server i wins an election with the vote of v. */
  lemma Elects(mode: Mode, s: Cluster, m: Sight, i: Id, v: Id) returns (s': Cluster)
    requires Seen(Trio(mode), s, m) && i in Trio(mode).ids && v in Trio(mode).ids && i != v
    requires m[i].role != Leader && m[v].term <= m[i].term && UpToDate(m[v].log, LastTerm(m[i].log), |m[i].log|)
    ensures var t := m[i].term + 1;
      Seen(Trio(mode), s', m[v := m[v].(term := t, role := Follower)][i := m[i].(term := t, role := Leader)])
    ensures s'.nodes[i].peers == FreshPeers(CfgOf(Trio(mode), i), |m[i].log|) && Onward(s, s')
    ensures s'.nodes[i].led && StillLed(s, s')
    ensures var t := m[i].term + 1;
      && s'.hist.wins == s.hist.wins[Win(t, i) := {v, i}] && s'.hist.leaderLog == s.hist.leaderLog[t := m[i].log]
      && s'.hist.acked == s.hist.acked[(i, t) := |m[i].log|]
  {
    hide *;
    SeenAt(Trio(mode), s, m, i);
    SeenAt(Trio(mode), s, m, v);
    var n, k, t := s.nodes[i], s.nodes[v], m[i].term + 1;
    s' := Elect(mode, s, i, v);
    FollowsOn(k, m[v], t, i);
    LeadsOn(n, m[i], t, i, s'.nodes[i].peers);
    SeenBoth(Trio(mode), s, s', m, i, v, m[i].(term := t, role := Leader), m[v].(term := t, role := Follower));
    Quietly(s, s');
    ElectLed(s, s', i, v, t);
  }

  lemma ElectLed(s: Cluster, s': Cluster, i: Id, v: Id, t: nat)
    requires i in s.nodes && v in s.nodes && i in s'.nodes && s'.nodes[i].led
    requires s'.nodes == s.nodes[v := BecomeFollower(s.nodes[v], t).(votedFor := i)][i := s'.nodes[i]]
    ensures StillLed(s, s')
  {
  }

  lemma Quietly(s: Cluster, s': Cluster)
    requires s.net <= s'.net && s'.hist.applied == s.hist.applied
    ensures Onward(s, s')
  {
  }

  lemma SeenAt(c: Conf, s: Cluster, m: Sight, i: Id)
    requires Seen(c, s, m) && i in c.ids
    ensures Reachable(c, s) && Shape(c, s) && i in s.nodes && i in m && Is(s.nodes[i], m[i])
    ensures var n, b := s.nodes[i], m[i]; n.term == b.term && n.role == b.role && n.log == b.log && n.election == NoElection
  {
    hide Reachable;
  }

  lemma FollowsOn(n: Node, b: Brief, t: nat, vote: Id)
    requires Is(n, b)
    ensures Is(BecomeFollower(n, t).(votedFor := vote), b.(term := t, role := Follower))
  {
  }

  lemma LeadsOn(n: Node, b: Brief, t: nat, i: Id, peers: map<Id, Peer>)
    requires Is(n, b)
    ensures Is(n.(term := t, votedFor := i, role := Leader, leaderId := i, peers := peers, election := NoElection, led := true),
               b.(term := t, role := Leader))
  {
  }

  lemma SeenBoth(c: Conf, s: Cluster, s': Cluster, m: Sight, i: Id, v: Id, b: Brief, d: Brief)
    requires Seen(c, s, m) && Reachable(c, s') && Shape(c, s') && i in c.ids && v in c.ids && i != v
    requires s'.nodes == s.nodes[v := s'.nodes[v]][i := s'.nodes[i]] && Is(s'.nodes[i], b) && Is(s'.nodes[v], d)
    ensures Seen(c, s', m[v := d][i := b])
  {
    hide Reachable, Is;
  }

  /** Server i crashes, stands without success and crashes: it is a follower one term on. */
  lemma Bumps(mode: Mode, s: Cluster, m: Sight, i: Id) returns (s': Cluster)
    requires Seen(Trio(mode), s, m) && i in Trio(mode).ids
    ensures Seen(Trio(mode), s', m[i := Brief(m[i].term + 1, Follower, m[i].log, 0)]) && Onward(s, s')
  {
    hide *;
    var c := Trio(mode);
    SeenAt(c, s, m, i);
    var n := s.nodes[i];
    BumpIs(CfgOf(c, i), n, m[i]);
    OtherPeer(mode, i);
    var s1 := Crashes(c, s, i);
    var s2 := Stand(c, s1, i, Third(i, i));
    FactsApplied(s1.hist, s2.hist);
    s' := Crashes(c, s2, i);
    assert s'.nodes == s.nodes[i := s'.nodes[i]];
    SeenOne(c, s, s', m, i, Brief(m[i].term + 1, Follower, m[i].log, 0));
    Quietly(s, s');
  }

  lemma FactsApplied(h: History, h': History)
    requires SameFacts(h, h')
    ensures h'.applied == h.applied
  {
  }

  lemma BumpIs(cfg: Config, n: Node, b: Brief)
    requires Is(n, b)
    ensures var r := Restart(cfg, n);
      && r.role == Follower && r.election == NoElection
      && Is(Restart(cfg, StartElection(cfg, r)), Brief(b.term + 1, Follower, b.log, 0))
  {
  }

  /** A peer of server i other than server v. */
  function Third(i: Id, v: Id): Id {
    if i != A && v != A then A else if i != B && v != B then B else C
  }

  lemma OtherPeer(mode: Mode, i: Id)
    requires i in Trio(mode).ids
    ensures Third(i, i) in Trio(mode).ids && Third(i, i) != i
  {
    Names();
  }

  lemma SeenOne(c: Conf, s: Cluster, s': Cluster, m: Sight, i: Id, b: Brief)
    requires Seen(c, s, m) && Reachable(c, s') && Shape(c, s') && i in c.ids && i in s'.nodes
    requires s'.nodes == s.nodes[i := s'.nodes[i]] && Is(s'.nodes[i], b)
    ensures Seen(c, s', m[i := b])
  {
    hide Reachable, Is, Shape;
  }

  lemma Crashes(c: Conf, s: Cluster, i: Id) returns (s': Cluster)
    requires Reachable(c, s) && Shape(c, s) && i in c.ids
    ensures Reachable(c, s') && Shape(c, s') && s.net <= s'.net && s'.hist.applied == s.hist.applied
    ensures s'.nodes == s.nodes[i := Restart(CfgOf(c, i), s.nodes[i])]
  {
    hide Reachable;
    s' := Step(c, s, Crash(i));
  }

  lemma Proposes(mode: Mode, s: Cluster, m: Sight, i: Id, cmd: Cmd) returns (s': Cluster)
    requires Seen(Trio(mode), s, m) && i in Trio(mode).ids && m[i].role == Leader
    ensures Seen(Trio(mode), s', m[i := m[i].(log := m[i].log + [Entry(m[i].term, cmd)])]) && Onward(s, s')
    ensures s'.nodes[i].peers == s.nodes[i].peers && StillLed(s, s')
    ensures s'.hist.wins == s.hist.wins
    ensures s'.hist.leaderLog == s.hist.leaderLog[m[i].term := m[i].log + [Entry(m[i].term, cmd)]]
    ensures s'.hist.acked == s.hist.acked[(i, m[i].term) := |m[i].log| + 1]
  {
    hide Reachable;
    s' := Client(Trio(mode), s, i, cmd);
  }

  /** What leader i sends when the peer's next index is `next`. */
  function Request(i: Id, b: Brief, next: nat): AppendArgs
    requires next >= 1
  {
    AppendArgs(b.term, i, next - 1, TermAt(b.log, next - 1), Suffix(b.log, next), b.commit)
  }

  predicate Accepts(b: Brief, a: AppendArgs) {
    a.term >= b.term && a.prevIndex <= |b.log| && (a.prevIndex > 0 ==> TermAt(b.log, a.prevIndex) == a.prevTerm)
  }

  /** The receiver after a request of its term or later that commits nothing. */
  function Received(mode: Mode, b: Brief, a: AppendArgs): Brief
    requires a.term >= b.term
  {
    Brief(a.term, Follower,
          if a.prevIndex > |b.log| then b.log
          else if !Accepts(b, a) then b.log[..a.prevIndex - 1]
          else Merge(b.log, a.prevIndex, Stamp(mode.wire, a.term, a.entries)),
          b.commit)
  }

  lemma Receives(mode: Mode, n: Node, b: Brief, a: AppendArgs)
    requires Is(n, b) && a.leaderCommit == 0 && a.term >= b.term
    ensures var (n', r) := HandleAppend(mode, n, a);
      Is(n', Received(mode, b, a)) && r.success == Accepts(b, a) && r.term == b.term && n'.led == n.led
  {
    hide Merge, Stamp;
  }

  /** Leader i ships to v, which handles the request at once; the reply stays in the network. */
  lemma Ships(mode: Mode, s: Cluster, m: Sight, i: Id, v: Id, next: nat) returns (s': Cluster, r: AppendReply)
    requires Seen(Trio(mode), s, m) && i in Trio(mode).ids && v in Trio(mode).ids && i != v
    requires m[i].role == Leader && m[i].commit == 0 && m[v].term <= m[i].term
    requires v in s.nodes[i].peers && s.nodes[i].peers[v].next == next >= 1
    ensures var a := Request(i, m[i], next);
      && Seen(Trio(mode), s', m[v := Received(mode, m[v], a)]) && s'.nodes[i] == s.nodes[i] && Onward(s, s')
      && AppendResp(i, v, a, r) in s'.net && r.success == Accepts(m[v], a) && r.term == m[v].term
      && SameLeaders(s, s') && StillLed(s, s')
      && s'.hist.acked == if r.success
           then s.hist.acked[(v, a.term) := MaxNat(Acked(s.hist, v, a.term), a.prevIndex + |a.entries|)]
           else s.hist.acked
  {
    hide Reachable, Shape, NodeShape, Seen, Is, StillLed, SameLeaders, HandleAppend, Received, Accepts, Suffix, Without, Acked;
    SeenShape(Trio(mode), s, m, i);
    SeenShape(Trio(mode), s, m, v);
    var a := MakeAppend(CfgOf(Trio(mode), i), s.nodes[i], v);
    Receives(mode, s.nodes[v], m[v], a);
    r := HandleAppend(mode, s.nodes[v], a).1;
    s' := Ship(Trio(mode), s, i, v);
    assert s'.nodes == s.nodes[v := s'.nodes[v]];
    SeenOne(Trio(mode), s, s', m, v, Received(mode, m[v], a));
    LedBy(s, s', v);
    SameLeadersBy(s, s');
  }

  ghost predicate Pending(mode: Mode, s: Cluster, m: Sight, i: Id, v: Id, a: AppendArgs, r: AppendReply) {
    && Seen(Trio(mode), s, m) && i in Trio(mode).ids && v in Trio(mode).ids && i != v
    && AppendResp(i, v, a, r) in s.net && r.term <= m[i].term && v in s.nodes[i].peers
    && (mode.dropStale ==> m[i].role == Leader && a.term == m[i].term)
  }

  lemma RefusedIs(mode: Mode, cfg: Config, n: Node, b: Brief, v: Id, a: AppendArgs, r: AppendReply)
    requires Is(n, b) && (forall p :: p in cfg.peers ==> p in n.peers) && v in n.peers && n.peers[v].next > 1
    requires !r.success && r.term <= n.term && (mode.dropStale ==> b.role == Leader && a.term == n.term)
    ensures var n', p := OnAppendReply(mode, cfg, n, v, a, r), n.peers[v];
      Is(n', b) && n'.peers == n.peers[v := p.(next := p.next - 1)]
  {
    hide LeaderCommit, FollowerCommit;
  }

  lemma AckedIs(mode: Mode, cfg: Config, n: Node, b: Brief, v: Id, a: AppendArgs, r: AppendReply)
    requires Is(n, b) && (forall p :: p in cfg.peers ==> p in n.peers) && v in n.peers
    requires r.success && r.term <= n.term && b.role == Leader && b.log == [] && b.term > 0 && (mode.dropStale ==> a.term == n.term)
    ensures var n', k := OnAppendReply(mode, cfg, n, v, a, r), a.prevIndex + |a.entries|;
      Is(n', b) && n'.peers == n.peers[v := Peer(k + 1, k)]
  {
    hide MajorityValue, MatchValues, FollowerCommit;
  }

  /** A refusal moves the peer's next index back by one. */
  lemma Refuses(mode: Mode, s: Cluster, m: Sight, i: Id, v: Id, a: AppendArgs, r: AppendReply) returns (s': Cluster)
    requires Pending(mode, s, m, i, v, a, r) && !r.success && s.nodes[i].peers[v].next > 1
    ensures Seen(Trio(mode), s', m) && Onward(s, s') && SameLeaders(s, s') && s'.hist.acked == s.hist.acked
    ensures var p := s.nodes[i].peers[v]; s'.nodes[i].peers == s.nodes[i].peers[v := p.(next := p.next - 1)]
  {
    hide Reachable, Shape, NodeShape, Seen, Is, Pending, SameLeaders, OnAppendReply, Enabled, Without;
    PendingFacts(mode, s, m, i, v, a, r);
    SeenShape(Trio(mode), s, m, i);
    RefusedIs(mode, CfgOf(Trio(mode), i), s.nodes[i], m[i], v, a, r);
    s' := Reply(Trio(mode), s, i, AppendResp(i, v, a, r));
    assert s'.nodes == s.nodes[i := s'.nodes[i]] && m[i := m[i]] == m;
    SeenOne(Trio(mode), s, s', m, i, m[i]);
    SameLeadersBy(s, s');
  }

  /** An acknowledgement is recorded, whatever term it is from. */
  lemma Acks(mode: Mode, s: Cluster, m: Sight, i: Id, v: Id, a: AppendArgs, r: AppendReply) returns (s': Cluster)
    requires Pending(mode, s, m, i, v, a, r) && r.success && m[i].role == Leader && m[i].log == [] && m[i].term > 0
    ensures Seen(Trio(mode), s', m) && Onward(s, s')
    ensures var k := a.prevIndex + |a.entries|; s'.nodes[i].peers == s.nodes[i].peers[v := Peer(k + 1, k)]
  {
    hide Reachable, Shape, NodeShape, Seen, Is, Pending, OnAppendReply, Enabled, Without;
    PendingFacts(mode, s, m, i, v, a, r);
    SeenShape(Trio(mode), s, m, i);
    AckedIs(mode, CfgOf(Trio(mode), i), s.nodes[i], m[i], v, a, r);
    s' := Reply(Trio(mode), s, i, AppendResp(i, v, a, r));
    assert s'.nodes == s.nodes[i := s'.nodes[i]] && m[i := m[i]] == m;
    SeenOne(Trio(mode), s, s', m, i, m[i]);
  }

  // ---- the commit rule among three ----

  /** The middle one of three values. */
  lemma Middle(x: nat, y: nat, z: nat, k: nat)
    requires (x >= k && y >= k && z <= k) || (x >= k && z >= k && y <= k) || (y >= k && z >= k && x <= k)
    requires (x <= k && y <= k) || (x <= k && z <= k) || (y <= k && z <= k)
    ensures MajorityValue([x, y, z]) == k
  {
    var vals := [x, y, z];
    assert vals[1..] == [y, z] && vals[1..][1..] == [z] && vals[1..][1..][1..] == [];
    forall w: nat ensures CountGe(vals, w) == (if x >= w then 1 else 0) + (if y >= w then 1 else 0) + (if z >= w then 1 else 0) {
      assert CountGe(vals[1..], w) == (if y >= w then 1 else 0) + CountGe(vals[1..][1..], w);
      assert CountGe(vals[1..][1..], w) == (if z >= w then 1 else 0) + CountGe(vals[1..][1..][1..], w);
    }
    MajorityValueIsHighest(vals, k);
    MajorityValueIsHighest(vals, k + 1);
  }

  lemma MatchesOfThree(i: Id, p: Id, q: Id, n: Node)
    requires p in n.peers && q in n.peers
    ensures MatchValues(Config(i, [p, q]), n) == [|n.log|, n.peers[p].matched, n.peers[q].matched]
  {
    assert [p, q][1..] == [q] && [q][1..] == [];
    assert PeerMatches(n, [q]) == [n.peers[q].matched];
  }

  lemma PeersOf(mode: Mode, i: Id, v: Id)
    requires i in Trio(mode).ids && v in Trio(mode).ids && i != v
    ensures var w := Third(i, v);
      w in Trio(mode).ids && w != i && w != v && (CfgOf(Trio(mode), i).peers == [v, w] || CfgOf(Trio(mode), i).peers == [w, v])
  {
    TrioPeers(mode);
  }

  /** An acknowledgement of the whole log, from whatever term, makes the leader commit its last entry. */
  lemma AckCommits(mode: Mode, i: Id, v: Id, n: Node, a: AppendArgs, r: AppendReply)
    requires i in Trio(mode).ids && v in Trio(mode).ids && i != v && NodeShape(Trio(mode), i, n)
    requires r.success && r.term <= n.term && n.role == Leader && n.commit == 0 && (mode.dropStale ==> a.term == n.term)
    requires a.prevIndex + |a.entries| == |n.log| >= 1 && n.log[|n.log| - 1].term == n.term
    requires Third(i, v) in n.peers && n.peers[Third(i, v)].matched == 0
    ensures var k := |n.log|;
      OnAppendReply(mode, CfgOf(Trio(mode), i), n, v, a, r) == n.(peers := n.peers[v := Peer(k + 1, k)], commit := k)
  {
    hide MajorityValue, MatchValues, FollowerCommit, Trio, Without, Third;
    PeersOf(mode, i, v);
    var k, w := |n.log|, Third(i, v);
    var n1 := n.(peers := n.peers[v := Peer(k + 1, k)]);
    MatchesOfThree(i, v, w, n1);
    MatchesOfThree(i, w, v, n1);
    Middle(k, k, 0, k);
    Middle(k, 0, k, k);
  }

  lemma SeenShape(c: Conf, s: Cluster, m: Sight, i: Id)
    requires Seen(c, s, m) && i in c.ids
    ensures Reachable(c, s) && Shape(c, s) && i in s.nodes && i in m && Is(s.nodes[i], m[i]) && NodeShape(c, i, s.nodes[i])
    ensures var n, b := s.nodes[i], m[i]; n.term == b.term && n.role == b.role && n.log == b.log && n.commit == b.commit
    ensures forall p :: p in CfgOf(c, i).peers ==> p in s.nodes[i].peers
  {
    hide Reachable;
  }

  lemma PendingFacts(mode: Mode, s: Cluster, m: Sight, i: Id, v: Id, a: AppendArgs, r: AppendReply)
    requires Pending(mode, s, m, i, v, a, r)
    ensures Seen(Trio(mode), s, m) && Enabled(Trio(mode), s, RecvAppendResp(i, AppendResp(i, v, a, r)))
    ensures i in Trio(mode).ids && v in Trio(mode).ids && i != v && v in s.nodes[i].peers
    ensures r.term <= m[i].term && (mode.dropStale ==> m[i].role == Leader && a.term == m[i].term)
  {
    hide Reachable, Is;
  }

  lemma CommitsIs(n: Node, b: Brief, peers: map<Id, Peer>, k: nat)
    requires Is(n, b) && b.commit == 0 && k == |b.log| >= 1
    ensures var n1 := n.(peers := peers, commit := k);
      CanApply(n1) && ApplyOne(n1).peers == peers && ApplyOne(n1).led == n.led && n1.log[n1.applied].cmd == b.log[0].cmd
      && n1.applied == 0 && (k == 1 ==> Is(ApplyOne(n1), b.(commit := 1)))
  {
  }

  lemma LedBy(s: Cluster, s': Cluster, i: Id)
    requires i in s.nodes && i in s'.nodes && s'.nodes == s.nodes[i := s'.nodes[i]] && s'.nodes[i].led == s.nodes[i].led
    ensures StillLed(s, s')
  {
  }

  lemma SameLeadersBy(s: Cluster, s': Cluster)
    requires s'.hist.wins == s.hist.wins && s'.hist.leaderLog == s.hist.leaderLog
    ensures SameLeaders(s, s')
  {
  }

  /** The leader commits its log and applies the first entry. */
  lemma Commits(mode: Mode, s: Cluster, m: Sight, i: Id, v: Id, a: AppendArgs, r: AppendReply) returns (s': Cluster)
    requires Pending(mode, s, m, i, v, a, r) && r.success && m[i].role == Leader && m[i].commit == 0
    requires var b := m[i]; a.prevIndex + |a.entries| == |b.log| >= 1 && b.log[|b.log| - 1].term == b.term
    requires Third(i, v) in s.nodes[i].peers && s.nodes[i].peers[Third(i, v)].matched == 0
    ensures Reachable(Trio(mode), s') && Shape(Trio(mode), s')
    ensures s'.hist.applied == s.hist.applied + {Delivered(1, m[i].log[0].cmd)}
    ensures |m[i].log| == 1 ==> Seen(Trio(mode), s', m[i := m[i].(commit := 1)])
    ensures s'.nodes[i].peers == s.nodes[i].peers[v := Peer(|m[i].log| + 1, |m[i].log|)]
    ensures s.net <= s'.net && SameLeaders(s, s') && StillLed(s, s') && s'.hist.acked == s.hist.acked
  {
    hide Reachable, Shape, NodeShape, Seen, Is, Pending, StillLed, SameLeaders, Third, CanApply, ApplyOne, OnAppendReply, Enabled, Without;
    PendingFacts(mode, s, m, i, v, a, r);
    SeenShape(Trio(mode), s, m, i);
    var n, k := s.nodes[i], |m[i].log|;
    AckCommits(mode, i, v, n, a, r);
    CommitsIs(n, m[i], n.peers[v := Peer(k + 1, k)], k);
    var s1 := Reply(Trio(mode), s, i, AppendResp(i, v, a, r));
    s' := Deliver(Trio(mode), s1, i);
    assert s'.nodes == s.nodes[i := s'.nodes[i]];
    if k == 1 { SeenOne(Trio(mode), s, s', m, i, m[i].(commit := 1)); }
    LedBy(s, s', i);
    SameLeadersBy(s, s');
  }

  /** What a follower stores and applies when a leader that has committed one entry ships to it. */
  lemma LearnsOne(mode: Mode, n: Node, b: Brief, a: AppendArgs)
    requires Is(n, b) && b.commit == 0 && a.leaderCommit == 1 && a.term >= b.term && Accepts(b, a) && Received(mode, b, a).log != []
    ensures var (n', r) := HandleAppend(mode, n, a);
      CanApply(n') && n'.applied == 0 && n'.log == Received(mode, b, a).log && n'.led == n.led
      && Is(ApplyOne(n'), Received(mode, b, a).(commit := 1))
  {
    hide Merge, Stamp;
  }

  lemma LearntLed(n: Node, a: AppendArgs, mode: Mode)
    ensures var n' := HandleAppend(mode, n, a).0; CanApply(n') ==> ApplyOne(n').led == n.led
  {
    hide Merge, Stamp;
  }

  /** Leader i, its first entry committed, ships to v, which stores, learns of the commit and applies. */
  lemma Learns(mode: Mode, s: Cluster, m: Sight, i: Id, v: Id, next: nat) returns (s': Cluster)
    requires Seen(Trio(mode), s, m) && i in Trio(mode).ids && v in Trio(mode).ids && i != v
    requires m[i].role == Leader && m[i].commit == 1 && m[v].term <= m[i].term && m[v].commit == 0
    requires v in s.nodes[i].peers && s.nodes[i].peers[v].next == next >= 1
    requires var a := Request(i, m[i], next); Accepts(m[v], a) && Received(mode, m[v], a).log != []
    ensures var d := Received(mode, m[v], Request(i, m[i], next));
      && Seen(Trio(mode), s', m[v := d.(commit := 1)])
      && s'.hist.applied == s.hist.applied + {Delivered(1, d.log[0].cmd)} && SameLeaders(s, s') && StillLed(s, s')
  {
    hide Reachable, Shape, NodeShape, Seen, Is, StillLed, SameLeaders, CanApply, ApplyOne, HandleAppend, Received, Accepts, Suffix, Without;
    SeenShape(Trio(mode), s, m, i);
    SeenShape(Trio(mode), s, m, v);
    var a := MakeAppend(CfgOf(Trio(mode), i), s.nodes[i], v);
    LearnsOne(mode, s.nodes[v], m[v], a);
    var s1 := Ship(Trio(mode), s, i, v);
    s' := Deliver(Trio(mode), s1, v);
    assert s'.nodes == s.nodes[v := s'.nodes[v]];
    SeenOne(Trio(mode), s, s', m, v, Received(mode, m[v], a).(commit := 1));
    LearntLed(s.nodes[v], a, mode);
    LedBy(s, s', v);
    SameLeadersBy(s, s');
  }

  lemma SlipIs(n: Node, b: Brief, cmd: Cmd)
    requires Is(n, b)
    ensures Is(Propose(n, cmd), b.(log := b.log + [Entry(b.term, cmd)])) && Propose(n, cmd).led == n.led
  {
  }

  /** A server that has led and does so no longer lets a late proposal append to its log. */
  lemma Slips(mode: Mode, s: Cluster, m: Sight, i: Id, cmd: Cmd) returns (s': Cluster)
    requires Seen(Trio(mode), s, m) && i in Trio(mode).ids && !mode.locked && m[i].role != Leader && s.nodes[i].led
    ensures Seen(Trio(mode), s', m[i := m[i].(log := m[i].log + [Entry(m[i].term, cmd)])]) && Onward(s, s')
    ensures SameLeaders(s, s') && StillLed(s, s') && forall w :: w in Trio(mode).ids && w != i ==> s'.nodes[w] == s.nodes[w]
  {
    hide Reachable, Shape, NodeShape, Seen, Is, StillLed, SameLeaders, Onward, Leads, Without;
    SeenShape(Trio(mode), s, m, i);
    s' := Step(Trio(mode), s, ClientPropose(i, cmd));
    assert s'.nodes == s.nodes[i := Propose(s.nodes[i], cmd)];
    SlipIs(s.nodes[i], m[i], cmd);
    SeenOne(Trio(mode), s, s', m, i, m[i].(log := m[i].log + [Entry(m[i].term, cmd)]));
    LedBy(s, s', i);
    SameLeadersBy(s, s');
    Quietly(s, s');
  }

  /** A request that makes a server cut its log back to `keep` entries. */
  predicate CutsBrief(mode: Mode, b: Brief, a: AppendArgs, keep: nat) {
    a.term >= b.term && a.prevIndex <= |b.log| &&
    if a.prevIndex > 0 && TermAt(b.log, a.prevIndex) != a.prevTerm then keep == a.prevIndex - 1
    else Conflicts(b.log, a.prevIndex, Stamp(mode.wire, a.term, a.entries), keep)
  }

  lemma TornIs(mode: Mode, cfg: Config, n: Node, b: Brief, a: AppendArgs, keep: nat, left: nat)
    requires Is(n, b) && CutsBrief(mode, b, a, keep) && left <= keep <= |b.log|
    ensures Cuts(mode, n, a, keep) && left <= |n.log| && Is(Torn(cfg, n, a, left), Brief(a.term, Follower, b.log[..left], 0))
  {
    hide Conflicts, Stamp;
  }

  /** Leader i ships to v, which crashes while it cuts its log back, with `left` entries written. */
  lemma Tears(mode: Mode, s: Cluster, m: Sight, i: Id, v: Id, next: nat, keep: nat, left: nat) returns (s': Cluster)
    requires Seen(Trio(mode), s, m) && i in Trio(mode).ids && v in Trio(mode).ids && i != v && !mode.wholeCut
    requires m[i].role == Leader && m[v].term <= m[i].term && left <= keep <= |m[v].log|
    requires v in s.nodes[i].peers && s.nodes[i].peers[v].next == next >= 1 && CutsBrief(mode, m[v], Request(i, m[i], next), keep)
    ensures Seen(Trio(mode), s', m[v := Brief(m[i].term, Follower, m[v].log[..left], 0)]) && Onward(s, s')
  {
    hide Reachable, Shape, NodeShape, Seen, Is, Cuts, CutsBrief, Torn, Suffix, Without;
    SeenShape(Trio(mode), s, m, i);
    SeenShape(Trio(mode), s, m, v);
    var a := MakeAppend(CfgOf(Trio(mode), i), s.nodes[i], v);
    TornIs(mode, CfgOf(Trio(mode), v), s.nodes[v], m[v], a, keep, left);
    var s1 := Step(Trio(mode), s, SendAppend(i, v));
    s' := Step(Trio(mode), s1, TornCut(v, AppendReq(v, a), keep, left));
    assert s'.nodes == s.nodes[v := s'.nodes[v]];
    SeenOne(Trio(mode), s, s', m, v, Brief(m[i].term, Follower, m[v].log[..left], 0));
  }

  // ---- three servers at a glance ----

  function Three(a: Brief, b: Brief, c: Brief): Sight {
    map[A := a, B := b, C := c]
  }

  lemma ThreeUpdates(a: Brief, b: Brief, c: Brief, d: Brief)
    ensures Three(a, b, c)[A] == a && Three(a, b, c)[B] == b && Three(a, b, c)[C] == c
    ensures Three(a, b, c)[A := d] == Three(d, b, c)
    ensures Three(a, b, c)[B := d] == Three(a, d, c)
    ensures Three(a, b, c)[C := d] == Three(a, b, d)
  {
    Names();
  }

  lemma ThreeKeys(a: Brief, b: Brief, c: Brief)
    ensures Three(a, b, c).Keys == {A, B, C}
  {
  }

  lemma Begin(mode: Mode) returns (s: Cluster)
    ensures var b := Brief(0, Follower, [], 0); Seen(Trio(mode), s, Three(b, b, b)) && s.hist.applied == {}
  {
    hide Reachable, Shape, Run, FreshPeers, Without;
    var c, b := Trio(mode), Brief(0, Follower, [], 0);
    s := Init(c);
    InitReachable(c);
    AllAlike(b);
    forall i | i in c.ids ensures i in s.nodes && Is(s.nodes[i], b) {
      assert s.nodes[i] == Boot(CfgOf(c, i));
    }
  }

  lemma AllAlike(b: Brief)
    ensures forall i :: i in Three(b, b, b) <==> i == A || i == B || i == C
    ensures forall i :: i in Three(b, b, b) ==> Three(b, b, b)[i] == b
  {
  }

  lemma FreshAt(mode: Mode, i: Id, v: Id, last: nat)
    requires i in Trio(mode).ids && v in Trio(mode).ids && i != v
    ensures var peers := FreshPeers(CfgOf(Trio(mode), i), last); v in peers && peers[v] == Peer(last + 1, 0)
  {
  }

  lemma SelfUpToDate(log: seq<Entry>)
    ensures UpToDate(log, LastTerm(log), |log|)
  {
  }

  lemma NewerWins(older: seq<Entry>, log: seq<Entry>)
    requires LastTerm(older) < LastTerm(log)
    ensures UpToDate(older, LastTerm(log), |log|)
  {
  }

  /** A request for the whole log to a server with an empty one. */
  lemma WholeLog(mode: Mode, i: Id, b: Brief, d: Brief, log: seq<Entry>)
    requires b.log != [] && d.log == [] && d.term <= b.term && log == Stamp(mode.wire, b.term, b.log)
    ensures var a := Request(i, b, 1);
      && a == AppendArgs(b.term, i, 0, 0, b.log, b.commit) && Accepts(d, a)
      && Received(mode, d, a) == Brief(b.term, Follower, log, d.commit)
  {
    assert b.log[0..] == b.log && d.log[..0] + log == log;
  }

  /** A log shorter than the previous index is refused and left alone. */
  lemma TooShort(mode: Mode, i: Id, b: Brief, d: Brief, next: nat)
    requires next >= |d.log| + 2 && d.term <= b.term
    ensures var a := Request(i, b, next); !Accepts(d, a) && Received(mode, d, a) == d.(term := b.term, role := Follower)
  {
  }

  /** A log whose entry before the shipped ones has another term is cut there. */
  lemma CutBack(mode: Mode, i: Id, b: Brief, d: Brief, next: nat)
    requires 1 < next <= |d.log| + 1 && d.term <= b.term && d.log[next - 2].term != TermAt(b.log, next - 1)
    ensures var a := Request(i, b, next);
      !Accepts(d, a) && Received(mode, d, a) == d.(term := b.term, role := Follower, log := d.log[..next - 2])
  {
  }

  lemma RequestOne(i: Id, b: Brief)
    requires |b.log| == 1
    ensures var a := Request(i, b, 1); a.term == b.term && a.prevIndex + |a.entries| == 1
  {
  }

  // ---- an opening ----

  const X1: seq<Entry> := [Entry(1, X)]

  /** A leads term 1, B stores x, A commits and applies it. */
  lemma Opening(mode: Mode) returns (s: Cluster)
    ensures Seen(Trio(mode), s, Three(Brief(1, Leader, X1, 1), Brief(1, Follower, X1, 0), Brief(0, Follower, [], 0)))
    ensures Delivered(1, X) in s.hist.applied && 1 in s.hist.leaderLog && s.hist.leaderLog[1] == X1
    ensures Acked(s.hist, A, 1) >= 1 && Acked(s.hist, B, 1) >= 1
  {
    hide Reachable, Shape, Is, UpToDate, FreshPeers, Request, Accepts, Received, Three, Without;
    var z, f1, a1 := Brief(0, Follower, [], 0), Brief(1, Follower, [], 0), Brief(1, Leader, [], 0);
    var x1, x2, g1 := Brief(1, Leader, X1, 0), Brief(1, Leader, X1, 1), Brief(1, Follower, X1, 0);
    var r;
    var none: seq<Entry> := [];
    assert none + [Entry(1, X)] == X1;
    Names();
    EmptyIsUpToDate();
    s := Begin(mode);
    ThreeUpdates(z, z, z, f1);
    ThreeUpdates(z, f1, z, a1);
    s := Elects(mode, s, Three(z, z, z), A, B);
    FreshAt(mode, A, B, 0);
    FreshAt(mode, A, C, 0);
    ThreeUpdates(a1, f1, z, x1);
    s := Proposes(mode, s, Three(a1, f1, z), A, X);
    StampX(mode.wire);
    WholeLog(mode, A, x1, f1, X1);
    ThreeUpdates(x1, f1, z, g1);
    s, r := Ships(mode, s, Three(x1, f1, z), A, B, 1);
    ThreeUpdates(x1, g1, z, x2);
    RequestOne(A, x1);
    s := Commits(mode, s, Three(x1, g1, z), A, B, Request(A, x1, 1), r);
  }

  lemma StampX(wire: bool)
    ensures X1 == Stamp(wire, 1, X1)
  {
  }
}
