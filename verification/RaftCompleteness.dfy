/**
  Leader Completeness under the contract: shipped entries keep their own term, as the transport header
  states, a reply is processed only while its receiver still leads the term it asked in, the role is
  read under the mutex, and a log is cut back at once.
  Call an entry of a leader's own term chosen when a majority has stored that leader's log up to it.
  The invariant says of every stored own-term entry: whoever stored it, and every later leader, still
  has it, or a majority has already moved past that term without it, so it can never be chosen.
 */
module RaftCompleteness {
  import opened RaftRules
  import opened RaftCluster
  import opened RaftElection
  import opened RaftLogs

  /** Position k (from 1) of the log of leader t holds an entry of its own term. */
  predicate Own(ll: Logs, t: nat, k: nat) {
    t in ll && 0 < k <= |ll[t]| && ll[t][k - 1].term == t
  }

  /** Every server in q has left term t behind without storing its leader's log up to k. */
  ghost predicate Passed(c: Conf, s: Cluster, q: set<Id>, t: nat, k: nat)
    requires Shape(c, s)
  {
    Quorum(c, q) && forall u :: u in q ==> s.nodes[u].term > t && Acked(s.hist, u, t) < k
  }

  ghost predicate Blocked(c: Conf, s: Cluster, t: nat, k: nat)
    requires Shape(c, s)
  {
    exists q :: Passed(c, s, q, t, k)
  }

  ghost predicate StoredBy(c: Conf, h: History, q: set<Id>, t: nat, k: nat) {
    Quorum(c, q) && forall u :: u in q ==> Acked(h, u, t) >= k
  }

  ghost predicate Chosen(c: Conf, h: History, t: nat, k: nat) {
    Own(h.leaderLog, t, k) && exists q :: StoredBy(c, h, q, t, k)
  }

  lemma ChosenNotBlocked(c: Conf, s: Cluster, t: nat, k: nat)
    requires Shape(c, s) && Chosen(c, s.hist, t, k)
    ensures !Blocked(c, s, t, k)
  {
    if Blocked(c, s, t, k) {
      var q :| Passed(c, s, q, t, k);
      var r :| StoredBy(c, s.hist, r, t, k);
      var v := Intersect(c, q, r);
    }
  }

  /** `log` has the entry, with everything below it, unless it can no longer be chosen. */
  ghost predicate Kept(c: Conf, s: Cluster, log: seq<Entry>, t: nat, k: nat)
    requires Shape(c, s) && Own(s.hist.leaderLog, t, k)
  {
    Matches(true, log, s.hist.leaderLog[t], k) || Blocked(c, s, t, k)
  }

  // ---- the invariant ----

  ghost predicate AckOk(c: Conf, s: Cluster)
    requires Shape(c, s)
  {
    forall v, t: nat :: v in c.ids && Acked(s.hist, v, t) > 0 ==>
      t in s.hist.leaderLog && Acked(s.hist, v, t) <= |s.hist.leaderLog[t]| && t <= s.nodes[v].term
  }

  ghost predicate StoreOk(c: Conf, s: Cluster)
    requires Shape(c, s)
  {
    forall v, t: nat, k: nat :: v in c.ids && Own(s.hist.leaderLog, t, k) && k <= Acked(s.hist, v, t) ==>
      Kept(c, s, s.nodes[v].log, t, k)
  }

  ghost predicate VoteOk(c: Conf, s: Cluster)
    requires Shape(c, s)
  {
    forall b, t: nat, k: nat :: b in s.hist.ballots && t < b.term && Own(s.hist.leaderLog, t, k) && k <= Acked(s.hist, b.voter, t) ==>
      (b.candidate, b.term) in s.hist.candLog && Kept(c, s, s.hist.candLog[(b.candidate, b.term)], t, k)
  }

  ghost predicate LeadOk(c: Conf, s: Cluster)
    requires Shape(c, s)
  {
    forall t: nat, k: nat, u: nat :: Own(s.hist.leaderLog, t, k) && u in s.hist.leaderLog && t < u ==>
      Kept(c, s, s.hist.leaderLog[u], t, k)
  }

  type CandLogs = map<(Id, nat), seq<Entry>>

  ghost predicate CandLogsOk(c: Conf, nodes: map<Id, Node>, ll: Logs, cl: CandLogs) {
    forall e :: e in cl ==> e.0 in c.ids && e.0 in nodes && e.1 <= nodes[e.0].term && LogOk(true, ll, cl[e], e.1)
  }

  ghost predicate CandNodeOk(cl: CandLogs, v: Id, n: Node) {
    n.role == Candidate ==> (v, n.term) in cl && cl[(v, n.term)] == n.log
  }

  ghost predicate CandNetOk(cl: CandLogs, net: set<Msg>) {
    forall m :: m in net && m.VoteReq? ==> StandsWith(cl, m.vargs)
  }

  ghost predicate CandOk(c: Conf, s: Cluster)
    requires Shape(c, s)
  {
    && CandLogsOk(c, s.nodes, s.hist.leaderLog, s.hist.candLog)
    && (forall v :: v in c.ids ==> CandNodeOk(s.hist.candLog, v, s.nodes[v]))
    && CandNetOk(s.hist.candLog, s.net)
  }

  predicate StandsWith(cl: CandLogs, a: VoteArgs) {
    (a.candidate, a.term) in cl &&
    var log := cl[(a.candidate, a.term)];
    a.lastIndex == |log| && a.lastTerm == LastTerm(log)
  }

  ghost predicate CompInv(c: Conf, s: Cluster)
    requires Shape(c, s)
  {
    AckOk(c, s) && StoreOk(c, s) && VoteOk(c, s) && LeadOk(c, s) && CandOk(c, s)
  }

  // ---- what only grows ----

  ghost predicate Evolves(c: Conf, s: Cluster, s': Cluster)
    requires Shape(c, s) && Shape(c, s')
  {
    && Grows(s.hist.leaderLog, s'.hist.leaderLog)
    && (forall v :: v in c.ids ==> s.nodes[v].term <= s'.nodes[v].term)
    && (forall v, t: nat :: v in c.ids ==> Acked(s.hist, v, t) <= Acked(s'.hist, v, t))
    && (forall v, t: nat :: v in c.ids && Acked(s.hist, v, t) != Acked(s'.hist, v, t) ==> s'.nodes[v].term == t)
  }

  lemma BlockedStays(c: Conf, s: Cluster, s': Cluster, t: nat, k: nat)
    requires Shape(c, s) && Shape(c, s') && Evolves(c, s, s') && Blocked(c, s, t, k)
    ensures Blocked(c, s', t, k)
  {
    var q :| Passed(c, s, q, t, k);
    forall u | u in q ensures s'.nodes[u].term > t && Acked(s'.hist, u, t) < k {
      assert u in c.ids;
    }
    assert Passed(c, s', q, t, k);
  }

  lemma KeptStays(c: Conf, s: Cluster, s': Cluster, log: seq<Entry>, t: nat, k: nat)
    requires Shape(c, s) && Shape(c, s') && Evolves(c, s, s')
    requires Own(s.hist.leaderLog, t, k) && Kept(c, s, log, t, k)
    ensures Own(s'.hist.leaderLog, t, k) && Kept(c, s', log, t, k)
  {
    if Blocked(c, s, t, k) { BlockedStays(c, s, s', t, k); }
  }

  lemma ChosenStays(c: Conf, s: Cluster, s': Cluster, t: nat, k: nat)
    requires Shape(c, s) && Shape(c, s') && Evolves(c, s, s') && Chosen(c, s.hist, t, k)
    ensures Chosen(c, s'.hist, t, k)
  {
    var q :| StoredBy(c, s.hist, q, t, k);
    forall u | u in q ensures Acked(s'.hist, u, t) >= k {
      assert u in c.ids;
    }
    assert StoredBy(c, s'.hist, q, t, k);
  }

  // ---- voting: an up-to-date candidate has what its voter has ----

  lemma UpToDateHas(c: Conf, s: Cluster, log: seq<Entry>, bound: nat, cand: seq<Entry>, cbound: nat, t: nat, k: nat)
    requires Shape(c, s) && LeadOk(c, s) && Own(s.hist.leaderLog, t, k)
    requires LogOk(true, s.hist.leaderLog, log, bound) && LogOk(true, s.hist.leaderLog, cand, cbound)
    requires forall u :: u in s.hist.leaderLog ==> LogOk(true, s.hist.leaderLog, s.hist.leaderLog[u], u)
    requires UpToDate(log, LastTerm(cand), |cand|) && Matches(true, log, s.hist.leaderLog[t], k)
    ensures Kept(c, s, cand, t, k)
  {
    var ll := s.hist.leaderLog;
    assert log[k - 1].term == t;
    assert EntryOk(true, ll, log, |log| - 1, bound);
    assert t <= LastTerm(log) <= LastTerm(cand);
    assert EntryOk(true, ll, cand, |cand| - 1, cbound);
    var u := LastTerm(cand);
    if u > LastTerm(log) {
      assert Kept(c, s, ll[u], t, k);
      if Matches(true, ll[u], ll[t], k) {
        assert ll[u][|cand| - 1].term == u && ll[u][k - 1].term == t;
        assert k <= |cand|;
      }
    } else {
      assert Matches(true, log, ll[u], |log|) && Matches(true, cand, ll[u], |cand|);
    }
  }

  // ---- AppendEntries keeps what the new leader has too ----

  lemma {:induction false} MergeKeeps(log: seq<Entry>, at: nat, l: seq<Entry>, ents: seq<Entry>, p: seq<Entry>, k: nat)
    requires at <= |log| && Stamped(true, 0, l, at, ents)
    requires Matches(true, log, p, k) && Matches(true, l, p, k)
    ensures Matches(true, Merge(log, at, ents), p, k)
    decreases |ents|
  {
    if ents != [] {
      assert at < k ==> Same(true, log[at], p[at]) && Same(true, l[at], p[at]);
      if at < |log| && log[at].term == ents[0].term {
        MergeKeeps(log, at + 1, l, ents[1..], p, k);
      }
    }
  }

  lemma HandleAppendKeeps(mode: Mode, n: Node, a: AppendArgs, l: seq<Entry>, p: seq<Entry>, k: nat)
    requires mode.wire && Shipped(l, a)
    requires Matches(true, n.log, p, k) && Matches(true, l, p, k)
    ensures Matches(true, HandleAppend(mode, n, a).0.log, p, k)
  {
    assert 0 < a.prevIndex <= k ==>
        Same(true, n.log[a.prevIndex - 1], p[a.prevIndex - 1]) && Same(true, l[a.prevIndex - 1], p[a.prevIndex - 1]);
    if a.prevIndex <= |n.log| && TermAt(n.log, a.prevIndex) == a.prevTerm {
      MergeKeeps(n.log, a.prevIndex, l, a.entries, p, k);
    }
  }

  // ---- every action keeps the invariant ----

  /** Logs, ballots, candidacies and acknowledgements all stay; the node may move on in term or step down. */
  ghost predicate Idle(c: Conf, s: Cluster, s': Cluster, i: Id)
    requires Shape(c, s) && Shape(c, s')
  {
    && i in c.ids
    && s'.nodes == s.nodes[i := s'.nodes[i]]
    && s'.hist.leaderLog == s.hist.leaderLog && s'.hist.acked == s.hist.acked
    && s'.hist.ballots == s.hist.ballots && s'.hist.candLog == s.hist.candLog
    && s'.nodes[i].log == s.nodes[i].log && s'.nodes[i].term >= s.nodes[i].term
    && (s'.nodes[i].role == Candidate ==> s.nodes[i].role == Candidate && s'.nodes[i].term == s.nodes[i].term)
    && (forall m :: m in s'.net && m.VoteReq? ==> m in s.net)
  }

  lemma IdleEvolves(c: Conf, s: Cluster, s': Cluster, i: Id)
    requires Shape(c, s) && Shape(c, s') && AckOk(c, s) && Idle(c, s, s', i)
    ensures Evolves(c, s, s') && AckOk(c, s')
  {
  }

  lemma IdleCand(c: Conf, s: Cluster, s': Cluster, i: Id)
    requires Shape(c, s) && Shape(c, s') && CandOk(c, s) && Idle(c, s, s', i)
    ensures CandOk(c, s')
  {
    hide LogOk, StandsWith;
  }

  lemma IdleComp(c: Conf, s: Cluster, s': Cluster, i: Id)
    requires Shape(c, s) && Shape(c, s') && CompInv(c, s) && Idle(c, s, s', i)
    ensures CompInv(c, s') && Evolves(c, s, s')
  {
    hide Kept, LogOk;
    var ll := s.hist.leaderLog;
    IdleEvolves(c, s, s', i);
    IdleCand(c, s, s', i);
    hide CandOk, Evolves;
    forall v, t: nat, k: nat | v in c.ids && Own(ll, t, k) && k <= Acked(s'.hist, v, t) ensures Kept(c, s', s'.nodes[v].log, t, k) {
      KeptStays(c, s, s', s.nodes[v].log, t, k);
    }
    forall b, t: nat, k: nat | b in s.hist.ballots && t < b.term && Own(ll, t, k) && k <= Acked(s'.hist, b.voter, t)
      ensures (b.candidate, b.term) in s.hist.candLog && Kept(c, s', s.hist.candLog[(b.candidate, b.term)], t, k)
    {
      KeptStays(c, s, s', s.hist.candLog[(b.candidate, b.term)], t, k);
    }
    forall t: nat, k: nat, u: nat | Own(ll, t, k) && u in ll && t < u ensures Kept(c, s', ll[u], t, k) {
      KeptStays(c, s, s', ll[u], t, k);
    }
  }

  /** One ballot is cast (and, for a candidate's own, its log recorded); logs and acknowledgements stay. */
  ghost predicate Casts(c: Conf, s: Cluster, s': Cluster, b: Ballot)
    requires Shape(c, s) && Shape(c, s')
  {
    var h, h' := s.hist, s'.hist;
    && b.voter in c.ids
    && s'.nodes == s.nodes[b.voter := s'.nodes[b.voter]]
    && h'.leaderLog == h.leaderLog && h'.acked == h.acked && h'.ballots == h.ballots + {b}
    && s'.nodes[b.voter].log == s.nodes[b.voter].log && s'.nodes[b.voter].term >= s.nodes[b.voter].term
    && (forall e :: e in h.candLog ==> e in h'.candLog && h'.candLog[e] == h.candLog[e])
    && (b.candidate, b.term) in h'.candLog
  }

  lemma CastEvolves(c: Conf, s: Cluster, s': Cluster, b: Ballot)
    requires Shape(c, s) && Shape(c, s') && AckOk(c, s) && Casts(c, s, s', b)
    ensures Evolves(c, s, s') && AckOk(c, s')
  {
  }

  lemma CastComp(c: Conf, s: Cluster, s': Cluster, b: Ballot)
    requires Shape(c, s) && Shape(c, s') && CompInv(c, s) && Casts(c, s, s', b)
    requires CandOk(c, s')
    requires forall t: nat, k: nat :: Own(s.hist.leaderLog, t, k) && t < b.term && k <= Acked(s.hist, b.voter, t) ==>
      Kept(c, s, s'.hist.candLog[(b.candidate, b.term)], t, k)
    ensures CompInv(c, s') && Evolves(c, s, s')
  {
    hide CandOk, Kept;
    var ll := s.hist.leaderLog;
    CastEvolves(c, s, s', b);
    hide Evolves, AckOk;
    forall v, t: nat, k: nat | v in c.ids && Own(ll, t, k) && k <= Acked(s'.hist, v, t) ensures Kept(c, s', s'.nodes[v].log, t, k) {
      KeptStays(c, s, s', s.nodes[v].log, t, k);
    }
    forall x, t: nat, k: nat | x in s'.hist.ballots && t < x.term && Own(ll, t, k) && k <= Acked(s'.hist, x.voter, t)
      ensures (x.candidate, x.term) in s'.hist.candLog && Kept(c, s', s'.hist.candLog[(x.candidate, x.term)], t, k)
    {
      if x != b { assert x in s.hist.ballots; }
      KeptStays(c, s, s', s'.hist.candLog[(x.candidate, x.term)], t, k);
    }
    forall t: nat, k: nat, u: nat | Own(ll, t, k) && u in ll && t < u ensures Kept(c, s', ll[u], t, k) {
      KeptStays(c, s, s', ll[u], t, k);
    }
  }

  lemma NewCandidate(c: Conf, s: Cluster, i: Id)
    requires Shape(c, s) && CandOk(c, s) && i in c.ids && LogOk(true, s.hist.leaderLog, s.nodes[i].log, s.nodes[i].term)
    ensures var n := s.nodes[i];
      var cl' := s.hist.candLog[(i, n.term + 1) := n.log];
      var n' := StartElection(CfgOf(c, i), n);
      && (i, n.term + 1) !in s.hist.candLog
      && CandLogsOk(c, s.nodes[i := n'], s.hist.leaderLog, cl')
      && CandNetOk(cl', s.net)
      && CandNodeOk(cl', i, n')
      && (forall v :: v in c.ids && v != i ==> CandNodeOk(cl', v, s.nodes[v]))
  {
    hide LogOk;
    var n := s.nodes[i];
    var t := n.term + 1;
    var cl, cl' := s.hist.candLog, s.hist.candLog[(i, t) := n.log];
    assert (i, t) !in cl;
    LogOkGrows(true, s.hist.leaderLog, s.hist.leaderLog, n.log, n.term, t);
    forall m | m in s.net && m.VoteReq? ensures StandsWith(cl', m.vargs) {
      assert StandsWith(cl, m.vargs);
    }
    forall v | v in c.ids && v != i ensures CandNodeOk(cl', v, s.nodes[v]) {
      assert CandNodeOk(cl, v, s.nodes[v]);
    }
  }

  lemma StartCand(c: Conf, s: Cluster, a: Action)
    requires WellFormed(c) && Shape(c, s) && Enabled(c, s, a) && a.Start? && LogsInv(c, s) && CandOk(c, s) && c.mode.wire
    ensures Shape(c, Next(c, s, a)) && CandOk(c, Next(c, s, a))
    ensures Casts(c, s, Next(c, s, a), Ballot(a.i, s.nodes[a.i].term + 1, a.i))
    ensures Next(c, s, a).hist.candLog[(a.i, s.nodes[a.i].term + 1)] == s.nodes[a.i].log
  {
    hide LeadersOk, NetLogs, LogOk, CandLogsOk;
    NextShape(c, s, a);
    var n := s.nodes[a.i];
    assert NodeLogs(c, s.hist.leaderLog, a.i, n);
    NewCandidate(c, s, a.i);
    var (n', sent, h') := Effect(c, s, a);
    assert CandNetOk(h'.candLog, sent);
  }

  lemma StartComp(c: Conf, s: Cluster, a: Action)
    requires WellFormed(c) && Shape(c, s) && Enabled(c, s, a) && a.Start? && LogsInv(c, s) && CompInv(c, s) && c.mode.wire
    ensures Shape(c, Next(c, s, a)) && CompInv(c, Next(c, s, a)) && Evolves(c, s, Next(c, s, a))
  {
    hide LogsInv, Next, Effect, CandOk, Casts, Kept;
    StartCand(c, s, a);
    CastComp(c, s, Next(c, s, a), Ballot(a.i, s.nodes[a.i].term + 1, a.i));
  }

  lemma GrantKept(c: Conf, s: Cluster, i: Id, m: Msg, t: nat, k: nat)
    requires WellFormed(c) && Shape(c, s) && LogsInv(c, s) && CompInv(c, s) && c.mode.wire
    requires i in c.ids && m in s.net && m.VoteReq? && m.dest == i && HandleVote(s.nodes[i], m.vargs).1.granted
    requires Own(s.hist.leaderLog, t, k) && k <= Acked(s.hist, i, t)
    ensures (m.vargs.candidate, m.vargs.term) in s.hist.candLog
    ensures Kept(c, s, s.hist.candLog[(m.vargs.candidate, m.vargs.term)], t, k)
  {
    hide Blocked, AckOk, VoteOk, NetLogs, LogOk;
    var n := s.nodes[i];
    var e := (m.vargs.candidate, m.vargs.term);
    assert NodeLogs(c, s.hist.leaderLog, i, n);
    assert StandsWith(s.hist.candLog, m.vargs);
    assert Kept(c, s, n.log, t, k);
    if Matches(true, n.log, s.hist.leaderLog[t], k) {
      UpToDateHas(c, s, n.log, n.term, s.hist.candLog[e], e.1, t, k);
    }
  }

  lemma VoteShape(c: Conf, s: Cluster, a: Action)
    requires WellFormed(c) && Shape(c, s) && Enabled(c, s, a) && a.RecvVoteReq? && CandOk(c, s)
    ensures var s' := Next(c, s, a);
      && Shape(c, s')
      && (a.m.vargs.candidate, a.m.vargs.term) in s.hist.candLog && s'.hist.candLog == s.hist.candLog
      && if HandleVote(s.nodes[a.i], a.m.vargs).1.granted
         then Casts(c, s, s', Ballot(a.i, a.m.vargs.term, a.m.vargs.candidate))
         else Idle(c, s, s', a.i)
  {
    hide LogOk, UpToDate, Without, CandLogsOk;
    NextShape(c, s, a);
    assert StandsWith(s.hist.candLog, a.m.vargs);
  }

  /** Nothing that the candidates' records speak of changes, but that node i may move on in term or step down. */
  ghost predicate CandStays(s: Cluster, s': Cluster, i: Id) {
    && i in s.nodes && i in s'.nodes && s'.nodes == s.nodes[i := s'.nodes[i]]
    && s'.hist.leaderLog == s.hist.leaderLog && s'.hist.candLog == s.hist.candLog
    && s'.nodes[i].log == s.nodes[i].log && s'.nodes[i].term >= s.nodes[i].term
    && (s'.nodes[i].role == Candidate ==> s.nodes[i].role == Candidate && s'.nodes[i].term == s.nodes[i].term)
    && (forall m :: m in s'.net && m.VoteReq? ==> m in s.net)
  }

  lemma VoteStays(c: Conf, s: Cluster, a: Action)
    requires Shape(c, s) && Enabled(c, s, a) && a.RecvVoteReq?
    ensures CandStays(s, Next(c, s, a), a.i)
  {
    hide UpToDate, Without;
  }

  lemma VoteCand(c: Conf, s: Cluster, s': Cluster, i: Id)
    requires Shape(c, s) && Shape(c, s') && i in c.ids && CandOk(c, s) && CandStays(s, s', i)
    ensures CandOk(c, s')
  {
    hide LogOk, StandsWith;
  }

  lemma VoteComp(c: Conf, s: Cluster, a: Action)
    requires WellFormed(c) && Shape(c, s) && Enabled(c, s, a) && a.RecvVoteReq? && LogsInv(c, s) && CompInv(c, s) && c.mode.wire
    ensures Shape(c, Next(c, s, a)) && CompInv(c, Next(c, s, a)) && Evolves(c, s, Next(c, s, a))
  {
    hide LogsInv, AckOk, StoreOk, VoteOk, LeadOk, CandOk, Kept, Next, Effect, Casts, Idle, Evolves;
    VoteShape(c, s, a);
    VoteStays(c, s, a);
    VoteCand(c, s, Next(c, s, a), a.i);
    var e := (a.m.vargs.candidate, a.m.vargs.term);
    if HandleVote(s.nodes[a.i], a.m.vargs).1.granted {
      forall t: nat, k: nat | Own(s.hist.leaderLog, t, k) && t < e.1 && k <= Acked(s.hist, a.i, t)
        ensures Kept(c, s, s.hist.candLog[e], t, k)
      {
        GrantKept(c, s, a.i, a.m, t, k);
      }
      CastComp(c, s, Next(c, s, a), Ballot(a.i, e.1, e.0));
    } else {
      IdleComp(c, s, Next(c, s, a), a.i);
    }
  }

  // ---- winning ----

  /** Node i starts to lead its term; the term has no leader log before. */
  ghost predicate Crowns(c: Conf, s: Cluster, s': Cluster, i: Id, q: set<Id>)
    requires Shape(c, s) && Shape(c, s') && i in c.ids
  {
    var h, h', n := s.hist, s'.hist, s.nodes[i];
    && n.role == Candidate
    && s'.nodes == s.nodes[i := s'.nodes[i]] && s'.net == s.net
    && s'.nodes[i].log == n.log && s'.nodes[i].term == n.term && s'.nodes[i].role == Leader
    && h'.ballots == h.ballots && h'.candLog == h.candLog
    && n.term !in h.leaderLog && h'.leaderLog == h.leaderLog[n.term := n.log]
    && h'.acked == h.acked[(i, n.term) := |n.log|]
    && Quorum(c, q) && (forall u :: u in q ==> Ballot(u, n.term, i) in h.ballots)
  }

  /** What any voter stored of an earlier leader, the winner has too, or it can no longer be chosen. */
  lemma WinnerHas(c: Conf, s: Cluster, s': Cluster, i: Id, q: set<Id>, t: nat, k: nat)
    requires i in c.ids && Shape(c, s) && Shape(c, s') && VotesInv(c, s) && CompInv(c, s) && Crowns(c, s, s', i, q)
    requires Own(s.hist.leaderLog, t, k) && t < s.nodes[i].term
    ensures Kept(c, s, s.nodes[i].log, t, k)
  {
    hide LogOk, AckOk, StoreOk, LeadOk, BallotsOk, WinsOk, NetVotes;
    var n := s.nodes[i];
    if v :| v in q && k <= Acked(s.hist, v, t) {
      assert Ballot(v, n.term, i) in s.hist.ballots;
      assert CandNodeOk(s.hist.candLog, i, n);
    } else {
      forall u | u in q ensures s.nodes[u].term > t {
        assert NodeVotes(c, s.hist.ballots, s.hist.wins, u, s.nodes[u]);
        assert Ballot(u, n.term, i) in s.hist.ballots;
      }
      assert Passed(c, s, q, t, k);
    }
  }

  /** A new leader's log holds no entry of its own term yet. */
  lemma NoOwnYet(c: Conf, s: Cluster, s': Cluster, i: Id, q: set<Id>, k: nat)
    requires i in c.ids && Shape(c, s) && Shape(c, s') && LogsInv(c, s) && Crowns(c, s, s', i, q)
    ensures !Own(s'.hist.leaderLog, s.nodes[i].term, k)
  {
    var n := s.nodes[i];
    assert NodeLogs(c, s.hist.leaderLog, i, n);
    if 0 < k <= |n.log| {
      assert EntryOk(c.mode.wire, s.hist.leaderLog, n.log, k - 1, n.term);
    }
  }

  lemma CrownEvolves(c: Conf, s: Cluster, s': Cluster, i: Id, q: set<Id>)
    requires i in c.ids && Shape(c, s) && Shape(c, s') && AckOk(c, s) && Crowns(c, s, s', i, q)
    ensures Evolves(c, s, s') && AckOk(c, s')
  {
  }

  lemma CrownCand(c: Conf, s: Cluster, s': Cluster, i: Id, q: set<Id>)
    requires i in c.ids && Shape(c, s) && Shape(c, s') && Evolves(c, s, s') && CandOk(c, s) && Crowns(c, s, s', i, q)
    ensures CandOk(c, s')
  {
    hide LogOk;
    forall e | e in s.hist.candLog ensures LogOk(true, s'.hist.leaderLog, s.hist.candLog[e], e.1) {
      LogOkGrows(true, s.hist.leaderLog, s'.hist.leaderLog, s.hist.candLog[e], e.1, e.1);
    }
    forall v | v in c.ids ensures CandNodeOk(s'.hist.candLog, v, s'.nodes[v]) {
      assert CandNodeOk(s.hist.candLog, v, s.nodes[v]);
    }
  }

  lemma CrownComp(c: Conf, s: Cluster, s': Cluster, i: Id, q: set<Id>)
    requires i in c.ids && Shape(c, s) && Shape(c, s') && VotesInv(c, s) && LogsInv(c, s) && CompInv(c, s) && Crowns(c, s, s', i, q)
    ensures CompInv(c, s') && Evolves(c, s, s')
  {
    hide VotesInv, LogsInv, CandOk, AckOk, Evolves, Kept;
    var ll, ll' := s.hist.leaderLog, s'.hist.leaderLog;
    var T := s.nodes[i].term;
    CrownEvolves(c, s, s', i, q);
    CrownCand(c, s, s', i, q);
    forall k: nat ensures !Own(ll', T, k) { NoOwnYet(c, s, s', i, q, k); }
    forall v, t: nat, k: nat | v in c.ids && Own(ll', t, k) && k <= Acked(s'.hist, v, t) ensures Kept(c, s', s'.nodes[v].log, t, k) {
      assert Own(ll, t, k);
      KeptStays(c, s, s', s.nodes[v].log, t, k);
    }
    forall b, t: nat, k: nat | b in s.hist.ballots && t < b.term && Own(ll', t, k) && k <= Acked(s'.hist, b.voter, t)
      ensures (b.candidate, b.term) in s.hist.candLog && Kept(c, s', s.hist.candLog[(b.candidate, b.term)], t, k)
    {
      assert Own(ll, t, k);
      KeptStays(c, s, s', s.hist.candLog[(b.candidate, b.term)], t, k);
    }
    forall t: nat, k: nat, u: nat | Own(ll', t, k) && u in ll' && t < u ensures Kept(c, s', ll'[u], t, k) {
      assert Own(ll, t, k);
      if u == T { WinnerHas(c, s, s', i, q, t, k); }
      KeptStays(c, s, s', ll'[u], t, k);
    }
  }

  lemma FinishShape(c: Conf, s: Cluster, a: Action)
    requires WellFormed(c) && Shape(c, s) && Enabled(c, s, a) && a.Finish? && VotesInv(c, s) && LogsInv(c, s)
    ensures var s' := Next(c, s, a);
      && Shape(c, s')
      && if s.nodes[a.i].role == Candidate && s'.nodes[a.i].role == Leader
         then Crowns(c, s, s', a.i, s.nodes[a.i].election.voters + {a.i})
         else Idle(c, s, s', a.i)
  {
    hide LogsInv, BallotsOk, WinsOk, NetVotes;
    NextShape(c, s, a);
    var n := s.nodes[a.i];
    assert NodeVotes(c, s.hist.ballots, s.hist.wins, a.i, n);
    if n.role == Candidate && Next(c, s, a).nodes[a.i].role == Leader {
      NewTerm(c, s, a);
      VotersSize(c, a.i, n.election.voters);
    }
  }

  lemma FinishComp(c: Conf, s: Cluster, a: Action)
    requires WellFormed(c) && Shape(c, s) && Enabled(c, s, a) && a.Finish? && VotesInv(c, s) && LogsInv(c, s) && CompInv(c, s)
    ensures Shape(c, Next(c, s, a)) && CompInv(c, Next(c, s, a)) && Evolves(c, s, Next(c, s, a))
  {
    hide VotesInv, LogsInv, CompInv, Next, Effect, Crowns, Idle, Evolves;
    FinishShape(c, s, a);
    var s' := Next(c, s, a);
    if s.nodes[a.i].role == Candidate && s'.nodes[a.i].role == Leader {
      CrownComp(c, s, s', a.i, s.nodes[a.i].election.voters + {a.i});
    } else {
      IdleComp(c, s, s', a.i);
    }
  }

  // ---- appending to the leader's log ----

  ghost predicate Appends(c: Conf, s: Cluster, s': Cluster, i: Id)
    requires Shape(c, s) && Shape(c, s') && i in c.ids
  {
    var h, h', n, n' := s.hist, s'.hist, s.nodes[i], s'.nodes[i];
    && n.role == Leader && n'.role == Leader && n'.term == n.term
    && |n'.log| == |n.log| + 1 && n.log <= n'.log
    && s'.nodes == s.nodes[i := n'] && s'.net == s.net
    && h'.ballots == h.ballots && h'.candLog == h.candLog && h'.wins == h.wins
    && h'.leaderLog == h.leaderLog[n.term := n'.log]
    && h'.acked == h.acked[(i, n.term) := |n'.log|]
  }

  lemma BallotBound(c: Conf, s: Cluster, b: Ballot)
    requires Shape(c, s) && VotesInv(c, s) && b in s.hist.ballots
    ensures b.voter in c.ids && b.term <= s.nodes[b.voter].term
  {
    assert NodeVotes(c, s.hist.ballots, s.hist.wins, b.voter, s.nodes[b.voter]);
  }

  /** Every leader's term was entered by a majority. */
  lemma LeaderQuorum(c: Conf, s: Cluster, u: nat) returns (q: set<Id>)
    requires Shape(c, s) && VotesInv(c, s) && LogsInv(c, s) && u in s.hist.leaderLog
    ensures Quorum(c, q) && forall v :: v in q ==> v in c.ids && s.nodes[v].term >= u
  {
    hide NetLogs, NetVotes;
    var l :| Win(u, l) in s.hist.wins;
    q := s.hist.wins[Win(u, l)];
    forall v | v in q ensures v in c.ids && s.nodes[v].term >= u {
      BallotBound(c, s, Ballot(v, u, l));
    }
  }

  lemma LeaderHas(c: Conf, s: Cluster, i: Id)
    requires Shape(c, s) && LogsInv(c, s) && i in c.ids && s.nodes[i].role == Leader
    ensures s.nodes[i].term in s.hist.leaderLog && s.hist.leaderLog[s.nodes[i].term] == s.nodes[i].log
  {
    hide LogOk, NetLogs, LeadersOk;
    assert NodeLogs(c, s.hist.leaderLog, i, s.nodes[i]);
  }

  lemma AppendsEvolves(c: Conf, s: Cluster, s': Cluster, i: Id)
    requires i in c.ids && Shape(c, s) && Shape(c, s') && LogsInv(c, s) && AckOk(c, s) && Appends(c, s, s', i)
    ensures Evolves(c, s, s') && AckOk(c, s')
    ensures s.nodes[i].term in s.hist.leaderLog && s.hist.leaderLog[s.nodes[i].term] == s.nodes[i].log
  {
    hide LogsInv, Own;
    LeaderHas(c, s, i);
    assert Acked(s.hist, i, s.nodes[i].term) <= |s.nodes[i].log|;
  }

  /** A majority voted a later leader in, so it has passed any position the old leader adds now. */
  lemma TooLate(c: Conf, s: Cluster, s': Cluster, i: Id, u: nat, k: nat)
    requires i in c.ids && Shape(c, s) && Shape(c, s') && VotesInv(c, s) && LogsInv(c, s) && AckOk(c, s)
    requires Appends(c, s, s', i) && u in s.hist.leaderLog && s.nodes[i].term < u && k > |s.nodes[i].log|
    ensures Blocked(c, s', s.nodes[i].term, k)
  {
    hide VotesInv, LogsInv, AckOk, Quorum;
    AppendsEvolves(c, s, s', i);
    hide Evolves;
    var q := LeaderQuorum(c, s, u);
    var T := s.nodes[i].term;
    forall v | v in q ensures s'.nodes[v].term > T && Acked(s'.hist, v, T) < k {
      if Acked(s.hist, v, T) > 0 { AckBound(c, s, v, T); }
    }
    assert Passed(c, s', q, T, k);
  }

  lemma AppendsCand(c: Conf, s: Cluster, s': Cluster, i: Id)
    requires i in c.ids && Shape(c, s) && Shape(c, s') && Evolves(c, s, s') && CandOk(c, s) && Appends(c, s, s', i)
    ensures CandOk(c, s')
  {
    hide LogOk;
    forall e | e in s.hist.candLog ensures LogOk(true, s'.hist.leaderLog, s.hist.candLog[e], e.1) {
      LogOkGrows(true, s.hist.leaderLog, s'.hist.leaderLog, s.hist.candLog[e], e.1, e.1);
    }
    forall v | v in c.ids ensures CandNodeOk(s'.hist.candLog, v, s'.nodes[v]) {
      assert CandNodeOk(s.hist.candLog, v, s.nodes[v]);
    }
  }

  /** A log that keeps an entry still keeps it when the log is extended. */
  lemma KeptLonger(c: Conf, s: Cluster, log: seq<Entry>, log': seq<Entry>, t: nat, k: nat)
    requires Shape(c, s) && Own(s.hist.leaderLog, t, k) && Kept(c, s, log, t, k) && log <= log'
    ensures Kept(c, s, log', t, k)
  {
  }

  lemma AppendsComp(c: Conf, s: Cluster, s': Cluster, i: Id)
    requires i in c.ids && Shape(c, s) && Shape(c, s') && VotesInv(c, s) && LogsInv(c, s) && CompInv(c, s) && Appends(c, s, s', i)
    ensures CompInv(c, s') && Evolves(c, s, s')
  {
    hide VotesInv, LogsInv, CandOk, AckOk, Evolves, Kept;
    var ll, ll' := s.hist.leaderLog, s'.hist.leaderLog;
    var T := s.nodes[i].term;
    AppendsEvolves(c, s, s', i);
    AppendsCand(c, s, s', i);
    forall v, t: nat, k: nat | v in c.ids && Own(ll', t, k) && k <= Acked(s'.hist, v, t) ensures Kept(c, s', s'.nodes[v].log, t, k) {
      if v == i && t == T {
        assert Matches(true, s'.nodes[v].log, ll'[t], k);
        KeptHere(c, s', s'.nodes[v].log, t, k);
      } else {
        AckBound(c, s, v, t);
        assert Own(ll, t, k);
        KeptStays(c, s, s', s.nodes[v].log, t, k);
        KeptLonger(c, s', s.nodes[v].log, s'.nodes[v].log, t, k);
      }
    }
    forall b, t: nat, k: nat | b in s.hist.ballots && t < b.term && Own(ll', t, k) && k <= Acked(s'.hist, b.voter, t)
      ensures (b.candidate, b.term) in s.hist.candLog && Kept(c, s', s.hist.candLog[(b.candidate, b.term)], t, k)
    {
      BallotBound(c, s, b);
      AckBound(c, s, b.voter, t);
      assert Own(ll, t, k);
      KeptStays(c, s, s', s.hist.candLog[(b.candidate, b.term)], t, k);
    }
    forall t: nat, k: nat, u: nat | Own(ll', t, k) && u in ll' && t < u ensures Kept(c, s', ll'[u], t, k) {
      if t == T && k > |s.nodes[i].log| {
        TooLate(c, s, s', i, u, k);
        KeptBlocked(c, s', ll'[u], t, k);
      } else {
        assert Own(ll, t, k);
        KeptStays(c, s, s', ll[u], t, k);
        KeptLonger(c, s', ll[u], ll'[u], t, k);
      }
    }
  }

  lemma KeptHere(c: Conf, s: Cluster, log: seq<Entry>, t: nat, k: nat)
    requires Shape(c, s) && Own(s.hist.leaderLog, t, k) && Matches(true, log, s.hist.leaderLog[t], k)
    ensures Kept(c, s, log, t, k)
  {
  }

  lemma KeptBlocked(c: Conf, s: Cluster, log: seq<Entry>, t: nat, k: nat)
    requires Shape(c, s) && Own(s.hist.leaderLog, t, k) && Blocked(c, s, t, k)
    ensures Kept(c, s, log, t, k)
  {
  }

  lemma AckBound(c: Conf, s: Cluster, v: Id, t: nat)
    requires Shape(c, s) && AckOk(c, s) && Acked(s.hist, v, t) > 0 && v in c.ids
    ensures t in s.hist.leaderLog && Acked(s.hist, v, t) <= |s.hist.leaderLog[t]| && t <= s.nodes[v].term
  {
  }

  lemma ProposeComp(c: Conf, s: Cluster, a: Action)
    requires WellFormed(c) && Shape(c, s) && Enabled(c, s, a) && a.ClientPropose? && VotesInv(c, s) && LogsInv(c, s) && CompInv(c, s) && c.mode.locked
    ensures Shape(c, Next(c, s, a)) && CompInv(c, Next(c, s, a)) && Evolves(c, s, Next(c, s, a))
  {
    hide VotesInv, LogsInv, CompInv, Evolves;
    NextShape(c, s, a);
    AppendsComp(c, s, Next(c, s, a), a.i);
  }

  // ---- storing what a leader ships ----

  /** Node i accepts or refuses an AppendEntries `a` of a term it has not passed. */
  ghost predicate Stores(c: Conf, s: Cluster, s': Cluster, i: Id, a: AppendArgs)
    requires Shape(c, s) && Shape(c, s') && i in c.ids
  {
    var h, h', n, n' := s.hist, s'.hist, s.nodes[i], s'.nodes[i];
    var r := HandleAppend(c.mode, n, a).1;
    && n.term <= a.term && n' == HandleAppend(c.mode, n, a).0 && n'.term == a.term && n'.role == Follower
    && s'.nodes == s.nodes[i := n'] && (forall m :: m in s'.net && m.VoteReq? ==> m in s.net)
    && h'.ballots == h.ballots && h'.candLog == h.candLog && h'.leaderLog == h.leaderLog
    && h'.acked == if r.success
                   then h.acked[(i, a.term) := MaxNat(Acked(h, i, a.term), a.prevIndex + |a.entries|)]
                   else h.acked
  }

  lemma StoresEvolves(c: Conf, s: Cluster, s': Cluster, i: Id, a: AppendArgs)
    requires i in c.ids && Shape(c, s) && Shape(c, s') && AckOk(c, s) && Stores(c, s, s', i, a)
    requires a.term in s.hist.leaderLog && Shipped(s.hist.leaderLog[a.term], a)
    ensures Evolves(c, s, s') && AckOk(c, s')
  {
    hide HandleAppend;
  }

  lemma StoresCand(c: Conf, s: Cluster, s': Cluster, i: Id, a: AppendArgs)
    requires i in c.ids && Shape(c, s) && Shape(c, s') && CandOk(c, s) && Stores(c, s, s', i, a)
    ensures CandOk(c, s')
  {
    hide HandleAppend, LogOk;
    forall v | v in c.ids ensures CandNodeOk(s'.hist.candLog, v, s'.nodes[v]) {
      assert CandNodeOk(s.hist.candLog, v, s.nodes[v]);
    }
  }

  /** Whatever the receiver kept of earlier leaders survives, and what it newly stores is the leader's log. */
  lemma StoresKept(c: Conf, s: Cluster, i: Id, a: AppendArgs, t: nat, k: nat)
    requires i in c.ids && Shape(c, s) && LogsInv(c, s) && CompInv(c, s) && c.mode == CONTRACT
    requires s.nodes[i].term <= a.term && ReqOk(c.mode, s.hist.leaderLog, s.hist.wins, i, a)
    requires Own(s.hist.leaderLog, t, k)
    requires k <= Acked(s.hist, i, t) || (t == a.term && k <= a.prevIndex + |a.entries| && HandleAppend(c.mode, s.nodes[i], a).1.success)
    ensures Kept(c, s, HandleAppend(c.mode, s.nodes[i], a).0.log, t, k)
  {
    hide HandleAppend, LogOk, CandOk, VoteOk, NetLogs, Blocked;
    var ll, n := s.hist.leaderLog, s.nodes[i];
    assert NodeLogs(c, ll, i, n);
    if k <= Acked(s.hist, i, t) {
      AckBound(c, s, i, t);
      assert Kept(c, s, n.log, t, k);
      if t < a.term { assert Kept(c, s, ll[a.term], t, k); }
      if Matches(true, n.log, ll[t], k) && Matches(true, ll[a.term], ll[t], k) {
        HandleAppendKeeps(c.mode, n, a, ll[a.term], ll[t], k);
      }
    } else {
      HandleAppendOk(c.mode, ll, s.hist.wins, i, n, a);
    }
  }

  lemma StoresComp(c: Conf, s: Cluster, s': Cluster, i: Id, a: AppendArgs)
    requires i in c.ids && Shape(c, s) && Shape(c, s') && VotesInv(c, s) && LogsInv(c, s) && CompInv(c, s) && c.mode == CONTRACT
    requires Stores(c, s, s', i, a) && ReqOk(c.mode, s.hist.leaderLog, s.hist.wins, i, a)
    ensures CompInv(c, s') && Evolves(c, s, s')
  {
    hide VotesInv, LogsInv, CandOk, AckOk, Evolves, Kept, HandleAppend;
    var ll := s.hist.leaderLog;
    StoresEvolves(c, s, s', i, a);
    StoresCand(c, s, s', i, a);
    forall v, t: nat, k: nat | v in c.ids && Own(ll, t, k) && k <= Acked(s'.hist, v, t) ensures Kept(c, s', s'.nodes[v].log, t, k) {
      if v == i { StoresKept(c, s, i, a, t, k); }
      KeptStays(c, s, s', s'.nodes[v].log, t, k);
    }
    forall b, t: nat, k: nat | b in s.hist.ballots && t < b.term && Own(ll, t, k) && k <= Acked(s'.hist, b.voter, t)
      ensures (b.candidate, b.term) in s.hist.candLog && Kept(c, s', s.hist.candLog[(b.candidate, b.term)], t, k)
    {
      BallotBound(c, s, b);
      KeptStays(c, s, s', s.hist.candLog[(b.candidate, b.term)], t, k);
    }
    forall t: nat, k: nat, u: nat | Own(ll, t, k) && u in ll && t < u ensures Kept(c, s', ll[u], t, k) {
      KeptStays(c, s, s', ll[u], t, k);
    }
  }

  lemma RecvAppendShape(c: Conf, s: Cluster, a: Action)
    requires WellFormed(c) && Shape(c, s) && Enabled(c, s, a) && a.RecvAppendReq?
    ensures var s' := Next(c, s, a);
      Shape(c, s') && if s.nodes[a.i].term <= a.m.aargs.term then Stores(c, s, s', a.i, a.m.aargs) else Idle(c, s, s', a.i)
  {
    NextShape(c, s, a);
  }

  lemma RecvAppendComp(c: Conf, s: Cluster, a: Action)
    requires WellFormed(c) && Shape(c, s) && Enabled(c, s, a) && a.RecvAppendReq? && VotesInv(c, s) && LogsInv(c, s) && CompInv(c, s)
    requires c.mode == CONTRACT
    ensures Shape(c, Next(c, s, a)) && CompInv(c, Next(c, s, a)) && Evolves(c, s, Next(c, s, a))
  {
    hide VotesInv, CompInv, Next, Effect, Stores, Idle, Evolves, LeadersOk, NodeLogs, ReqOk;
    RecvAppendShape(c, s, a);
    if s.nodes[a.i].term <= a.m.aargs.term {
      StoresComp(c, s, Next(c, s, a), a.i, a.m.aargs);
    } else {
      IdleComp(c, s, Next(c, s, a), a.i);
    }
  }

  predicate IdleAction(a: Action) {
    a.RecvVoteResp? || a.SendAppend? || a.RecvAppendResp? || a.Apply? || a.Crash?
  }

  lemma IdleShape(c: Conf, s: Cluster, a: Action)
    requires WellFormed(c) && Shape(c, s) && Enabled(c, s, a) && IdleAction(a)
    ensures Shape(c, Next(c, s, a)) && Idle(c, s, Next(c, s, a), a.i)
  {
    hide MatchValues, MakeAppend, FreshPeers, Without;
    NextShape(c, s, a);
    if a.RecvAppendResp? { ReplyIdles(c, a.i, s.nodes[a.i], a.m.peer, a.m.request, a.m.areply); }
    hide OnAppendReply;
  }

  lemma ReplyIdles(c: Conf, i: Id, n: Node, peer: Id, a: AppendArgs, r: AppendReply)
    requires NodeShape(c, i, n) && peer in c.ids && peer != i
    ensures var n' := OnAppendReply(c.mode, CfgOf(c, i), n, peer, a, r);
      n'.log == n.log && n'.term >= n.term && (n'.role == Candidate ==> n.role == Candidate && n'.term == n.term)
  {
    hide MatchValues;
  }

  lemma CompStep(c: Conf, s: Cluster, a: Action)
    requires WellFormed(c) && Shape(c, s) && Enabled(c, s, a) && VotesInv(c, s) && LogsInv(c, s) && CompInv(c, s)
    requires c.mode == CONTRACT
    ensures Shape(c, Next(c, s, a)) && CompInv(c, Next(c, s, a)) && Evolves(c, s, Next(c, s, a))
  {
    hide VotesInv, LogsInv, CompInv, Next, Effect, Idle, Evolves, Enabled;
    NeverTorn(c, s, a);
    if a.Start? { StartComp(c, s, a); }
    else if a.RecvVoteReq? { VoteComp(c, s, a); }
    else if a.Finish? { FinishComp(c, s, a); }
    else if a.ClientPropose? { ProposeComp(c, s, a); }
    else if a.RecvAppendReq? { RecvAppendComp(c, s, a); }
    else {
      IdleShape(c, s, a);
      IdleComp(c, s, Next(c, s, a), a.i);
    }
  }

  lemma InitComp(c: Conf)
    ensures CompInv(c, Init(c))
  {
  }

  lemma {:induction false} CompReachable(c: Conf, acts: seq<Action>)
    requires WellFormed(c) && Run(c, acts).At? && c.mode == CONTRACT
    ensures VotesInv(c, Run(c, acts).state) && LogsInv(c, Run(c, acts).state) && CompInv(c, Run(c, acts).state)
  {
    hide Next, Effect, VotesInv, LogsInv, CompInv, Evolves, Enabled;
    LogsReachable(c, acts);
    if acts == [] {
      InitComp(c);
    } else {
      var prev := acts[..|acts| - 1];
      CompReachable(c, prev);
      CompStep(c, Run(c, prev).state, acts[|acts| - 1]);
    }
  }

  /**
    Leader Completeness: once a majority has stored the log of the leader of term t up to an entry
    of its own term, every later leader's log contains that entry and everything below it.
   */
  lemma LeaderCompleteness(c: Conf, acts: seq<Action>, t: nat, k: nat, u: nat)
    requires WellFormed(c) && Run(c, acts).At? && c.mode == CONTRACT
    requires Chosen(c, Run(c, acts).state.hist, t, k) && u in Run(c, acts).state.hist.leaderLog && t < u
    ensures var ll := Run(c, acts).state.hist.leaderLog;
      k <= |ll[t]| && ll[t][..k] <= ll[u]
  {
    hide Run, VotesInv, LogsInv, Next;
    CompReachable(c, acts);
    var s := Run(c, acts).state;
    ChosenNotBlocked(c, s, t, k);
    assert Kept(c, s, s.hist.leaderLog[u], t, k);
    assert s.hist.leaderLog[t][..k] == s.hist.leaderLog[u][..k];
  }
}
