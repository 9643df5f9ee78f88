/**
  Log Matching. Every entry of term t, in any log, sits on top of exactly the commands the leader
  of term t has below it. As written followers re-stamp terms, so entries are compared by command;
  when entries keep their own term they are compared whole.
 */
module RaftLogs {
  import opened RaftRules
  import opened RaftCluster
  import opened RaftElection

  type Logs = map<nat, seq<Entry>>

  predicate Same(wire: bool, a: Entry, b: Entry) {
    a.cmd == b.cmd && (wire ==> a.term == b.term)
  }

  predicate Matches(wire: bool, a: seq<Entry>, b: seq<Entry>, k: nat) {
    k <= |a| && k <= |b| && forall j :: 0 <= j < k ==> Same(wire, a[j], b[j])
  }

  predicate EntryOk(wire: bool, ll: Logs, log: seq<Entry>, i: nat, bound: nat)
    requires i < |log|
  {
    var t := log[i].term;
    1 <= t <= bound && t in ll && Matches(wire, log, ll[t], i + 1)
  }

  ghost predicate LogOk(wire: bool, ll: Logs, log: seq<Entry>, bound: nat) {
    Sorted(log) && forall i :: 0 <= i < |log| ==> EntryOk(wire, ll, log, i, bound)
  }

  ghost predicate Grows(ll: Logs, ll': Logs) {
    forall t :: t in ll ==> t in ll' && ll[t] <= ll'[t]
  }

  lemma LogOkGrows(wire: bool, ll: Logs, ll': Logs, log: seq<Entry>, bound: nat, bound': nat)
    requires LogOk(wire, ll, log, bound) && Grows(ll, ll') && bound <= bound'
    ensures LogOk(wire, ll', log, bound')
  {
    forall i | 0 <= i < |log| ensures EntryOk(wire, ll', log, i, bound') {
      assert EntryOk(wire, ll, log, i, bound);
    }
  }

  lemma LogOkPrefix(wire: bool, ll: Logs, log: seq<Entry>, bound: nat, k: nat)
    requires LogOk(wire, ll, log, bound) && k <= |log|
    ensures LogOk(wire, ll, log[..k], bound)
  {
    forall i | 0 <= i < k ensures EntryOk(wire, ll, log[..k], i, bound) {
      assert EntryOk(wire, ll, log, i, bound);
    }
  }

  // ---- the effect of an accepted AppendEntries ----

  /** `ents` is what the receiver stores for the part of the leader's log `l` after `at`. */
  ghost predicate Stamped(wire: bool, t: nat, l: seq<Entry>, at: nat, ents: seq<Entry>) {
    at + |ents| <= |l| &&
    forall j :: 0 <= j < |ents| ==> ents[j] == if wire then l[at + j] else Entry(t, l[at + j].cmd)
  }

  lemma {:induction false} MergeOk(wire: bool, ll: Logs, log: seq<Entry>, bound: nat, t: nat, at: nat, ents: seq<Entry>)
    requires LogOk(wire, ll, log, bound) && bound <= t && t >= 1 && t in ll && LogOk(wire, ll, ll[t], t)
    requires Matches(wire, log, ll[t], at) && Stamped(wire, t, ll[t], at, ents)
    ensures LogOk(wire, ll, Merge(log, at, ents), t)
    ensures Matches(wire, Merge(log, at, ents), ll[t], at + |ents|)
    decreases |ents|
  {
    if ents == [] {
      LogOkGrows(wire, ll, ll, log, bound, t);
    } else if at < |log| && log[at].term == ents[0].term {
      assert EntryOk(wire, ll, log, at, bound) && EntryOk(wire, ll, ll[t], at, t);
      MergeOk(wire, ll, log, bound, t, at + 1, ents[1..]);
    } else {
      ReplaceOk(wire, ll, log, bound, t, at, ents);
    }
  }

  lemma EntryMoves(wire: bool, ll: Logs, log: seq<Entry>, r: seq<Entry>, i: nat, bound: nat, t: nat)
    requires i < |log| && i < |r| && EntryOk(wire, ll, log, i, bound) && bound <= t && log[..i + 1] == r[..i + 1]
    ensures EntryOk(wire, ll, r, i, t)
  {
    assert forall j :: 0 <= j <= i ==> log[..i + 1][j] == log[j] && r[..i + 1][j] == r[j];
  }

  /** A stamped entry sits on the leader's log, or, with its own term, on that of its term's leader. */
  lemma StampedOk(wire: bool, ll: Logs, r: seq<Entry>, i: nat, t: nat)
    requires t >= 1 && t in ll && i < |r| && Matches(wire, r, ll[t], i + 1) && EntryOk(wire, ll, ll[t], i, t)
    requires r[i].term == if wire then ll[t][i].term else t
    ensures EntryOk(wire, ll, r, i, t)
  {
  }

  lemma ReplaceOk(wire: bool, ll: Logs, log: seq<Entry>, bound: nat, t: nat, at: nat, ents: seq<Entry>)
    requires LogOk(wire, ll, log, bound) && bound <= t && t >= 1 && t in ll && LogOk(wire, ll, ll[t], t)
    requires Matches(wire, log, ll[t], at) && Stamped(wire, t, ll[t], at, ents)
    ensures LogOk(wire, ll, log[..at] + ents, t)
    ensures Matches(wire, log[..at] + ents, ll[t], at + |ents|)
  {
    var r := log[..at] + ents;
    ReplaceMatches(wire, log, t, ll[t], at, ents);
    forall i | 0 <= i < |r| ensures EntryOk(wire, ll, r, i, t) {
      hide EntryOk, LogOk;
      if i < at {
        EntryIsOk(wire, ll, log, i, bound);
        assert log[..i + 1] == r[..i + 1];
        EntryMoves(wire, ll, log, r, i, bound, t);
      } else {
        EntryIsOk(wire, ll, ll[t], i, t);
        StampedOk(wire, ll, r, i, t);
      }
    }
    ReplaceTerms(wire, ll, log, bound, t, at, ents);
  }

  lemma ReplaceMatches(wire: bool, log: seq<Entry>, t: nat, l: seq<Entry>, at: nat, ents: seq<Entry>)
    requires Matches(wire, log, l, at) && Stamped(wire, t, l, at, ents)
    ensures Matches(wire, log[..at] + ents, l, at + |ents|)
    ensures forall i :: at <= i < at + |ents| ==> (log[..at] + ents)[i].term == if wire then l[i].term else t
  {
    forall i | at <= i < at + |ents|
      ensures (log[..at] + ents)[i].term == (if wire then l[i].term else t) && Same(wire, (log[..at] + ents)[i], l[i])
    {
      assert (log[..at] + ents)[i] == ents[i - at];
      assert l[at + (i - at)] == l[i];
    }
  }

  lemma EntryIsOk(wire: bool, ll: Logs, log: seq<Entry>, i: nat, bound: nat)
    requires LogOk(wire, ll, log, bound) && i < |log|
    ensures EntryOk(wire, ll, log, i, bound)
  {
  }

  lemma EntryBound(wire: bool, ll: Logs, log: seq<Entry>, i: nat, bound: nat)
    requires LogOk(wire, ll, log, bound) && i < |log|
    ensures log[i].term <= bound
  {
    assert EntryOk(wire, ll, log, i, bound);
  }

  lemma ReplaceTerms(wire: bool, ll: Logs, log: seq<Entry>, bound: nat, t: nat, at: nat, ents: seq<Entry>)
    requires LogOk(wire, ll, log, bound) && bound <= t && t in ll && LogOk(wire, ll, ll[t], t)
    requires Matches(wire, log, ll[t], at) && Stamped(wire, t, ll[t], at, ents)
    ensures Sorted(log[..at] + ents)
  {
    hide EntryOk;
    var r := log[..at] + ents;
    forall i | 0 <= i < at ensures r[i].term <= t {
      EntryBound(wire, ll, log, i, bound);
    }
    forall i, j | 0 <= i <= j < |r| ensures r[i].term <= r[j].term {
      if j < at {
        assert log[i].term <= log[j].term;
      } else if i >= at {
        assert ll[t][i].term <= ll[t][j].term;
      } else if wire {
        assert Same(wire, log[i], ll[t][i]) && ll[t][i].term <= ll[t][j].term;
      }
    }
  }

  /** What the leader shipped: a slice of its log together with the term just before it. */
  predicate Shipped(l: seq<Entry>, a: AppendArgs) {
    && a.prevIndex + |a.entries| <= |l|
    && a.entries == l[a.prevIndex..a.prevIndex + |a.entries|]
    && a.prevTerm == TermAt(l, a.prevIndex)
  }

  lemma ShippedGrows(l: seq<Entry>, l': seq<Entry>, a: AppendArgs)
    requires Shipped(l, a) && l <= l'
    ensures Shipped(l', a)
  {
    assert l'[a.prevIndex..a.prevIndex + |a.entries|] == l[a.prevIndex..a.prevIndex + |a.entries|];
  }

  /** An AppendEntries of term a.term: part of that leader's log, or (stale indices only) unacceptable. */
  ghost predicate ReqOk(mode: Mode, ll: Logs, ws: map<Win, set<Id>>, dest: Id, a: AppendArgs) {
    && a.term >= 1 && a.term in ll && Win(a.term, a.leader) in ws && a.leader != dest
    && (Shipped(ll[a.term], a) || (!mode.dropStale && a.prevIndex > 0 && a.prevTerm == 0))
  }

  lemma StampStamps(wire: bool, l: seq<Entry>, a: AppendArgs)
    requires Shipped(l, a)
    ensures Stamped(wire, a.term, l, a.prevIndex, Stamp(wire, a.term, a.entries))
  {
    forall j | 0 <= j < |a.entries| ensures a.entries[j] == l[a.prevIndex + j] {}
  }

  /** The consistency check passes only where the logs agree. */
  lemma HandleAppendOk(mode: Mode, ll: Logs, ws: map<Win, set<Id>>, dest: Id, n: Node, a: AppendArgs)
    requires LogOk(mode.wire, ll, n.log, n.term) && ReqOk(mode, ll, ws, dest, a) && LogOk(mode.wire, ll, ll[a.term], a.term)
    ensures var (n', r) := HandleAppend(mode, n, a);
      && LogOk(mode.wire, ll, n'.log, n'.term)
      && (r.success ==> Shipped(ll[a.term], a) && Matches(mode.wire, n'.log, ll[a.term], a.prevIndex + |a.entries|))
  {
    hide Merge, Stamp, LogOk, Sorted;
    var (n', r) := HandleAppend(mode, n, a);
    if a.term < n.term {
    } else if a.prevIndex > |n.log| {
      LogOkGrows(mode.wire, ll, ll, n.log, n.term, a.term);
    } else if a.prevIndex > 0 && TermAt(n.log, a.prevIndex) != a.prevTerm {
      LogOkPrefix(mode.wire, ll, n.log, n.term, a.prevIndex - 1);
      LogOkGrows(mode.wire, ll, ll, n'.log, n.term, a.term);
    } else {
      if a.prevIndex > 0 {
        EntryIsOk(mode.wire, ll, n.log, a.prevIndex - 1, n.term);
        assert Shipped(ll[a.term], a);
        EntryIsOk(mode.wire, ll, ll[a.term], a.prevIndex - 1, a.term);
      }
      assert Matches(mode.wire, n.log, ll[a.term], a.prevIndex);
      StampStamps(mode.wire, ll[a.term], a);
      MergeOk(mode.wire, ll, n.log, n.term, a.term, a.prevIndex, Stamp(mode.wire, a.term, a.entries));
    }
  }

  /** The commit index changes only on success, and then to the leader's or to the end of the log. */
  lemma HandleAppendCommit(mode: Mode, n: Node, a: AppendArgs)
    ensures var (n', r) := HandleAppend(mode, n, a);
      && n'.applied == n.applied && n'.delivered == n.delivered
      && (n'.commit == n.commit ||
            (r.success && a.leaderCommit > n.commit &&
             n'.commit == if a.leaderCommit < |n'.log| then a.leaderCommit else |n'.log|))
  {
  }

  // ---- the invariant ----

  ghost predicate NodeLogs(c: Conf, ll: Logs, v: Id, n: Node)
    requires NodeShape(c, v, n)
  {
    && LogOk(c.mode.wire, ll, n.log, n.term)
    && (n.role == Leader ==> n.term in ll && ll[n.term] == n.log)
    && (n.role == Leader && c.mode.dropStale ==> forall p :: p in c.ids && p != v ==> n.peers[p].next <= |n.log| + 1)
  }

  ghost predicate LeadersOk(c: Conf, ll: Logs, ws: map<Win, set<Id>>) {
    && (forall t :: t in ll ==> LogOk(c.mode.wire, ll, ll[t], t))
    && (forall t :: t in ll ==> exists l :: Win(t, l) in ws)
    && (forall w :: w in ws ==> w.term in ll)
  }

  ghost predicate NetLogs(c: Conf, ll: Logs, ws: map<Win, set<Id>>, net: set<Msg>) {
    && (forall m :: m in net && m.AppendReq? ==> ReqOk(c.mode, ll, ws, m.dest, m.aargs))
    && (forall m :: m in net && m.AppendResp? && m.areply.success ==>
          ReqOk(c.mode, ll, ws, m.peer, m.request) && Shipped(ll[m.request.term], m.request))
  }

  ghost predicate LogsInv(c: Conf, s: Cluster)
    requires Shape(c, s)
  {
    && (forall v :: v in c.ids ==> NodeLogs(c, s.hist.leaderLog, v, s.nodes[v]))
    && LeadersOk(c, s.hist.leaderLog, s.hist.wins)
    && NetLogs(c, s.hist.leaderLog, s.hist.wins, s.net)
  }

  lemma NetLogsGrow(c: Conf, ll: Logs, ll': Logs, ws: map<Win, set<Id>>, ws': map<Win, set<Id>>, net: set<Msg>)
    requires NetLogs(c, ll, ws, net) && Grows(ll, ll') && ws.Keys <= ws'.Keys
    ensures NetLogs(c, ll', ws', net)
  {
    forall m | m in net && m.AppendReq? ensures ReqOk(c.mode, ll', ws', m.dest, m.aargs) {
      if Shipped(ll[m.aargs.term], m.aargs) { ShippedGrows(ll[m.aargs.term], ll'[m.aargs.term], m.aargs); }
    }
    forall m | m in net && m.AppendResp? && m.areply.success
      ensures ReqOk(c.mode, ll', ws', m.peer, m.request) && Shipped(ll'[m.request.term], m.request)
    {
      ShippedGrows(ll[m.request.term], ll'[m.request.term], m.request);
    }
  }

  /** Node i changes, the leader logs grow; the rest follows. */
  lemma LogsFrame(c: Conf, s: Cluster, i: Id, n': Node, sent: set<Msg>, h': History)
    requires Shape(c, s) && LogsInv(c, s) && i in c.ids && NodeShape(c, i, n')
    requires Grows(s.hist.leaderLog, h'.leaderLog) && s.hist.wins.Keys <= h'.wins.Keys
    requires LeadersOk(c, h'.leaderLog, h'.wins)
    requires forall v :: v in c.ids && v != i && s.nodes[v].role == Leader ==>
      s.nodes[v].term in h'.leaderLog && h'.leaderLog[s.nodes[v].term] == s.nodes[v].log
    requires NodeLogs(c, h'.leaderLog, i, n') && NetLogs(c, h'.leaderLog, h'.wins, sent)
    ensures Shape(c, Cluster(s.nodes[i := n'], s.net + sent, h'))
    ensures LogsInv(c, Cluster(s.nodes[i := n'], s.net + sent, h'))
  {
    var ll, ll' := s.hist.leaderLog, h'.leaderLog;
    var s' := Cluster(s.nodes[i := n'], s.net + sent, h');
    forall v | v in c.ids ensures NodeLogs(c, ll', v, s'.nodes[v]) {
      if v != i {
        assert NodeLogs(c, ll, v, s.nodes[v]);
        LogOkGrows(c.mode.wire, ll, ll', s.nodes[v].log, s.nodes[v].term, s.nodes[v].term);
      }
    }
    NetLogsGrow(c, ll, ll', s.hist.wins, h'.wins, s.net);
  }

  // ---- every action keeps it ----

  /** The node keeps its log and does not gain leadership. */
  lemma KeepLogs(c: Conf, ll: Logs, v: Id, n: Node, n': Node)
    requires NodeShape(c, v, n) && NodeShape(c, v, n') && NodeLogs(c, ll, v, n)
    requires n'.log == n.log && n'.term >= n.term
    requires n'.role == Leader ==> n.role == Leader && n'.term == n.term && n'.peers == n.peers
    ensures NodeLogs(c, ll, v, n')
  {
    LogOkGrows(c.mode.wire, ll, ll, n.log, n.term, n'.term);
  }

  predicate SameLogs(a: Action) {
    a.Start? || a.RecvVoteReq? || a.RecvVoteResp? || a.Apply? || a.Crash?
  }

  lemma SameLogsEffect(c: Conf, s: Cluster, a: Action)
    requires Shape(c, s) && Enabled(c, s, a) && SameLogs(a)
    ensures var (n', sent, h') := Effect(c, s, a);
      && h'.leaderLog == s.hist.leaderLog && h'.wins == s.hist.wins
      && (forall m :: m in sent ==> m.VoteReq? || m.VoteResp?)
      && n'.log == s.nodes[a.i].log && n'.term >= s.nodes[a.i].term
      && (n'.role == Leader ==> s.nodes[a.i].role == Leader && n'.term == s.nodes[a.i].term && n'.peers == s.nodes[a.i].peers)
  {
  }

  lemma SameLogsStep(c: Conf, s: Cluster, a: Action)
    requires Shape(c, s) && Enabled(c, s, a) && SameLogs(a) && LogsInv(c, s)
    ensures Shape(c, Next(c, s, a)) && LogsInv(c, Next(c, s, a))
  {
    NextShape(c, s, a);
    SameLogsEffect(c, s, a);
    var (n', sent, h') := Effect(c, s, a);
    assert NodeShape(c, a.i, Next(c, s, a).nodes[a.i]);
    KeepLogs(c, s.hist.leaderLog, a.i, s.nodes[a.i], n');
    LogsFrame(c, s, a.i, n', sent, h');
  }

  /** A winner's term has no leader log yet: by Election Safety nobody else won it. */
  lemma NewTerm(c: Conf, s: Cluster, a: Action)
    requires WellFormed(c) && Shape(c, s) && Enabled(c, s, a) && a.Finish? && VotesInv(c, s) && LogsInv(c, s)
    requires s.nodes[a.i].role == Candidate && Effect(c, s, a).0.role == Leader
    ensures s.nodes[a.i].term !in s.hist.leaderLog && s.nodes[a.i].term >= 1
  {
    var t := s.nodes[a.i].term;
    FinishVotes(c, s, a);
    var s' := Next(c, s, a);
    assert NodeVotes(c, s.hist.ballots, s.hist.wins, a.i, s.nodes[a.i]);
    if t in s.hist.leaderLog {
      var l :| Win(t, l) in s.hist.wins;
      OneWinner(c, s'.hist, Win(t, l), Win(t, a.i));
    }
    assert Ballot(a.i, t, a.i) in s.hist.ballots;
  }

  lemma NewLeadersOk(c: Conf, ll: Logs, ws: map<Win, set<Id>>, i: Id, n: Node, q: set<Id>)
    requires LeadersOk(c, ll, ws) && n.term !in ll && LogOk(c.mode.wire, ll, n.log, n.term)
    ensures LeadersOk(c, ll[n.term := n.log], ws[Win(n.term, i) := q]) && Grows(ll, ll[n.term := n.log])
    ensures LogOk(c.mode.wire, ll[n.term := n.log], n.log, n.term)
  {
    var ll', ws' := ll[n.term := n.log], ws[Win(n.term, i) := q];
    forall t | t in ll' ensures LogOk(c.mode.wire, ll', ll'[t], t) {
      LogOkGrows(c.mode.wire, ll, ll', ll'[t], t, t);
    }
    forall t | t in ll' ensures exists l :: Win(t, l) in ws' {
      if t in ll {
        var l :| Win(t, l) in ws;
        assert Win(t, l) in ws';
      } else {
        assert Win(t, i) in ws';
      }
    }
  }

  lemma FinishLogs(c: Conf, s: Cluster, a: Action)
    requires WellFormed(c) && Shape(c, s) && Enabled(c, s, a) && a.Finish? && VotesInv(c, s) && LogsInv(c, s)
    ensures Shape(c, Next(c, s, a)) && LogsInv(c, Next(c, s, a))
  {
    hide VotesInv, LeadersOk, LogOk;
    NextShape(c, s, a);
    var n := s.nodes[a.i];
    var (n', sent, h') := Effect(c, s, a);
    var ll := s.hist.leaderLog;
    assert NodeShape(c, a.i, Next(c, s, a).nodes[a.i]) && NodeLogs(c, ll, a.i, n);
    if n.role == Candidate && n'.role == Leader {
      NewTerm(c, s, a);
      NewLeadersOk(c, ll, s.hist.wins, a.i, n, n.election.voters + {a.i});
    } else {
      KeepLogs(c, ll, a.i, n, n');
    }
    LogsFrame(c, s, a.i, n', sent, h');
  }

  /** A leader's append extends the one log of its term. */
  lemma ProposeLeadersOk(c: Conf, ll: Logs, ws: map<Win, set<Id>>, n: Node, cmd: Cmd)
    requires LeadersOk(c, ll, ws) && n.term in ll && ll[n.term] == n.log && n.term >= 1
    ensures var ll' := ll[n.term := Propose(n, cmd).log];
      LeadersOk(c, ll', ws) && Grows(ll, ll') && LogOk(c.mode.wire, ll', Propose(n, cmd).log, n.term)
  {
    var log' := Propose(n, cmd).log;
    var ll' := ll[n.term := log'];
    assert LogOk(c.mode.wire, ll, n.log, n.term);
    LogOkGrows(c.mode.wire, ll, ll', n.log, n.term, n.term);
    forall i | 0 <= i < |log'| ensures EntryOk(c.mode.wire, ll', log', i, n.term) {
      if i < |n.log| { assert EntryOk(c.mode.wire, ll', n.log, i, n.term); }
    }
    forall i, j | 0 <= i <= j < |log'| ensures log'[i].term <= log'[j].term {
      if i < |n.log| { assert EntryOk(c.mode.wire, ll, n.log, i, n.term); }
    }
    forall t | t in ll' ensures LogOk(c.mode.wire, ll', ll'[t], t) {
      if t != n.term { LogOkGrows(c.mode.wire, ll, ll', ll[t], t, t); }
    }
  }

  lemma OtherLeaders(c: Conf, s: Cluster, i: Id, v: Id)
    requires Shape(c, s) && VotesInv(c, s) && i in c.ids && v in c.ids && v != i
    requires s.nodes[i].role == Leader && s.nodes[v].role == Leader
    ensures s.nodes[v].term != s.nodes[i].term
  {
    LeaderWon(c, s, i);
    LeaderWon(c, s, v);
    if s.nodes[v].term == s.nodes[i].term {
      OneWinner(c, s.hist, Win(s.nodes[v].term, v), Win(s.nodes[i].term, i));
    }
  }

  lemma ProposeLogs(c: Conf, s: Cluster, a: Action)
    requires WellFormed(c) && Shape(c, s) && Enabled(c, s, a) && a.ClientPropose? && VotesInv(c, s) && LogsInv(c, s) && c.mode.locked
    ensures Shape(c, Next(c, s, a)) && LogsInv(c, Next(c, s, a))
  {
    hide LeadersOk, LogOk, VotesInv;
    NextShape(c, s, a);
    var n := s.nodes[a.i];
    var (n', sent, h') := Effect(c, s, a);
    var ll := s.hist.leaderLog;
    assert NodeShape(c, a.i, Next(c, s, a).nodes[a.i]) && NodeLogs(c, ll, a.i, n);
    LeaderWon(c, s, a.i);
    ProposeLeadersOk(c, ll, s.hist.wins, n, a.cmd);
    forall v | v in c.ids && v != a.i && s.nodes[v].role == Leader
      ensures s.nodes[v].term in h'.leaderLog && h'.leaderLog[s.nodes[v].term] == s.nodes[v].log
    {
      assert NodeLogs(c, ll, v, s.nodes[v]);
      OtherLeaders(c, s, a.i, v);
    }
    LogsFrame(c, s, a.i, n', sent, h');
  }

  lemma LeaderWon(c: Conf, s: Cluster, i: Id)
    requires Shape(c, s) && VotesInv(c, s) && i in c.ids && s.nodes[i].role == Leader
    ensures Win(s.nodes[i].term, i) in s.hist.wins && s.nodes[i].term >= 1
  {
    assert NodeVotes(c, s.hist.ballots, s.hist.wins, i, s.nodes[i]);
    assert Ballot(i, s.nodes[i].term, i) in s.hist.ballots;
  }

  lemma SentOk(c: Conf, ll: Logs, ws: map<Win, set<Id>>, i: Id, n: Node, peer: Id)
    requires NodeShape(c, i, n) && NodeLogs(c, ll, i, n) && n.role == Leader && n.term >= 1
    requires Win(n.term, i) in ws && peer in c.ids && peer != i
    ensures ReqOk(c.mode, ll, ws, peer, MakeAppend(CfgOf(c, i), n, peer))
  {
  }

  lemma SendLogs(c: Conf, s: Cluster, a: Action)
    requires WellFormed(c) && Shape(c, s) && Enabled(c, s, a) && a.SendAppend? && VotesInv(c, s) && LogsInv(c, s) && c.mode.locked
    ensures Shape(c, Next(c, s, a)) && LogsInv(c, Next(c, s, a))
  {
    hide LogOk, BallotsOk, WinsOk, LeadersOk, NetVotes, ReqOk, MakeAppend, Without;
    NextShape(c, s, a);
    LeaderWon(c, s, a.i);
    hide VotesInv;
    var n := s.nodes[a.i];
    var (n', sent, h') := Effect(c, s, a);
    assert NodeShape(c, a.i, n) && NodeLogs(c, s.hist.leaderLog, a.i, n);
    SentOk(c, s.hist.leaderLog, s.hist.wins, a.i, n, a.peer);
    LogsFrame(c, s, a.i, n', sent, h');
  }

  lemma RecvAppendLogs(c: Conf, s: Cluster, a: Action)
    requires WellFormed(c) && Shape(c, s) && Enabled(c, s, a) && a.RecvAppendReq? && LogsInv(c, s)
    ensures Shape(c, Next(c, s, a)) && LogsInv(c, Next(c, s, a))
  {
    NextShape(c, s, a);
    var n := s.nodes[a.i];
    var ll := s.hist.leaderLog;
    var (n', sent, h') := Effect(c, s, a);
    assert NodeShape(c, a.i, Next(c, s, a).nodes[a.i]) && NodeLogs(c, ll, a.i, n);
    HandleAppendOk(c.mode, ll, s.hist.wins, a.i, n, a.m.aargs);
    LogsFrame(c, s, a.i, n', sent, h');
  }

  /** A log cut short is still in order, and every entry in it still lies on its leader's log. */
  lemma TornLogs(c: Conf, s: Cluster, a: Action)
    requires WellFormed(c) && Shape(c, s) && Enabled(c, s, a) && a.TornCut? && LogsInv(c, s)
    ensures Shape(c, Next(c, s, a)) && LogsInv(c, Next(c, s, a))
  {
    hide LogOk, NetLogs, LeadersOk, Cuts;
    NextShape(c, s, a);
    var n, ll := s.nodes[a.i], s.hist.leaderLog;
    var (n', sent, h') := Effect(c, s, a);
    assert NodeShape(c, a.i, Next(c, s, a).nodes[a.i]) && NodeLogs(c, ll, a.i, n);
    LogOkPrefix(c.mode.wire, ll, n.log, n.term, a.left);
    LogOkGrows(c.mode.wire, ll, ll, n.log[..a.left], n.term, n'.term);
    OtherLeadersSame(c, s);
    EmptyNetLogs(c, ll, s.hist.wins);
    LogsFrame(c, s, a.i, n', sent, h');
  }

  lemma RecvReplyLogs(c: Conf, s: Cluster, a: Action)
    requires WellFormed(c) && Shape(c, s) && Enabled(c, s, a) && a.RecvAppendResp? && LogsInv(c, s)
    ensures Shape(c, Next(c, s, a)) && LogsInv(c, Next(c, s, a))
  {
    hide LogOk, NodeLogs, LeadersOk, NetLogs, OnAppendReply, NodeShape;
    NextShape(c, s, a);
    var n := s.nodes[a.i];
    var (n', sent, h') := Effect(c, s, a);
    assert NodeShape(c, a.i, Next(c, s, a).nodes[a.i]) && NodeLogs(c, s.hist.leaderLog, a.i, n);
    AckWithinLog(c, s, a.i, a.m);
    ReplyLogs(c, s.hist.leaderLog, a.i, n, a.m.peer, a.m.request, a.m.areply);
    OtherLeadersSame(c, s);
    EmptyNetLogs(c, s.hist.leaderLog, s.hist.wins);
    LogsFrame(c, s, a.i, n', sent, h');
  }

  lemma ReplyLogs(c: Conf, ll: Logs, i: Id, n: Node, peer: Id, a: AppendArgs, r: AppendReply)
    requires NodeShape(c, i, n) && NodeLogs(c, ll, i, n) && peer in c.ids && peer != i
    requires r.success && n.role == Leader && n.term == a.term ==> a.prevIndex + |a.entries| <= |n.log|
    ensures NodeShape(c, i, OnAppendReply(c.mode, CfgOf(c, i), n, peer, a, r))
    ensures NodeLogs(c, ll, i, OnAppendReply(c.mode, CfgOf(c, i), n, peer, a, r))
  {
    hide MatchValues, LogOk;
    ReplyKeepsPeers(c, i, n, peer, a, r);
    LogOkGrows(c.mode.wire, ll, ll, n.log, n.term, OnAppendReply(c.mode, CfgOf(c, i), n, peer, a, r).term);
  }

  /** What a follower acknowledged to a current leader lies within that leader's log. */
  lemma AckWithinLog(c: Conf, s: Cluster, i: Id, m: Msg)
    requires Shape(c, s) && LogsInv(c, s) && i in c.ids && m in s.net && m.AppendResp?
    ensures m.areply.success && s.nodes[i].role == Leader && s.nodes[i].term == m.request.term ==>
      m.request.prevIndex + |m.request.entries| <= |s.nodes[i].log|
  {
    hide LogOk, LeadersOk;
    assert NodeLogs(c, s.hist.leaderLog, i, s.nodes[i]);
  }

  lemma OtherLeadersSame(c: Conf, s: Cluster)
    requires Shape(c, s) && LogsInv(c, s)
    ensures forall v :: v in c.ids && s.nodes[v].role == Leader ==>
      s.nodes[v].term in s.hist.leaderLog && s.hist.leaderLog[s.nodes[v].term] == s.nodes[v].log
    ensures LeadersOk(c, s.hist.leaderLog, s.hist.wins)
  {
    hide LogOk, LeadersOk, NetLogs;
    forall v | v in c.ids && s.nodes[v].role == Leader
      ensures s.nodes[v].term in s.hist.leaderLog && s.hist.leaderLog[s.nodes[v].term] == s.nodes[v].log
    {
      assert NodeLogs(c, s.hist.leaderLog, v, s.nodes[v]);
    }
  }

  lemma EmptyNetLogs(c: Conf, ll: Logs, ws: map<Win, set<Id>>)
    ensures NetLogs(c, ll, ws, {})
  {
  }

  lemma LogsStep(c: Conf, s: Cluster, a: Action)
    requires WellFormed(c) && Shape(c, s) && Enabled(c, s, a) && VotesInv(c, s) && LogsInv(c, s) && c.mode.locked
    ensures Shape(c, Next(c, s, a)) && LogsInv(c, Next(c, s, a))
  {
    if SameLogs(a) { SameLogsStep(c, s, a); }
    else if a.Finish? { FinishLogs(c, s, a); }
    else if a.ClientPropose? { ProposeLogs(c, s, a); }
    else if a.SendAppend? { SendLogs(c, s, a); }
    else if a.RecvAppendReq? { RecvAppendLogs(c, s, a); }
    else if a.TornCut? { TornLogs(c, s, a); }
    else { RecvReplyLogs(c, s, a); }
  }

  lemma InitLogs(c: Conf)
    ensures VotesInv(c, Init(c)) && LogsInv(c, Init(c))
  {
  }

  lemma {:induction false} LogsReachable(c: Conf, acts: seq<Action>)
    requires WellFormed(c) && Run(c, acts).At? && c.mode.locked
    ensures VotesInv(c, Run(c, acts).state) && LogsInv(c, Run(c, acts).state)
  {
    hide Next, Effect, VotesInv, LogsInv;
    VotesReachable(c, acts);
    if acts == [] {
      InitLogs(c);
    } else {
      var prev := acts[..|acts| - 1];
      VotesReachable(c, prev);
      LogsReachable(c, prev);
      LogsStep(c, Run(c, prev).state, acts[|acts| - 1]);
    }
  }

  /**
    Log Matching, in every reachable state when only leaders propose and ship, whatever else is repaired: two
    logs that hold an entry with the same index and term hold the same commands up to that index. Where
    entries keep their own term the entries themselves are equal.
   */
  lemma LogMatching(c: Conf, acts: seq<Action>, v: Id, w: Id, i: nat)
    requires WellFormed(c) && Run(c, acts).At? && c.mode.locked && v in c.ids && w in c.ids
    requires var s := Run(c, acts).state;
      i < |s.nodes[v].log| && i < |s.nodes[w].log| && s.nodes[v].log[i].term == s.nodes[w].log[i].term
    ensures var s := Run(c, acts).state;
      forall j :: 0 <= j <= i ==>
        && s.nodes[v].log[j].cmd == s.nodes[w].log[j].cmd
        && (c.mode.wire ==> s.nodes[v].log[j] == s.nodes[w].log[j])
  {
    LogsReachable(c, acts);
    var s := Run(c, acts).state;
    var ll := s.hist.leaderLog;
    var t := s.nodes[v].log[i].term;
    assert NodeLogs(c, ll, v, s.nodes[v]) && NodeLogs(c, ll, w, s.nodes[w]);
    assert EntryOk(c.mode.wire, ll, s.nodes[v].log, i, s.nodes[v].term);
    assert EntryOk(c.mode.wire, ll, s.nodes[w].log, i, s.nodes[w].term);
    forall j | 0 <= j <= i
      ensures s.nodes[v].log[j].cmd == s.nodes[w].log[j].cmd && (c.mode.wire ==> s.nodes[v].log[j] == s.nodes[w].log[j])
    {
      assert Same(c.mode.wire, s.nodes[v].log[j], ll[t][j]) && Same(c.mode.wire, s.nodes[w].log[j], ll[t][j]);
    }
  }

  // ---- terms along a log ----

  predicate TermsOk(log: seq<Entry>, bound: nat) {
    Sorted(log) && forall i :: 0 <= i < |log| ==> 1 <= log[i].term <= bound
  }

  predicate NodeTerms(n: Node) {
    TermsOk(n.log, n.term) && (n.role != Follower || n.led ==> n.term >= 1)
  }

  /** A request's entries are in order, and the term before them is not above the first. */
  predicate ReqTerms(a: AppendArgs) {
    a.term >= 1 && TermsOk(a.entries, a.term) && (a.entries != [] ==> a.prevTerm <= a.entries[0].term)
  }

  ghost predicate TermsInv(c: Conf, s: Cluster)
    requires Shape(c, s)
  {
    && (forall v :: v in c.ids ==> NodeTerms(s.nodes[v]))
    && (forall m :: m in s.net && m.AppendReq? ==> ReqTerms(m.aargs))
  }

  lemma {:induction false} MergeTermsOk(log: seq<Entry>, at: nat, ents: seq<Entry>, bound: nat)
    requires at <= |log| && TermsOk(log, bound) && TermsOk(ents, bound)
    requires at > 0 && ents != [] ==> log[at - 1].term <= ents[0].term
    ensures TermsOk(Merge(log, at, ents), bound)
    decreases |ents|
  {
    if ents != [] && at < |log| && log[at].term == ents[0].term { MergeTermsOk(log, at + 1, ents[1..], bound); }
  }

  lemma HandleTerms(mode: Mode, n: Node, a: AppendArgs)
    requires NodeTerms(n) && ReqTerms(a)
    ensures NodeTerms(HandleAppend(mode, n, a).0)
  {
    hide Merge;
    var n' := HandleAppend(mode, n, a).0;
    if a.term >= n.term && HandleAppend(mode, n, a).1.success {
      assert TermsOk(n.log, a.term);
      MergeTermsOk(n.log, a.prevIndex, Stamp(mode.wire, a.term, a.entries), a.term);
    }
  }

  lemma ShipTerms(cfg: Config, n: Node, peer: Id)
    requires NodeTerms(n) && n.term >= 1 && peer in n.peers && n.peers[peer].next >= 1
    ensures ReqTerms(MakeAppend(cfg, n, peer))
  {
  }

  lemma ReplyTerms(mode: Mode, cfg: Config, n: Node, peer: Id, a: AppendArgs, r: AppendReply)
    requires (forall p :: p in cfg.peers ==> p in n.peers) && peer in n.peers && NodeTerms(n)
    ensures NodeTerms(OnAppendReply(mode, cfg, n, peer, a, r))
  {
    hide MatchValues;
  }

  lemma TermsNode(c: Conf, s: Cluster, a: Action)
    requires Shape(c, s) && Enabled(c, s, a) && TermsInv(c, s)
    ensures NodeTerms(Effect(c, s, a).0) && forall m :: m in Effect(c, s, a).1 && m.AppendReq? ==> ReqTerms(m.aargs)
  {
    hide HandleAppend, OnAppendReply, MakeAppend, UpToDate, ReqTerms, TermsOk, Cuts, FreshPeers, Without;
    var n := s.nodes[a.i];
    assert NodeTerms(n) && NodeShape(c, a.i, n);
    if a.RecvAppendReq? {
      HandleTerms(c.mode, n, a.m.aargs);
    } else if a.RecvAppendResp? {
      ReplyTerms(c.mode, CfgOf(c, a.i), n, a.m.peer, a.m.request, a.m.areply);
    } else if a.SendAppend? {
      ShipTerms(CfgOf(c, a.i), n, a.peer);
    } else if a.ClientPropose? {
      TermsAppended(n.log, n.term, a.cmd);
    } else {
      TermsKept(n.log, n.term);
    }
  }

  lemma TermsAppended(log: seq<Entry>, term: nat, cmd: Cmd)
    requires TermsOk(log, term) && term >= 1
    ensures TermsOk(log + [Entry(term, cmd)], term)
  {
  }

  /** A later term, or less of the log. */
  lemma TermsKept(log: seq<Entry>, term: nat)
    requires TermsOk(log, term)
    ensures forall t: nat :: t >= term ==> TermsOk(log, t)
    ensures forall t: nat, k: nat :: t >= term && k <= |log| ==> TermsOk(log[..k], t)
  {
  }

  lemma TermsStep(c: Conf, s: Cluster, a: Action)
    requires Shape(c, s) && Enabled(c, s, a) && TermsInv(c, s)
    ensures Shape(c, Next(c, s, a)) && TermsInv(c, Next(c, s, a))
  {
    hide NodeTerms, ReqTerms, Effect;
    NextShape(c, s, a);
    TermsNode(c, s, a);
  }

  lemma {:induction false} TermsReachable(c: Conf, acts: seq<Action>)
    requires Run(c, acts).At?
    ensures TermsInv(c, Run(c, acts).state)
  {
    hide Next, Effect, Enabled, ReqTerms;
    if acts != [] {
      TermsReachable(c, acts[..|acts| - 1]);
      TermsStep(c, Run(c, acts[..|acts| - 1]).state, acts[|acts| - 1]);
    }
  }

  /** In every mode: log terms never decrease along a log and never exceed the server's current term. */
  lemma TermsOrdered(c: Conf, acts: seq<Action>, v: Id)
    requires Run(c, acts).At? && v in c.ids
    ensures Sorted(Run(c, acts).state.nodes[v].log)
    ensures var n := Run(c, acts).state.nodes[v];
      forall i :: 0 <= i < |n.log| ==> 1 <= n.log[i].term <= n.term
  {
    hide Run;
    TermsReachable(c, acts);
    assert NodeTerms(Run(c, acts).state.nodes[v]);
  }

  /**
    After any successful AppendEntries of term T the receiver's commands up to the last shipped
    entry are those of the leader of T. Taking min(leader_commit, last index) then commits only
    agreed commands whenever the leader's commit index lies within what it shipped.
   */
  lemma AcceptedAppendAgrees(c: Conf, acts: seq<Action>, v: Id, m: Msg)
    requires WellFormed(c) && Run(c, acts).At? && c.mode.locked && v in c.ids
    requires m in Run(c, acts).state.net && m.AppendReq? && m.dest == v
    ensures var s := Run(c, acts).state;
      var (n', r) := HandleAppend(c.mode, s.nodes[v], m.aargs);
      var a := m.aargs;
      r.success ==>
        && a.term in s.hist.leaderLog
        && Matches(c.mode.wire, n'.log, s.hist.leaderLog[a.term], a.prevIndex + |a.entries|)
        && (a.leaderCommit <= a.prevIndex + |a.entries| && n'.commit != s.nodes[v].commit ==>
              Matches(c.mode.wire, n'.log, s.hist.leaderLog[a.term], n'.commit))
  {
    hide Run, VotesInv, HandleAppend;
    LogsReachable(c, acts);
    var s := Run(c, acts).state;
    assert NodeLogs(c, s.hist.leaderLog, v, s.nodes[v]);
    HandleAppendOk(c.mode, s.hist.leaderLog, s.hist.wins, v, s.nodes[v], m.aargs);
    HandleAppendCommit(c.mode, s.nodes[v], m.aargs);
  }

  /** The leader ships everything after the previous index, so a commit index within its log lies within what it ships. */
  lemma ShipsWholeSuffix(cfg: Config, n: Node, peer: Id)
    requires peer in n.peers && n.peers[peer].next >= 1 && n.commit <= |n.log|
    ensures var a := MakeAppend(cfg, n, peer);
      && a.leaderCommit <= a.prevIndex + |a.entries|
      && (a.prevIndex <= |n.log| ==> n.log == n.log[..a.prevIndex] + a.entries)
  {
    var a := MakeAppend(cfg, n, peer);
    if a.prevIndex <= |n.log| {
      assert a.entries == n.log[a.prevIndex..];
      assert n.log == n.log[..a.prevIndex] + n.log[a.prevIndex..];
    } else {
      assert a.leaderCommit <= a.prevIndex;
    }
  }
}
