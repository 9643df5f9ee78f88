/**
  What each rule of a node does, said field by field in terms of the node before: who may get a vote, when a request is
  accepted and what is then stored and committed, what a reply changes, and what every rule leaves alone.
 */
module RaftEffects {
  import opened CommitRule
  import opened RaftRules

  /** Term of the last entry, 0 for an empty log. */
  function EndTerm(log: seq<Entry>): nat {
    if log == [] then 0 else log[|log| - 1].term
  }

  /** Only log, commit index, applied prefix and peers: what elections leave alone. */
  predicate SameData(n: Node, n': Node) {
    && n'.log == n.log && n'.commit == n.commit && n'.applied == n.applied && n'.delivered == n.delivered
    && n'.peers == n.peers
  }

  /** The node follows in the given term, its vote and its leader forgotten. */
  predicate Follows(n: Node, n': Node, term: nat) {
    n'.term == term && n'.votedFor == "" && n'.role == Follower && n'.leaderId == "" && n'.led == n.led && SameData(n, n')
  }

  predicate SameOffice(n: Node, n': Node) {
    n'.term == n.term && n'.votedFor == n.votedFor && n'.role == n.role && n'.leaderId == n.leaderId && n'.led == n.led
  }

  // ---- elections ----

  /** A server may vote for the candidate: it is not ahead, has no other vote in that term and no further log. */
  predicate MayVote(n: Node, a: VoteArgs) {
    && a.term >= n.term
    && (a.term == n.term ==> n.votedFor == "" || n.votedFor == a.candidate)
    && (a.lastTerm > EndTerm(n.log) || (a.lastTerm == EndTerm(n.log) && a.lastIndex >= |n.log|))
  }

  /** The whole effect of a vote request: granted exactly when the server may vote, and what it then remembers. */
  lemma VoteExact(n: Node, a: VoteArgs)
    ensures var (n', r) := HandleVote(n, a);
      && (r.granted <==> MayVote(n, a)) && (r.granted ==> r.term == a.term)
      && r.term == n'.term == (if a.term > n.term then a.term else n.term)
      && n'.votedFor == (if MayVote(n, a) then a.candidate else if a.term > n.term then "" else n.votedFor)
      && (a.term > n.term ==> n'.role == Follower && n'.leaderId == "")
      && (a.term <= n.term ==> n'.role == n.role && n'.leaderId == n.leaderId)
      && SameData(n, n') && n'.election == n.election && n'.led == n.led
  {
  }

  /** Standing: the next term, a vote for itself, and a count that starts from nothing. */
  lemma StartExact(cfg: Config, n: Node)
    ensures var n', a := StartElection(cfg, n), VoteRequest(cfg, StartElection(cfg, n));
      && n'.term == n.term + 1 && n'.votedFor == cfg.id && n'.role == Candidate && n'.leaderId == n.leaderId && n'.led == n.led
      && n'.election == Election(n.term + 1, {}, {}) && SameData(n, n')
      && a == VoteArgs(n.term + 1, cfg.id, |n.log|, EndTerm(n.log))
  {
  }

  /** A vote reply of a later term ends the candidacy; a granted one is counted once per voter. */
  lemma VoteReplyExact(n: Node, voter: Id, r: VoteReply)
    requires n.election.Election?
    ensures var n', e := OnVoteReply(n, voter, r), n.election;
      && n'.election.Election? && n'.election.term == e.term && n'.election.answered == e.answered + {voter}
      && (r.term > n.term ==> Follows(n, n', r.term) && n'.election.voters == e.voters)
      && (r.term <= n.term ==> SameOffice(n, n') && SameData(n, n'))
      && (r.term <= n.term ==> n'.election.voters == if r.granted then e.voters + {voter} else e.voters)
  {
  }

  /** A candidate leads exactly when its voters and itself are more than half of the cluster; otherwise it gives up its vote. */
  lemma FinishExact(cfg: Config, n: Node)
    requires n.election.Election?
    ensures var n', wins := FinishElection(cfg, n), 2 * (1 + |n.election.voters|) > |cfg.peers| + 1;
      && n'.election == NoElection
      && (n.role != Candidate ==> SameOffice(n, n') && SameData(n, n'))
      && (n.role == Candidate && !wins ==> Follows(n, n', n.term))
      && (n.role == Candidate && wins ==>
            && n'.role == Leader && n'.term == n.term && n'.votedFor == n.votedFor && n'.leaderId == cfg.id && n'.led
            && n'.log == n.log && n'.commit == n.commit && n'.applied == n.applied && n'.delivered == n.delivered
            && n'.peers.Keys == (set p | p in cfg.peers) && forall p :: p in cfg.peers ==> n'.peers[p] == Peer(|n.log| + 1, 0))
  {
  }

  // ---- requests ----

  /** A request starts at the peer's next index and holds everything from there on. */
  lemma RequestExact(cfg: Config, n: Node, peer: Id)
    requires peer in n.peers && n.peers[peer].next >= 1
    ensures var a, next := MakeAppend(cfg, n, peer), n.peers[peer].next;
      && a.term == n.term && a.leader == cfg.id && a.leaderCommit == n.commit && a.prevIndex == next - 1
      && a.prevTerm == (if 2 <= next <= |n.log| + 1 then n.log[next - 2].term else 0)
      && |a.entries| == (if next <= |n.log| then |n.log| + 1 - next else 0)
      && forall j :: 0 <= j < |a.entries| ==> a.entries[j] == n.log[next - 1 + j]
  {
  }

  /** Up to position k log and entries agree on terms. */
  predicate Agree(log: seq<Entry>, at: nat, ents: seq<Entry>, k: nat) {
    at <= k && k <= at + |ents| && k <= |log| && forall i :: at <= i < k ==> log[i].term == ents[i - at].term
  }

  /** Merging keeps the log up to the first difference in term and takes the rest as shipped; without one it keeps the log. */
  lemma {:induction false} MergeExact(log: seq<Entry>, at: nat, ents: seq<Entry>) returns (k: nat)
    requires at <= |log|
    ensures Agree(log, at, ents, k)
    ensures k == at + |ents| ==> Merge(log, at, ents) == log
    ensures k < at + |ents| ==> (k < |log| ==> log[k].term != ents[k - at].term) && Merge(log, at, ents) == log[..k] + ents[k - at..]
    decreases |ents|
  {
    k := at;
    if ents != [] && at < |log| && log[at].term == ents[0].term {
      k := MergeExact(log, at + 1, ents[1..]);
      assert k < at + |ents| ==> ents[1..][k - at - 1..] == ents[k - at..];
    }
  }

  /** A request is accepted when it is not late and the log has its previous entry. */
  predicate Acceptable(n: Node, a: AppendArgs) {
    a.term >= n.term && a.prevIndex <= |n.log| && (a.prevIndex > 0 ==> n.log[a.prevIndex - 1].term == a.prevTerm)
  }

  /** The smaller of the leader's commit index and the log's end, unless that is no news. */
  predicate Advanced(commit: nat, commit': nat, leaderCommit: nat, last: nat) {
    && (leaderCommit <= commit ==> commit' == commit)
    && (leaderCommit > commit ==> commit' <= leaderCommit && commit' <= last && (commit' == leaderCommit || commit' == last))
  }

  /** The whole effect of an AppendEntries request but for the merged log, which MergeExact describes. */
  lemma AppendExact(mode: Mode, n: Node, a: AppendArgs)
    ensures var (n', r) := HandleAppend(mode, n, a);
      && (r.success <==> Acceptable(n, a)) && r.term == n.term
      && (a.term < n.term ==> n' == n && r == AppendReply(n.term, false, 0, 0))
      && (a.term >= n.term ==>
            && n'.term == a.term && n'.role == Follower && n'.leaderId == a.leader
            && n'.votedFor == (if a.term > n.term then "" else n.votedFor))
      && n'.applied == n.applied && n'.delivered == n.delivered && n'.peers == n.peers && n'.election == n.election && n'.led == n.led
      && (r.success ==>
            && n'.log == Merge(n.log, a.prevIndex, Stamp(mode.wire, a.term, a.entries))
            && Advanced(n.commit, n'.commit, a.leaderCommit, |n'.log|) && r.conflictIndex == r.conflictTerm == 0)
      && (!r.success ==> n'.commit == n.commit)
      && (a.term >= n.term && a.prevIndex > |n.log| ==> n'.log == n.log && r.conflictIndex == |n.log| + 1 && r.conflictTerm == 0)
      && (a.term >= n.term && 0 < a.prevIndex <= |n.log| && n.log[a.prevIndex - 1].term != a.prevTerm ==>
            n'.log == n.log[..a.prevIndex - 1] && r.conflictIndex == a.prevIndex && r.conflictTerm == n.log[a.prevIndex - 1].term)
  {
    hide Merge, Stamp;
  }

  /** Stored entries have the sender's term, or their own when entries carry it. */
  lemma StampExact(wire: bool, term: nat, entries: seq<Entry>)
    ensures var r := Stamp(wire, term, entries);
      |r| == |entries| && forall j :: 0 <= j < |r| ==> r[j] == Entry(if wire then entries[j].term else term, entries[j].cmd)
  {
  }

  // ---- replies ----

  /**
    A reply of a later term ends leadership; an acknowledgement is recorded and may move the commit index; a refusal moves
    the peer's next index back by one, but not below 1.
   */
  lemma ReplyExact(mode: Mode, cfg: Config, n: Node, peer: Id, a: AppendArgs, r: AppendReply)
    requires (forall p :: p in cfg.peers ==> p in n.peers) && peer in n.peers
    ensures var n' := OnAppendReply(mode, cfg, n, peer, a, r);
      var dropped, k := mode.dropStale && (n.role != Leader || n.term != a.term), a.prevIndex + |a.entries|;
      && n'.election == n.election && n'.log == n.log && n'.applied == n.applied && n'.delivered == n.delivered
      && (dropped ==> n' == n)
      && (!dropped && r.term > n.term ==> Follows(n, n', r.term))
      && (!dropped && r.term <= n.term ==> SameOffice(n, n'))
      && (!dropped && r.term <= n.term && r.success ==>
            && n'.peers == n.peers[peer := Peer(k + 1, k)]
            && (n.role != Leader ==> Advanced(n.commit, n'.commit, a.leaderCommit, |n.log|))
            && (n.role == Leader ==> n' == LeaderCommit(cfg, n.(peers := n'.peers))))
      && (!dropped && r.term <= n.term && !r.success ==>
            var p := n.peers[peer];
            n'.commit == n.commit && n'.peers == n.peers[peer := Peer(if p.next > 1 then p.next - 1 else p.next, p.matched)])
  {
    hide MatchValues, MajorityValue;
  }

  /** A crash loses everything but term, vote and log. */
  lemma RestartExact(cfg: Config, n: Node)
    ensures var n' := Restart(cfg, n);
      && n'.term == n.term && n'.votedFor == n.votedFor && n'.log == n.log
      && n'.role == Follower && n'.leaderId == "" && n'.commit == n'.applied == 0 && n'.delivered == [] && n'.election == NoElection && !n'.led
      && n'.peers.Keys == (set p | p in cfg.peers) && forall p :: p in cfg.peers ==> n'.peers[p] == Peer(|n.log| + 1, 0)
  {
  }
}
