/**
  The rules one Raft node follows, as functions from node state to node state.
  One function per critical section of core/src/raft/node.cpp.
 */
module RaftRules {
  import opened Bytes
  import opened CommitRule

  type Id = string
  type Cmd = bytes

  datatype Entry = Entry(term: nat, cmd: Cmd)

  datatype Role = Follower | Candidate | Leader

  datatype Peer = Peer(next: nat, matched: nat)

  /** The election thread's local state: replies collected so far and the votes among them. */
  datatype Election = NoElection | Election(term: nat, answered: set<Id>, voters: set<Id>)

  datatype Delivered = Delivered(index: nat, cmd: Cmd)

  /**
    `votedFor` is "" when no vote is recorded for `term`; `delivered` lists the calls of the apply function; `led` says
    that the process has led since it started, so a thread that saw it leading may still be about to act.
   */
  datatype Node = Node(
    term: nat, votedFor: Id, role: Role, leaderId: Id, log: seq<Entry>,
    commit: nat, applied: nat, delivered: seq<Delivered>,
    peers: map<Id, Peer>, election: Election, led: bool)

  datatype Config = Config(id: Id, peers: seq<Id>)

  /**
    wire:  shipped entries carry their own term (the transport header's contract);
           otherwise the receiver stamps every entry with the sender's term (the code).
    dropStale: replies are dropped unless the receiver still leads the term it sent them in;
           otherwise they are always processed (the code).
    locked: proposing and shipping read the role under the mutex; otherwise they read it before they
           take the mutex, and the node may no longer lead when they act (the code).
    wholeCut: cutting a log back replaces its file at once; otherwise the file is emptied and rewritten
           entry by entry, and a crash in between loses entries that were to stay (the code).
   */
  datatype Mode = Mode(wire: bool, dropStale: bool, locked: bool, wholeCut: bool)

  const AS_WRITTEN := Mode(false, false, false, false)
  const CONTRACT := Mode(true, true, true, true)

  datatype VoteArgs = VoteArgs(term: nat, candidate: Id, lastIndex: nat, lastTerm: nat)
  datatype VoteReply = VoteReply(term: nat, granted: bool)
  datatype AppendArgs = AppendArgs(
    term: nat, leader: Id, prevIndex: nat, prevTerm: nat, entries: seq<Entry>, leaderCommit: nat)
  datatype AppendReply = AppendReply(term: nat, success: bool, conflictIndex: nat, conflictTerm: nat)

  // ---- log accessors ----

  function TermAt(log: seq<Entry>, index: nat): nat {
    if 1 <= index <= |log| then log[index - 1].term else 0
  }

  function LastTerm(log: seq<Entry>): nat {
    TermAt(log, |log|)
  }

  predicate UpToDate(log: seq<Entry>, lastTerm: nat, lastIndex: nat) {
    if lastTerm != LastTerm(log) then lastTerm > LastTerm(log) else lastIndex >= |log|
  }

  predicate Sorted(log: seq<Entry>) {
    forall i, j :: 0 <= i <= j < |log| ==> log[i].term <= log[j].term
  }

  // ---- elections ----

  function BecomeFollower(n: Node, term: nat): Node {
    n.(term := term, votedFor := "", role := Follower, leaderId := "")
  }

  predicate Grants(n: Node, a: VoteArgs) {
    && (n.votedFor == "" || n.votedFor == a.candidate)
    && UpToDate(n.log, a.lastTerm, a.lastIndex)
  }

  function HandleVote(n: Node, a: VoteArgs): (Node, VoteReply) {
    var n1 := if a.term > n.term then BecomeFollower(n, a.term) else n;
    if a.term < n1.term || !Grants(n1, a) then (n1, VoteReply(n1.term, false))
    else (n1.(votedFor := a.candidate), VoteReply(n1.term, true))
  }

  function StartElection(cfg: Config, n: Node): Node {
    n.(term := n.term + 1, votedFor := cfg.id, role := Candidate,
       election := Election(n.term + 1, {}, {}))
  }

  function VoteRequest(cfg: Config, n: Node): VoteArgs {
    VoteArgs(n.term, cfg.id, |n.log|, LastTerm(n.log))
  }

  function OnVoteReply(n: Node, voter: Id, r: VoteReply): Node
    requires n.election.Election?
  {
    var e := n.election.(answered := n.election.answered + {voter});
    if r.term > n.term then BecomeFollower(n, r.term).(election := e)
    else if r.granted then n.(election := e.(voters := e.voters + {voter}))
    else n.(election := e)
  }

  predicate HasQuorum(cfg: Config, votes: nat) {
    votes > (|cfg.peers| + 1) / 2
  }

  function FreshPeers(cfg: Config, last: nat): map<Id, Peer> {
    map p | p in cfg.peers :: Peer(last + 1, 0)
  }

  function FinishElection(cfg: Config, n: Node): Node
    requires n.election.Election?
  {
    if n.role != Candidate then n.(election := NoElection)
    else if HasQuorum(cfg, 1 + |n.election.voters|) then
      n.(role := Leader, leaderId := cfg.id, peers := FreshPeers(cfg, |n.log|), election := NoElection, led := true)
    else BecomeFollower(n, n.term).(election := NoElection)
  }

  // ---- replication ----

  /** The role check before proposing and shipping. */
  predicate MayLead(mode: Mode, n: Node) {
    n.role == Leader || (!mode.locked && n.led)
  }

  function Propose(n: Node, cmd: Cmd): Node {
    n.(log := n.log + [Entry(n.term, cmd)])
  }

  /** Whether a proposer waiting for an index is told that its entry is committed. */
  predicate Answered(n: Node, index: nat) {
    n.commit >= index
  }

  /** Entries from `from` to the end of the log; empty when `from` is past the end. */
  function Suffix(log: seq<Entry>, from: nat): seq<Entry> {
    if 1 <= from <= |log| then log[from - 1..] else []
  }

  function MakeAppend(cfg: Config, n: Node, peer: Id): AppendArgs
    requires peer in n.peers && n.peers[peer].next >= 1
  {
    var next := n.peers[peer].next;
    AppendArgs(n.term, cfg.id, next - 1, TermAt(n.log, next - 1), Suffix(n.log, next), n.commit)
  }

  /** What the receiver stores for the shipped entries. */
  function Stamp(wire: bool, term: nat, entries: seq<Entry>): (r: seq<Entry>)
    ensures |r| == |entries|
  {
    if wire then entries else seq(|entries|, i requires 0 <= i < |entries| => Entry(term, entries[i].cmd))
  }

  /** Keep log entries whose term agrees with the shipped ones; from the first difference on, replace. */
  function Merge(log: seq<Entry>, at: nat, entries: seq<Entry>): seq<Entry>
    requires at <= |log|
    decreases |entries|
  {
    if entries == [] then log
    else if at < |log| && log[at].term == entries[0].term then Merge(log, at + 1, entries[1..])
    else log[..at] + entries
  }

  function FollowerCommit(n: Node, leaderCommit: nat): Node {
    if leaderCommit > n.commit
    then n.(commit := if leaderCommit < |n.log| then leaderCommit else |n.log|)
    else n
  }

  function HandleAppend(mode: Mode, n: Node, a: AppendArgs): (Node, AppendReply) {
    if a.term < n.term then (n, AppendReply(n.term, false, 0, 0))
    else
      var n1 := (if a.term > n.term then BecomeFollower(n, a.term) else n).(leaderId := a.leader, role := Follower);
      if a.prevIndex > |n.log| then (n1, AppendReply(n.term, false, |n.log| + 1, 0))
      else if a.prevIndex > 0 && TermAt(n.log, a.prevIndex) != a.prevTerm then
        (n1.(log := n.log[..a.prevIndex - 1]),
         AppendReply(n.term, false, a.prevIndex, TermAt(n.log, a.prevIndex)))
      else
        var n2 := n1.(log := Merge(n.log, a.prevIndex, Stamp(mode.wire, a.term, a.entries)));
        (FollowerCommit(n2, a.leaderCommit), AppendReply(n.term, true, 0, 0))
  }

  /** The first shipped entry whose term differs from the log's is the one at position `keep`. */
  predicate Conflicts(log: seq<Entry>, at: nat, entries: seq<Entry>, keep: nat)
    requires at <= |log|
    decreases |entries|
  {
    entries != [] && at < |log| &&
    if log[at].term == entries[0].term then Conflicts(log, at + 1, entries[1..], keep) else keep == at
  }

  /** Handling the request cuts the log back to `keep` entries. */
  predicate Cuts(mode: Mode, n: Node, a: AppendArgs, keep: nat) {
    a.term >= n.term && a.prevIndex <= |n.log| &&
    if a.prevIndex > 0 && TermAt(n.log, a.prevIndex) != a.prevTerm then keep == a.prevIndex - 1
    else Conflicts(n.log, a.prevIndex, Stamp(mode.wire, a.term, a.entries), keep)
  }

  function PeerMatches(n: Node, peers: seq<Id>): (vals: seq<nat>)
    requires forall p :: p in peers ==> p in n.peers
    ensures |vals| == |peers|
  {
    if peers == [] then [] else [n.peers[peers[0]].matched] + PeerMatches(n, peers[1..])
  }

  /** Highest index known to be on each server, the leader itself first. */
  function MatchValues(cfg: Config, n: Node): (vals: seq<nat>)
    requires forall p :: p in cfg.peers ==> p in n.peers
    ensures |vals| == |cfg.peers| + 1
  {
    [|n.log|] + PeerMatches(n, cfg.peers)
  }

  function LeaderCommit(cfg: Config, n: Node): Node
    requires forall p :: p in cfg.peers ==> p in n.peers
  {
    var pick := MajorityValue(MatchValues(cfg, n));
    if pick > n.commit && TermAt(n.log, pick) == n.term then n.(commit := pick) else n
  }

  function OnAppendReply(mode: Mode, cfg: Config, n: Node, peer: Id, a: AppendArgs, r: AppendReply): Node
    requires forall p :: p in cfg.peers ==> p in n.peers
    requires peer in n.peers
  {
    if mode.dropStale && (n.role != Leader || n.term != a.term) then n
    else if r.term > n.term then BecomeFollower(n, r.term)
    else if r.success then
      var m := a.prevIndex + |a.entries|;
      var n1 := n.(peers := n.peers[peer := Peer(m + 1, m)]);
      if n1.role == Leader then LeaderCommit(cfg, n1) else FollowerCommit(n1, a.leaderCommit)
    else
      var p := n.peers[peer];
      if p.next > 1 then n.(peers := n.peers[peer := p.(next := p.next - 1)]) else n
  }

  // ---- apply and restart ----

  predicate CanApply(n: Node) {
    n.applied < n.commit && n.applied < |n.log|
  }

  function ApplyOne(n: Node): Node
    requires CanApply(n)
  {
    n.(applied := n.applied + 1,
       delivered := n.delivered + [Delivered(n.applied + 1, n.log[n.applied].cmd)])
  }

  /** A crash and restart: only term, vote and log were on disk. */
  function Restart(cfg: Config, n: Node): Node {
    Node(n.term, n.votedFor, Follower, "", n.log, 0, 0, [], FreshPeers(cfg, |n.log|), NoElection, false)
  }

  /** A crash while the log file is rewritten for a request, after `left` entries. */
  function Torn(cfg: Config, n: Node, a: AppendArgs, left: nat): Node
    requires left <= |n.log|
  {
    Restart(cfg, (if a.term > n.term then BecomeFollower(n, a.term) else n).(log := n.log[..left]))
  }

  function Boot(cfg: Config): Node {
    Node(0, "", Follower, "", [], 0, 0, [], FreshPeers(cfg, 0), NoElection, false)
  }
}
