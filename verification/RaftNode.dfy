/**
  One Raft node as an object whose handlers update its fields, its log and its persisted term and vote
  (core/src/raft/node.cpp). Every handler is the corresponding rule applied to the node's state.
 */
module RaftNode {
  import opened Bytes
  import opened CommitRule
  import opened LogFile
  import opened RaftRules

  /** The log without its indices. */
  function Strip(es: seq<LogEntry>): (log: seq<Entry>)
    ensures |log| == |es|
    ensures forall i :: 0 <= i < |es| ==> log[i] == Entry(es[i].term, es[i].command)
  {
    seq(|es|, i requires 0 <= i < |es| => Entry(es[i].term, es[i].command))
  }

  lemma StripTermAt(es: seq<LogEntry>, index: nat)
    requires Contiguous(es)
    ensures RaftRules.TermAt(Strip(es), index) == if 1 <= index <= |es| then es[index - 1].term else 0
  {
  }

  class RaftNode {
    const cfg: Config
    const log: RaftLog
    var term: nat
    var votedFor: Id
    var savedTerm: nat
    var savedVote: Id
    var role: Role
    var leaderId: Id
    var commit: nat
    var applied: nat
    var delivered: seq<Delivered>
    var peers: map<Id, Peer>
    var election: Election
    ghost var led: bool

    /** What is on disk is the current term and vote, and the log's file; indices have no gap. */
    ghost predicate Valid()
      reads this, log
    {
      && log.Valid() && Contiguous(log.entries)
      && savedTerm == term && savedVote == votedFor
      && peers.Keys == (set p | p in cfg.peers) && forall p :: p in cfg.peers ==> peers[p].next >= 1
    }

    ghost function View(): Node
      reads this, log
    {
      Node(term, votedFor, role, leaderId, Strip(log.entries), commit, applied, delivered, peers, election, led)
    }

    /** The log answers lookups the way the rules read the stripped log. */
    lemma LogView(index: nat)
      requires Valid()
      ensures log.LastIndex() == |View().log| && log.TermAt(index) == RaftRules.TermAt(View().log, index)
      ensures log.LastTerm() == RaftRules.LastTerm(View().log)
    {
      hide EncodeLog;
      log.Lookups(index);
      StripTermAt(log.entries, index);
      StripTermAt(log.entries, |log.entries|);
    }

    /**
      Start, or restart after a crash, from the saved term and vote and the complete records of the log file. When the
      crash tore the last record off, the file is longer than its records until the log is next rewritten.
     */
    constructor (cfg: Config, crc: bytes -> nat, savedTerm: nat, savedVote: Id, contents: bytes, ghost before: Node)
      requires Contiguous(LoadEntries(contents))
      requires before.term == savedTerm && before.votedFor == savedVote && before.log == Strip(LoadEntries(contents))
      ensures fresh(log) && this.cfg == cfg && log.crc == crc && log.file == contents && log.entries == LoadEntries(contents)
      ensures View() == Restart(cfg, before)
      ensures contents == EncodeLog(crc, LoadEntries(contents)) ==> Valid()
    {
      this.cfg := cfg;
      var l := new RaftLog(crc, contents);
      log := l;
      term, votedFor, this.savedTerm, this.savedVote := savedTerm, savedVote, savedTerm, savedVote;
      role, leaderId, commit, applied, delivered, election := Follower, "", 0, 0, [], NoElection;
      peers := map[];
      led := false;
      new;
      log.Lookups(0);
      InitPeers();
    }

    /** next_index just past the log, match_index 0, for every peer in turn. */
    method InitPeers()
      requires Contiguous(log.entries)
      modifies this`peers
      ensures peers == old(peers) + FreshPeers(cfg, |log.entries|)
    {
      log.Lookups(0);
      ghost var was := peers;
      for i := 0 to |cfg.peers|
        invariant peers == was + Reset(cfg.peers[..i], Peer(|log.entries| + 1, 0))
      {
        ResetSnoc(was, cfg.peers, i, Peer(|log.entries| + 1, 0));
        peers := peers[cfg.peers[i] := Peer(log.LastIndex() + 1, 0)];
      }
      assert cfg.peers[..|cfg.peers|] == cfg.peers;
    }

    method Persist()
      modifies this`savedTerm, this`savedVote
      ensures savedTerm == term && savedVote == votedFor
    {
      savedTerm, savedVote := term, votedFor;
    }

    method StepDown(t: nat)
      requires Valid()
      modifies this`term, this`votedFor, this`savedTerm, this`savedVote, this`role, this`leaderId
      ensures Valid() && View() == BecomeFollower(old(View()), t)
    {
      term, votedFor := t, "";
      Persist();
      role, leaderId := Follower, "";
    }

    method TryGrantVote(a: VoteArgs) returns (granted: bool)
      requires Valid()
      modifies this`votedFor, this`savedTerm, this`savedVote
      ensures Valid()
      ensures granted == (a.term >= old(term) && Grants(old(View()), a))
      ensures View() == if granted then old(View()).(votedFor := a.candidate) else old(View())
    {
      hide EncodeLog;
      if a.term < term { return false; }
      if votedFor != "" && votedFor != a.candidate { return false; }
      log.Lookups(0);
      StripTermAt(log.entries, |log.entries|);
      if !log.IsUpToDate(a.lastTerm, a.lastIndex) { return false; }
      votedFor := a.candidate;
      Persist();
      granted := true;
    }

    method HandleRequestVote(a: VoteArgs) returns (r: VoteReply)
      requires Valid()
      modifies this
      ensures Valid() && (View(), r) == HandleVote(old(View()), a) && log.entries == old(log.entries)
      ensures r.granted <==>
        && a.term >= old(term)
        && (a.term > old(term) || old(votedFor) == "" || old(votedFor) == a.candidate)
        && (a.lastTerm > log.LastTerm() || (a.lastTerm == log.LastTerm() && a.lastIndex >= log.LastIndex()))
      ensures savedVote == if r.granted then a.candidate else if a.term > old(term) then "" else old(votedFor)
      ensures savedTerm == r.term == if a.term > old(term) then a.term else old(term)
    {
      hide EncodeLog;
      log.Lookups(0);
      StripTermAt(log.entries, |log.entries|);
      if a.term > term { StepDown(a.term); }
      r := VoteReply(term, false);
      if a.term < term { return; }
      var granted := TryGrantVote(a);
      r := VoteReply(r.term, granted);
    }

    method CollectMatches() returns (vals: seq<nat>)
      requires Valid()
      ensures vals == MatchValues(cfg, View())
    {
      hide EncodeLog;
      log.Lookups(0);
      vals := [log.LastIndex()];
      ghost var n := View();
      for i := 0 to |cfg.peers|
        invariant vals == [|log.entries|] + PeerMatches(n, cfg.peers[..i])
      {
        PeerMatchesSnoc(n, cfg.peers[..i], cfg.peers[i]);
        assert cfg.peers[..i + 1] == cfg.peers[..i] + [cfg.peers[i]];
        vals := vals + [peers[cfg.peers[i]].matched];
      }
      assert cfg.peers[..|cfg.peers|] == cfg.peers;
    }

    /** The follower's half of the commit rule, and the leader's. */
    method TryAdvanceCommit(leaderCommit: nat)
      requires Valid()
      modifies this`commit
      ensures Valid()
      ensures View() == if role == Leader then LeaderCommit(cfg, old(View())) else FollowerCommit(old(View()), leaderCommit)
    {
      hide EncodeLog, PeerMatches;
      log.Lookups(0);
      if role != Leader {
        if leaderCommit > commit {
          commit := if leaderCommit < log.LastIndex() then leaderCommit else log.LastIndex();
        }
        return;
      }
      var vals := CollectMatches();
      hide MatchValues;
      var sorted := SortDesc(vals);
      var majority := |vals| / 2 + 1;
      var pick := sorted[majority - 1];
      log.Lookups(pick);
      StripTermAt(log.entries, pick);
      if pick > commit && log.TermAt(pick) == term {
        commit := pick;
      }
    }

    /** The check on the entry before the shipped ones: a log too short is left alone, a conflicting suffix is dropped. */
    method CheckPrevious(a: AppendArgs, replyTerm: nat) returns (r: AppendReply)
      requires Valid()
      modifies log
      ensures Valid() && r.term == replyTerm
      ensures var held, prev := old(View()).log, a.prevIndex;
        if prev > |held| then View() == old(View()) && r == AppendReply(replyTerm, false, |held| + 1, 0)
        else if prev > 0 && RaftRules.TermAt(held, prev) != a.prevTerm then
          && View() == old(View()).(log := held[..prev - 1])
          && r == AppendReply(replyTerm, false, prev, RaftRules.TermAt(held, prev))
        else View() == old(View()) && r == AppendReply(replyTerm, true, 0, 0)
    {
      hide EncodeLog, RaftLog.TermAt, RaftLog.LastIndex, RaftRules.TermAt;
      r := AppendReply(replyTerm, true, 0, 0);
      LogView(a.prevIndex);
      if a.prevIndex > 0 {
        if log.LastIndex() < a.prevIndex {
          r := AppendReply(replyTerm, false, log.LastIndex() + 1, 0);
          return;
        }
        if log.TermAt(a.prevIndex) != a.prevTerm {
          r := AppendReply(replyTerm, false, a.prevIndex, log.TermAt(a.prevIndex));
          log.TruncateSuffix(a.prevIndex - 1);
          assert Strip(log.entries) == old(View()).log[..a.prevIndex - 1];
        }
      }
    }

    method HandleAppendEntries(a: AppendArgs) returns (r: AppendReply)
      requires Valid()
      modifies this, log
      ensures Valid() && (View(), r) == HandleAppend(AS_WRITTEN, old(View()), a)
    {
      hide EncodeLog, Merge, Stamp, LeaderCommit, RaftRules.TermAt;
      r := AppendReply(term, false, 0, 0);
      if a.term < term { return; }
      if a.term > term { StepDown(a.term); }
      leaderId, role := a.leader, Follower;
      r := CheckPrevious(a, r.term);
      if r.success {
        MergeEntries(a);
        TryAdvanceCommit(a.leaderCommit);
      }
    }

    /** Partway through the shipped entries: `added` continues the log, and merging the rest gives the whole merge. */
    ghost predicate Merging(was: seq<Entry>, a: AppendArgs, i: nat, added: seq<LogEntry>)
      reads this, log
    {
      var sofar, ents := Strip(log.entries) + Strip(added), Stamp(false, a.term, a.entries);
      && i <= |a.entries| && Valid()
      && (added == [] ==> a.prevIndex + i <= |log.entries|)
      && (added != [] ==> a.prevIndex + i == |log.entries| + |added|)
      && (forall j :: 0 <= j < |added| ==> added[j].index == |log.entries| + j + 1)
      && a.prevIndex <= |was| && a.prevIndex + i <= |sofar|
      && Merge(was, a.prevIndex, ents) == Merge(sofar, a.prevIndex + i, ents[i..])
    }

    /** One shipped entry: skipped when its term agrees, otherwise the log is cut there and the entry is added. */
    method MergeEntry(ghost was: seq<Entry>, a: AppendArgs, i: nat, added: seq<LogEntry>) returns (more: seq<LogEntry>)
      requires Merging(was, a, i, added) && i < |a.entries|
      modifies log
      ensures Merging(was, a, i + 1, more)
    {
      hide EncodeLog, Merge, Stamp, RaftLog.Get, Keep;
      more := added;
      var idx := a.prevIndex + 1 + i;
      log.Lookups(idx);
      ghost var sofar, ents := Strip(log.entries) + Strip(added), Stamp(false, a.term, a.entries);
      StampRest(a, i);
      if idx <= log.LastIndex() && log.TermAt(idx) == a.term {
        MergeSkips(sofar, idx - 1, ents[i..]);
      } else {
        if idx <= log.LastIndex() {
          log.TruncateSuffix(idx - 1);
          assert Strip(log.entries) == sofar[..idx - 1];
        }
        MergeReplaces(sofar, idx - 1, ents[i..]);
        more := added + [LogEntry(idx, a.term, a.entries[i].cmd)];
        assert Strip(log.entries) + Strip(more) == sofar[..idx - 1] + [ents[i]];
      }
    }

    /** The loop over shipped entries: skip those already held, cut at the first conflict, append the rest. */
    method MergeEntries(a: AppendArgs)
      requires Valid() && a.prevIndex <= |log.entries|
      modifies log
      ensures Valid() && View() == old(View()).(log := Merge(old(View()).log, a.prevIndex, Stamp(false, a.term, a.entries)))
    {
      hide EncodeLog, Merge, Stamp, Strip, Merging;
      ghost var was := Strip(log.entries);
      var added: seq<LogEntry> := [];
      MergingStarts(a);
      var i := 0;
      while i < |a.entries|
        invariant i <= |a.entries| && Merging(was, a, i, added)
        decreases |a.entries| - i
      {
        added := MergeEntry(was, a, i, added);
        i := i + 1;
      }
      MergingEnds(was, a, added);
      StripConcat(log.entries, added);
      if added != [] { log.AppendBatch(added); } else { assert log.entries + added == log.entries; }
    }

    lemma MergingStarts(a: AppendArgs)
      requires Valid() && a.prevIndex <= |log.entries|
      ensures Merging(Strip(log.entries), a, 0, [])
    {
      hide EncodeLog, Merge;
      var ents := Stamp(false, a.term, a.entries);
      assert Strip(log.entries) + Strip([]) == Strip(log.entries) && ents[0..] == ents;
    }

    lemma MergingEnds(was: seq<Entry>, a: AppendArgs, added: seq<LogEntry>)
      requires Merging(was, a, |a.entries|, added)
      ensures Valid() && a.prevIndex <= |was|
      ensures forall j :: 0 <= j < |added| ==> added[j].index == |log.entries| + j + 1
      ensures Strip(log.entries) + Strip(added) == Merge(was, a.prevIndex, Stamp(false, a.term, a.entries))
    {
      hide EncodeLog;
      var ents := Stamp(false, a.term, a.entries);
      assert ents[|ents|..] == [];
      MergeDone(Strip(log.entries) + Strip(added), a.prevIndex + |a.entries|);
    }

    method Start()
      requires Valid()
      modifies this
      ensures Valid() && View() == if old(role) == Leader then old(View()) else StartElection(cfg, old(View()))
    {
      if role == Leader { return; }
      term := term + 1;
      votedFor := cfg.id;
      Persist();
      role := Candidate;
      election := Election(term, {}, {});
    }

    method CollectVote(voter: Id, r: VoteReply)
      requires Valid() && election.Election?
      modifies this
      ensures Valid() && View() == OnVoteReply(old(View()), voter, r)
    {
      election := election.(answered := election.answered + {voter});
      if r.term > term {
        StepDown(r.term);
        return;
      }
      if r.granted {
        election := election.(voters := election.voters + {voter});
      }
    }

    method Finish()
      requires Valid() && election.Election?
      modifies this
      ensures Valid() && View() == FinishElection(cfg, old(View()))
    {
      var votes := 1 + |election.voters|;
      election := NoElection;
      if role != Candidate { return; }
      if HasQuorum(cfg, votes) {
        role, leaderId, led := Leader, cfg.id, true;
        InitPeers();
      } else {
        StepDown(term);
      }
    }

    /** What `propose` checks first, without the mutex. */
    method SeesLeader() returns (leading: bool)
      ensures leading <==> role == Leader
    {
      leading := role == Leader;
    }

    /** What `propose` then does under the mutex, leading or not: append the command in the current term. */
    method Propose(cmd: Cmd) returns (index: nat)
      requires Valid()
      modifies log
      ensures Valid() && View() == RaftRules.Propose(old(View()), cmd) && index == |View().log|
    {
      ghost var was := log.entries;
      index := log.Append(term, cmd);
      assert Strip(log.entries) == Strip(was) + [Entry(term, cmd)];
    }

    /** What it answers when the wait ends: whether the commit index has reached the entry's index. */
    method Proposed(index: nat) returns (ok: bool)
      ensures ok <==> Answered(View(), index)
    {
      ok := commit >= index;
    }

    method PrepareAppend(peer: Id) returns (a: AppendArgs)
      requires Valid() && peer in cfg.peers
      ensures a == MakeAppend(cfg, View(), peer)
    {
      hide EncodeLog;
      hide RaftLog.TermAt, RaftLog.LastIndex, RaftRules.TermAt;
      var next := peers[peer].next;
      LogView(next - 1);
      var entries := log.GetRange(next, log.LastIndex());
      assert Strip(entries) == Suffix(Strip(log.entries), next);
      a := AppendArgs(term, cfg.id, next - 1, log.TermAt(next - 1), Strip(entries), commit);
    }

    method HandleAppendReply(peer: Id, a: AppendArgs, r: AppendReply)
      requires Valid() && peer in cfg.peers
      modifies this
      ensures Valid() && View() == OnAppendReply(AS_WRITTEN, cfg, old(View()), peer, a, r)
    {
      hide EncodeLog, LeaderCommit, FollowerCommit, Strip, Contiguous;
      if r.term > term {
        StepDown(r.term);
        return;
      }
      if r.success {
        var m := a.prevIndex + |a.entries|;
        peers := peers[peer := Peer(m + 1, m)];
        TryAdvanceCommit(a.leaderCommit);
      } else {
        var p := peers[peer];
        if p.next > 1 {
          peers := peers[peer := p.(next := p.next - 1)];
        }
      }
    }

    /** The apply loop's body: an index past the log is skipped, any other is the next to apply. */
    method ApplyIndex(idx: nat)
      requires Valid() && 1 <= idx <= commit && (idx <= |log.entries| ==> applied == idx - 1)
      modifies this`applied, this`delivered
      ensures Valid()
      ensures idx <= |log.entries| ==> CanApply(old(View())) && View() == ApplyOne(old(View()))
      ensures idx > |log.entries| ==> View() == old(View())
    {
      hide EncodeLog;
      log.Lookups(idx);
      var entry := log.Get(idx);
      if entry.Some? {
        delivered := delivered + [Delivered(idx, entry.value.command)];
        applied := idx;
      }
    }

    /** One pass of the apply thread up to the commit index it read. */
    method ApplyCommitted()
      requires Valid()
      modifies this`applied, this`delivered
      ensures Valid() && View() == ApplyAll(old(View()))
    {
      hide EncodeLog, ApplyOne, ApplyAll, Strip;
      var committed, idx := commit, applied + 1;
      while idx <= committed
        invariant old(applied) + 1 <= idx && Valid() && ApplyAll(old(View())) == ApplyAll(View())
        invariant idx <= |log.entries| + 1 ==> applied == idx - 1
        invariant idx > |log.entries| + 1 ==> applied >= |log.entries|
        decreases committed + 1 - idx
      {
        ghost var before := View();
        ApplyIndex(idx);
        if idx <= |log.entries| { ApplyNext(before); }
        idx := idx + 1;
      }
      ApplyEnd(View());
    }
  }

  function Reset(ids: seq<Id>, peer: Peer): map<Id, Peer> {
    map p | p in ids :: peer
  }

  lemma ResetSnoc(was: map<Id, Peer>, ids: seq<Id>, i: nat, peer: Peer)
    requires i < |ids|
    ensures was + Reset(ids[..i + 1], peer) == (was + Reset(ids[..i], peer))[ids[i] := peer]
  {
    assert ids[..i + 1] == ids[..i] + [ids[i]];
  }

  lemma StripConcat(es: seq<LogEntry>, more: seq<LogEntry>)
    ensures Strip(es + more) == Strip(es) + Strip(more)
  {
  }

  lemma StampRest(a: AppendArgs, i: nat)
    requires i < |a.entries|
    ensures var ents := Stamp(false, a.term, a.entries);
      ents[i..] != [] && ents[i..][0] == ents[i] == Entry(a.term, a.entries[i].cmd) && ents[i..][1..] == ents[i + 1..]
  {
  }

  lemma ApplyNext(n: Node)
    requires CanApply(n)
    ensures ApplyAll(n) == ApplyAll(ApplyOne(n)) && ApplyOne(n).applied == n.applied + 1
  {
  }

  lemma ApplyEnd(n: Node)
    requires !CanApply(n)
    ensures ApplyAll(n) == n
  {
  }

  /** Apply one entry after another until the commit index or the end of the log. */
  function ApplyAll(n: Node): Node
    decreases n.commit - n.applied
  {
    if CanApply(n) then ApplyAll(ApplyOne(n)) else n
  }

  /**
    Afterwards everything committed that the log holds is applied, each entry once and in the order of its index, and
    nothing else of the node has changed.
   */
  lemma {:induction false} ApplyAllExact(n: Node)
    ensures var n', end := ApplyAll(n), if n.commit <= |n.log| then n.commit else |n.log|;
      && n'.applied == (if n.applied < end then end else n.applied)
      && |n'.delivered| == |n.delivered| + n'.applied - n.applied && n.delivered <= n'.delivered
      && (forall j :: n.applied <= j < n'.applied ==>
            n'.delivered[|n.delivered| + j - n.applied] == Delivered(j + 1, n.log[j].cmd))
      && n' == n.(applied := n'.applied, delivered := n'.delivered)
    decreases n.commit - n.applied
  {
    if CanApply(n) { ApplyAllExact(ApplyOne(n)); }
  }

  lemma {:induction false} PeerMatchesSnoc(n: Node, peers: seq<Id>, p: Id)
    requires (forall q :: q in peers ==> q in n.peers) && p in n.peers
    ensures PeerMatches(n, peers + [p]) == PeerMatches(n, peers) + [n.peers[p].matched]
  {
    if peers != [] {
      PeerMatchesSnoc(n, peers[1..], p);
      assert (peers + [p])[1..] == peers[1..] + [p];
    }
  }

  lemma MergeSkips(log: seq<Entry>, at: nat, ents: seq<Entry>)
    requires at < |log| && ents != [] && log[at].term == ents[0].term
    ensures Merge(log, at, ents) == Merge(log, at + 1, ents[1..])
  {
  }

  lemma MergeDone(log: seq<Entry>, at: nat)
    requires at <= |log|
    ensures Merge(log, at, []) == log
  {
  }

  /** Where a shipped entry conflicts or runs past the log, it and everything after it is taken as shipped. */
  lemma MergeReplaces(log: seq<Entry>, at: nat, ents: seq<Entry>)
    requires at <= |log| && ents != [] && (at < |log| ==> log[at].term != ents[0].term)
    ensures Merge(log, at, ents) == Merge(log[..at] + [ents[0]], at + 1, ents[1..])
  {
    var l := log[..at] + [ents[0]];
    assert log[..at] + ents == l + ents[1..];
    if ents[1..] != [] {
      assert l[..at + 1] == l;
    } else {
      assert l + ents[1..] == l;
    }
  }
}
