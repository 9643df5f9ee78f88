/**
  The leader's sort-and-pick commit rule against the specification in its own comment: the highest N
  that a majority has stored and whose entry is of the current term.
 */
module RaftCommitRule {
  import opened CommitRule
  import opened RaftRules

  /** The servers known to hold index x. */
  ghost function Holders(cfg: Config, n: Node, x: nat): set<Id>
    requires forall p :: p in cfg.peers ==> p in n.peers
  {
    (if |n.log| >= x then {cfg.id} else {}) + set p | p in cfg.peers && n.peers[p].matched >= x
  }

  ghost predicate Committable(cfg: Config, n: Node, x: nat)
    requires forall p :: p in cfg.peers ==> p in n.peers
  {
    n.commit < x <= |n.log| && 2 * |Holders(cfg, n, x)| > |cfg.peers| + 1 && n.log[x - 1].term == n.term
  }

  /** The highest committable index, or no advance when there is none. */
  ghost predicate Specified(cfg: Config, n: Node, commit: nat)
    requires forall p :: p in cfg.peers ==> p in n.peers
  {
    && (commit == n.commit || Committable(cfg, n, commit))
    && (forall x: nat :: Committable(cfg, n, x) ==> x <= commit)
  }

  ghost predicate Distinct(cfg: Config) {
    cfg.id !in cfg.peers && forall i, j :: 0 <= i < j < |cfg.peers| ==> cfg.peers[i] != cfg.peers[j]
  }

  lemma {:induction false} CountMatched(n: Node, peers: seq<Id>, x: nat)
    requires forall p :: p in peers ==> p in n.peers
    requires forall i, j :: 0 <= i < j < |peers| ==> peers[i] != peers[j]
    ensures |set p | p in peers && n.peers[p].matched >= x| == CountGe(PeerMatches(n, peers), x)
  {
    var q := set p | p in peers && n.peers[p].matched >= x;
    if peers == [] {
      assert q == {};
    } else {
      var tail := peers[1..];
      CountMatched(n, tail, x);
      var r := set p | p in tail && n.peers[p].matched >= x;
      assert peers[0] !in r;
      assert q == if n.peers[peers[0]].matched >= x then r + {peers[0]} else r;
    }
  }

  lemma CountFirst(y: nat, vals: seq<nat>, x: nat)
    ensures CountGe([y] + vals, x) == (if y >= x then 1 else 0) + CountGe(vals, x)
  {
    assert ([y] + vals)[1..] == vals;
  }

  lemma AddOne(q: set<Id>, id: Id)
    requires id !in q
    ensures |{id} + q| == |q| + 1 && {} + q == q
  {
  }

  lemma HoldersCount(cfg: Config, n: Node, x: nat)
    requires Distinct(cfg) && forall p :: p in cfg.peers ==> p in n.peers
    ensures |Holders(cfg, n, x)| == CountGe(MatchValues(cfg, n), x)
  {
    CountMatched(n, cfg.peers, x);
    CountFirst(|n.log|, PeerMatches(n, cfg.peers), x);
    hide PeerMatches, CountGe;
    AddOne((set p | p in cfg.peers && n.peers[p].matched >= x), cfg.id);
  }

  /** Held by a majority means at most the picked value. */
  lemma HeldByMajority(cfg: Config, n: Node, x: nat)
    requires Distinct(cfg) && forall p :: p in cfg.peers ==> p in n.peers
    ensures 2 * |Holders(cfg, n, x)| > |cfg.peers| + 1 <==> x <= MajorityValue(MatchValues(cfg, n))
  {
    HoldersCount(cfg, n, x);
    MajorityValueIsHighest(MatchValues(cfg, n), x);
  }

  /**
    On a log with ordered terms the rule meets its specification, except when a majority of match
    indices reach past the leader's own log while its last entry could be committed: then the rule looks
    up a term past the end and does not advance.
   */
  lemma CommitRuleMeetsSpec(cfg: Config, n: Node)
    requires Distinct(cfg) && forall p :: p in cfg.peers ==> p in n.peers
    requires n.term >= 1 && Sorted(n.log) && forall i :: 0 <= i < |n.log| ==> n.log[i].term <= n.term
    ensures LeaderCommit(cfg, n) == n.(commit := LeaderCommit(cfg, n).commit)
    ensures Specified(cfg, n, LeaderCommit(cfg, n).commit) <==>
      MajorityValue(MatchValues(cfg, n)) <= |n.log| || LastTerm(n.log) != n.term || |n.log| <= n.commit
  {
    hide MajorityValue, MatchValues, Holders;
    var pick := MajorityValue(MatchValues(cfg, n));
    forall x: nat ensures 2 * |Holders(cfg, n, x)| > |cfg.peers| + 1 <==> x <= pick {
      HeldByMajority(cfg, n, x);
    }
    if pick > |n.log| && LastTerm(n.log) == n.term && |n.log| > n.commit {
      assert Committable(cfg, n, |n.log|);
    }
  }

  lemma MajorityWithin(cfg: Config, n: Node)
    requires Distinct(cfg) && forall p :: p in cfg.peers ==> p in n.peers && n.peers[p].matched <= |n.log|
    ensures MajorityValue(MatchValues(cfg, n)) <= |n.log|
  {
    hide MajorityValue, MatchValues;
    var x := |n.log| + 1;
    HeldByMajority(cfg, n, x);
    assert Holders(cfg, n, x) == {};
  }
}
