/**
  What re-stamping changes. The receiver as written and the receiver the transport header describes
  leave the same state exactly when every entry of an accepted request has the sender's term. So runs
  that only ever ship own-term entries, process replies, propose and ship while still leading, and tear
  no cut are contract runs.
 */
module RaftStamping {
  import opened RaftRules
  import opened RaftCluster
  import opened RaftSafety

  /** Every shipped entry has the sender's own term. */
  predicate OwnTerm(a: AppendArgs) {
    forall e :: e in a.entries ==> e.term == a.term
  }

  lemma {:induction false} MergeTerms(log: seq<Entry>, at: nat, ents: seq<Entry>, j: nat)
    requires at <= |log| && j < |ents|
    ensures at + |ents| <= |Merge(log, at, ents)| && Merge(log, at, ents)[at + j].term == ents[j].term
    decreases |ents|
  {
    if at < |log| && log[at].term == ents[0].term {
      MergeKeepsBelow(log, at + 1, ents[1..]);
      if j > 0 { MergeTerms(log, at + 1, ents[1..], j - 1); }
    }
  }

  lemma {:induction false} MergeKeepsBelow(log: seq<Entry>, at: nat, ents: seq<Entry>)
    requires at <= |log|
    ensures |Merge(log, at, ents)| >= at + |ents| && Merge(log, at, ents)[..at] == log[..at]
    decreases |ents|
  {
    if ents != [] && at < |log| && log[at].term == ents[0].term {
      MergeKeepsBelow(log, at + 1, ents[1..]);
      assert Merge(log, at, ents)[..at] == Merge(log, at, ents)[..at + 1][..at];
      assert log[..at] == log[..at + 1][..at];
    }
  }

  /** Exactly when re-stamping makes no difference to the receiver. */
  lemma StampingMatters(mode: Mode, n: Node, a: AppendArgs)
    ensures HandleAppend(mode.(wire := false), n, a).1 == HandleAppend(mode.(wire := true), n, a).1
    ensures HandleAppend(mode.(wire := false), n, a) == HandleAppend(mode.(wire := true), n, a) <==>
      !HandleAppend(mode.(wire := true), n, a).1.success || OwnTerm(a)
  {
    var x, y := HandleAppend(mode.(wire := false), n, a), HandleAppend(mode.(wire := true), n, a);
    if y.1.success {
      var stamped := Stamp(false, a.term, a.entries);
      if OwnTerm(a) {
        assert stamped == a.entries;
      } else {
        var e :| e in a.entries && e.term != a.term;
        var j :| 0 <= j < |a.entries| && a.entries[j] == e;
        MergeTerms(n.log, a.prevIndex, stamped, j);
        MergeTerms(n.log, a.prevIndex, a.entries, j);
        assert x.0.log[a.prevIndex + j].term != y.0.log[a.prevIndex + j].term;
      }
    }
  }

  /** The conditions a deployment could check as it runs. */
  predicate Tame(c: Conf, s: Cluster, a: Action)
    requires Shape(c, s) && Enabled(c, s, a)
  {
    && (a.RecvAppendReq? && HandleAppend(c.mode, s.nodes[a.i], a.m.aargs).1.success ==> OwnTerm(a.m.aargs))
    && (a.RecvAppendResp? ==> s.nodes[a.i].role == Leader && s.nodes[a.i].term == a.m.request.term)
    && (a.ClientPropose? || a.SendAppend? ==> s.nodes[a.i].role == Leader)
    && !a.TornCut?
  }

  predicate TameRun(c: Conf, acts: seq<Action>)
    requires Run(c, acts).At?
  {
    acts == [] ||
    var prev := acts[..|acts| - 1];
    TameRun(c, prev) && Tame(c, Run(c, prev).state, acts[|acts| - 1])
  }

  lemma TameStep(ids: seq<Id>, s: Cluster, a: Action)
    requires Shape(Conf(ids, AS_WRITTEN), s) && Enabled(Conf(ids, AS_WRITTEN), s, a) && Tame(Conf(ids, AS_WRITTEN), s, a)
    ensures Shape(Conf(ids, CONTRACT), s) && Enabled(Conf(ids, CONTRACT), s, a)
    ensures Next(Conf(ids, AS_WRITTEN), s, a) == Next(Conf(ids, CONTRACT), s, a)
  {
    var c, d := Conf(ids, AS_WRITTEN), Conf(ids, CONTRACT);
    assert forall i, n :: NodeShape(c, i, n) == NodeShape(d, i, n);
    assert CfgOf(c, a.i) == CfgOf(d, a.i);
    if a.RecvAppendReq? {
      hide HandleAppend;
      StampingMatters(AS_WRITTEN, s.nodes[a.i], a.m.aargs);
      SameHandler(s.nodes[a.i], a.m.aargs);
    }
  }

  lemma SameHandler(n: Node, a: AppendArgs)
    ensures HandleAppend(AS_WRITTEN.(wire := true), n, a) == HandleAppend(CONTRACT, n, a)
  {
  }

  lemma {:induction false} TameRunsAreContractRuns(ids: seq<Id>, acts: seq<Action>)
    requires Run(Conf(ids, AS_WRITTEN), acts).At? && TameRun(Conf(ids, AS_WRITTEN), acts)
    ensures Run(Conf(ids, CONTRACT), acts) == Run(Conf(ids, AS_WRITTEN), acts)
  {
    hide Next, Enabled, Effect;
    if acts == [] {
      assert Init(Conf(ids, CONTRACT)).nodes == Init(Conf(ids, AS_WRITTEN)).nodes;
    } else {
      var prev := acts[..|acts| - 1];
      TameRunsAreContractRuns(ids, prev);
      TameStep(ids, Run(Conf(ids, AS_WRITTEN), prev).state, acts[|acts| - 1]);
    }
  }

  /** On such runs the code as written is safe. */
  lemma AsWrittenSafeWhenTame(ids: seq<Id>, acts: seq<Action>, d: Delivered, e: Delivered)
    requires WellFormed(Conf(ids, AS_WRITTEN)) && Run(Conf(ids, AS_WRITTEN), acts).At? && TameRun(Conf(ids, AS_WRITTEN), acts)
    requires d in Run(Conf(ids, AS_WRITTEN), acts).state.hist.applied
    requires e in Run(Conf(ids, AS_WRITTEN), acts).state.hist.applied && d.index == e.index
    ensures d == e
  {
    hide Run, TameRun;
    TameRunsAreContractRuns(ids, acts);
    StateMachineSafety(Conf(ids, CONTRACT), acts, d, e);
  }
}
