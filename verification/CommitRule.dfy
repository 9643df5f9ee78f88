/** The order statistic behind the leader's commit rule (core/src/raft/node.cpp, try_advance_commit). */
module CommitRule {
  predicate Descending(s: seq<nat>) {
    forall i, j :: 0 <= i <= j < |s| ==> s[i] >= s[j]
  }

  /** How many values are at least `x`. */
  function CountGe(s: seq<nat>, x: nat): (c: nat)
    ensures c <= |s|
  {
    if s == [] then 0 else (if s[0] >= x then 1 else 0) + CountGe(s[1..], x)
  }

  function Insert(x: nat, s: seq<nat>): (r: seq<nat>)
    ensures |r| == |s| + 1
  {
    if s == [] || x >= s[0] then [x] + s else [s[0]] + Insert(x, s[1..])
  }

  function SortDesc(s: seq<nat>): (r: seq<nat>)
    ensures |r| == |s|
  {
    if s == [] then [] else Insert(s[0], SortDesc(s[1..]))
  }

  /** The value a strict majority of the entries reach: position |s|/2 of the descending order. */
  function MajorityValue(s: seq<nat>): nat
    requires s != []
  {
    SortDesc(s)[|s| / 2]
  }

  lemma {:induction false} InsertCounts(x: nat, s: seq<nat>, y: nat)
    ensures CountGe(Insert(x, s), y) == CountGe([x] + s, y)
  {
    assert ([x] + s)[1..] == s;
    if s != [] && x < s[0] {
      InsertCounts(x, s[1..], y);
      assert ([s[0]] + Insert(x, s[1..]))[1..] == Insert(x, s[1..]);
      assert ([x] + s[1..])[1..] == s[1..];
    }
  }

  lemma {:induction false} SortCounts(s: seq<nat>, y: nat)
    ensures CountGe(SortDesc(s), y) == CountGe(s, y)
  {
    if s != [] {
      SortCounts(s[1..], y);
      InsertCounts(s[0], SortDesc(s[1..]), y);
      assert ([s[0]] + SortDesc(s[1..]))[1..] == SortDesc(s[1..]);
    }
  }

  lemma {:induction false} InsertDescending(x: nat, s: seq<nat>)
    requires Descending(s)
    ensures Descending(Insert(x, s))
  {
    if s != [] && x < s[0] {
      InsertDescending(x, s[1..]);
      var t := Insert(x, s[1..]);
      assert t[0] <= s[0];
      forall i, j | 0 <= i <= j <= |s| ensures ([s[0]] + t)[i] >= ([s[0]] + t)[j] {
        if 0 < j { assert t[0] >= t[j - 1]; }
      }
    }
  }

  lemma {:induction false} SortDescending(s: seq<nat>)
    ensures Descending(SortDesc(s))
  {
    if s != [] {
      SortDescending(s[1..]);
      InsertDescending(s[0], SortDesc(s[1..]));
    }
  }

  /** In a descending sequence the values reaching x are exactly a prefix. */
  lemma {:induction false} CountPrefix(s: seq<nat>, x: nat, m: nat)
    requires Descending(s) && m < |s|
    ensures s[m] >= x <==> CountGe(s, x) > m
  {
    if m == 0 {
      if s[0] < x { NoneReach(s, x); }
    } else {
      CountPrefix(s[1..], x, m - 1);
      if s[0] < x { NoneReach(s, x); }
    }
  }

  lemma {:induction false} NoneReach(s: seq<nat>, x: nat)
    requires forall i :: 0 <= i < |s| ==> s[i] < x
    ensures CountGe(s, x) == 0
  {
    if s != [] { NoneReach(s[1..], x); }
  }

  /** MajorityValue is the largest value reached by a strict majority. */
  lemma MajorityValueIsHighest(s: seq<nat>, x: nat)
    requires s != []
    ensures x <= MajorityValue(s) <==> 2 * CountGe(s, x) > |s|
  {
    SortDescending(s);
    SortCounts(s, x);
    CountPrefix(SortDesc(s), x, |s| / 2);
  }
}
