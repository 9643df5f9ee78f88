/**
  Index keys in byte order, as the column families keep them, and the big-endian sequence keys
  (seq_to_key and key_to_seq in core/src/event_store.cpp). Characters stand for bytes.
 */
module KeyOrder {
  import opened Common
  import opened Bytes

  predicate Less(a: string, b: string) {
    b != "" && (a == "" || a[0] < b[0] || (a[0] == b[0] && Less(a[1..], b[1..])))
  }

  function Chars(b: bytes): (s: string)
    ensures |s| == |b|
    ensures forall i :: 0 <= i < |b| ==> s[i] == b[i] as char
  {
    seq(|b|, i requires 0 <= i < |b| => b[i] as char)
  }

  function ToBytes(s: string): (b: bytes)
    ensures |b| == |s|
    ensures forall i :: 0 <= i < |s| ==> b[i] == s[i] as int % 256
  {
    seq(|s|, i requires 0 <= i < |s| => s[i] as int % 256)
  }

  function SeqKey(n: nat): (s: string)
    ensures |s| == 8
  {
    Chars(Be(8, n))
  }

  function SeqOf(s: string): nat {
    FromBe(ToBytes(s))
  }

  lemma SeqKeyRoundTrip(n: nat)
    requires n < Pow256(8)
    ensures SeqOf(SeqKey(n)) == n
  {
    hide Be, FromBe, Pow256;
    BeRoundTrip(8, n);
    assert ToBytes(SeqKey(n)) == Be(8, n);
  }

  // ---- the order ----

  lemma {:induction false} LessTotal(a: string, b: string)
    ensures a == b || Less(a, b) || Less(b, a)
    ensures !(Less(a, b) && Less(b, a)) && !Less(a, a)
  {
    if a != "" {
      LessTotal(a[1..], a[1..]);
      if b != "" && a[0] == b[0] {
        LessTotal(a[1..], b[1..]);
        assert a == [a[0]] + a[1..] && b == [b[0]] + b[1..];
      }
    }
  }

  lemma {:induction false} LessTransitive(a: string, b: string, c: string)
    requires Less(a, b) && Less(b, c)
    ensures Less(a, c)
  {
    if a != "" && a[0] == b[0] == c[0] { LessTransitive(a[1..], b[1..], c[1..]); }
  }

  /** The first difference decides. */
  lemma {:induction false} LessAt(a: string, b: string, k: nat)
    requires k <= |a| && k < |b| && a[..k] == b[..k] && (k == |a| || a[k] < b[k])
    ensures Less(a, b)
  {
    if k > 0 {
      assert a[0] == a[..k][0] == b[..k][0] == b[0];
      assert a[1..][..k - 1] == a[..k][1..] && b[1..][..k - 1] == b[..k][1..];
      LessAt(a[1..], b[1..], k - 1);
    }
  }

  /** Keys that ascend from each to the next ascend. */
  lemma {:induction false} AscendingSteps(keys: seq<string>, i: nat, j: nat)
    requires i < j < |keys| && forall k :: 0 <= k < |keys| - 1 ==> Less(keys[k], keys[k + 1])
    ensures Less(keys[i], keys[j])
  {
    if i + 1 < j {
      AscendingSteps(keys, i, j - 1);
      assert Less(keys[j - 1], keys[j - 1 + 1]);
      LessTransitive(keys[i], keys[j - 1], keys[j]);
    }
  }

  lemma {:induction false} LessAfterPrefix(p: string, a: string, b: string)
    ensures Less(p + a, p + b) == Less(a, b)
  {
    if p == "" {
      assert p + a == a && p + b == b;
    } else {
      LessAfterPrefix(p[1..], a, b);
      assert (p + a)[1..] == p[1..] + a && (p + b)[1..] == p[1..] + b;
    }
  }

  /** Everything from a prefix up to some key with that prefix has the prefix: such keys are contiguous. */
  lemma {:induction false} PrefixContiguous(p: string, z: string, tail: string)
    requires !Less(z, p) && !Less(p + tail, z)
    ensures StartsWith(z, p)
  {
    if p != "" {
      assert (p + tail)[1..] == p[1..] + tail;
      LessTotal(p[1..], z[1..]);
      PrefixContiguous(p[1..], z[1..], tail);
      assert z == [z[0]] + z[1..] && p == [p[0]] + p[1..];
    }
  }

  lemma {:induction false} LessThenAnything(x: string, y: string, u: string, v: string)
    requires |x| == |y| && Less(x, y)
    ensures Less(x + u, y + v)
  {
    assert (x + u)[1..] == x[1..] + u && (y + v)[1..] == y[1..] + v;
    if x[0] == y[0] { LessThenAnything(x[1..], y[1..], u, v); }
  }

  /** Big-endian bytes of one width sort like the numbers. */
  lemma {:induction false} BeOrder(k: nat, a: nat, b: nat)
    requires a < b < Pow256(k)
    ensures Less(Chars(Be(k, a)), Chars(Be(k, b)))
  {
    if k > 0 {
      var x, y := Chars(Be(k - 1, a / 256)), Chars(Be(k - 1, b / 256));
      var u, v := [(a % 256) as char], [(b % 256) as char];
      assert Chars(Be(k, a)) == x + u && Chars(Be(k, b)) == y + v;
      if a / 256 < b / 256 {
        BeOrder(k - 1, a / 256, b / 256);
        LessThenAnything(x, y, u, v);
      } else {
        LessAfterPrefix(x, u, v);
      }
    }
  }

  /** Sequence keys sort like sequence numbers, in both directions. */
  lemma SeqKeyOrder(a: nat, b: nat)
    requires a < Pow256(8) && b < Pow256(8)
    ensures Less(SeqKey(a), SeqKey(b)) <==> a < b
  {
    hide Be, Less;
    if a < b { BeOrder(8, a, b); }
    if b < a { BeOrder(8, b, a); }
    LessTotal(SeqKey(a), SeqKey(b));
  }

  // ---- an ordered key set ----

  ghost predicate Ascending(keys: seq<string>) {
    forall i, j :: 0 <= i < j < |keys| ==> Less(keys[i], keys[j])
  }

  function Put(keys: seq<string>, k: string): seq<string> {
    if keys == [] || Less(k, keys[0]) then [k] + keys
    else if k == keys[0] then keys
    else [keys[0]] + Put(keys[1..], k)
  }

  /** Putting a key keeps the order and adds that key only. */
  lemma {:induction false} PutKeeps(keys: seq<string>, k: string)
    requires Ascending(keys)
    ensures Ascending(Put(keys, k))
    ensures forall x :: x in Put(keys, k) <==> x == k || x in keys
  {
    if keys != [] {
      if Less(k, keys[0]) {
        forall i | 0 <= i < |keys| ensures Less(k, keys[i]) {
          if i > 0 { LessTransitive(k, keys[0], keys[i]); }
        }
      } else if k != keys[0] {
        var rest := keys[1..];
        LessTotal(k, keys[0]);
        PutKeeps(rest, k);
        forall x ensures x in Put(keys, k) <==> x == k || x in keys {
          assert x in keys <==> x == keys[0] || x in rest;
        }
        forall x | x in Put(rest, k) ensures Less(keys[0], x) {
          if x != k {
            var j :| 0 <= j < |rest| && rest[j] == x;
            assert keys[j + 1] == x;
          }
        }
      }
    }
  }

  /** The position of the first key that is not below the target. */
  function Seek(keys: seq<string>, target: string): (i: nat)
    ensures i <= |keys|
    ensures forall j :: 0 <= j < i ==> Less(keys[j], target)
    ensures i < |keys| ==> !Less(keys[i], target)
  {
    if keys == [] || !Less(keys[0], target) then 0 else 1 + Seek(keys[1..], target)
  }
}
