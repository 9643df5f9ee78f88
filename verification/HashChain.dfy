/** Event hashes and chain verification (core/src/hash_chain.cpp). The digest is an arbitrary function. */
module HashChain {
  import opened CanonicalEvent
  import opened EventReader

  /** Maps a text to its digest in hexadecimal. */
  type Digest = string -> string

  function Sha256Hex(sha: Digest, data: string): (h: string)
    ensures h != ""
  {
    "sha256:" + sha(data)
  }

  function EventHash(sha: Digest, ev: Event): (h: string)
    ensures h != ""
  {
    Sha256Hex(sha, Canonical(ev))
  }

  /** Absent and null payloads hash as the empty object. */
  function PayloadHash(sha: Digest, payload: string): string {
    Sha256Hex(sha, Effective(payload))
  }

  function Effective(payload: string): string {
    if payload == "" || payload == "null" then "{}" else payload
  }

  predicate EmptyPayload(payload: string) {
    payload == "" || payload == "null" || payload == "{}"
  }

  /** Two payloads have one hash exactly when they are the same, are both empty, or collide. */
  lemma PayloadHashPins(sha: Digest, p: string, q: string)
    ensures PayloadHash(sha, p) == PayloadHash(sha, q) <==>
      p == q || (EmptyPayload(p) && EmptyPayload(q)) ||
      (Effective(p) != Effective(q) && sha(Effective(p)) == sha(Effective(q)))
  {
    assert PayloadHash(sha, p)[7..] == sha(Effective(p)) && PayloadHash(sha, q)[7..] == sha(Effective(q));
  }

  /** Hash of the last event, or nothing. */
  function Head(evs: seq<Event>): string {
    if evs == [] then "" else evs[|evs| - 1].eventHash
  }

  /** The event names its predecessor's hash and carries its own. */
  ghost predicate Good(sha: Digest, previous: string, ev: Event) {
    ev.previousEventHash == previous && ev.eventHash == EventHash(sha, ev)
  }

  ghost predicate GoodAt(sha: Digest, evs: seq<Event>, i: nat)
    requires i < |evs|
  {
    Good(sha, Head(evs[..i]), evs[i])
  }

  ghost predicate Chain(sha: Digest, evs: seq<Event>) {
    forall i :: 0 <= i < |evs| ==> GoodAt(sha, evs, i)
  }

  lemma GoodPrefix(sha: Digest, evs: seq<Event>, n: nat, i: nat)
    requires i < n <= |evs|
    ensures GoodAt(sha, evs[..n], i) == GoodAt(sha, evs, i)
  {
    hide Good;
    assert evs[..n][..i] == evs[..i];
  }

  lemma PrefixChain(sha: Digest, evs: seq<Event>, n: nat)
    requires n <= |evs| && forall j :: 0 <= j < n ==> GoodAt(sha, evs, j)
    ensures Chain(sha, evs[..n])
  {
    hide GoodAt;
    forall i | 0 <= i < n ensures GoodAt(sha, evs[..n], i) {
      GoodPrefix(sha, evs, n, i);
    }
  }

  /** A chain grows by an event that names its head. */
  lemma ChainSnoc(sha: Digest, evs: seq<Event>, ev: Event)
    requires Chain(sha, evs) && Good(sha, Head(evs), ev)
    ensures Chain(sha, evs + [ev])
  {
    var all := evs + [ev];
    assert all[..|evs|] == evs;
    assert GoodAt(sha, all, |evs|);
    hide GoodAt;
    forall i | 0 <= i < |evs| ensures GoodAt(sha, all, i) {
      GoodPrefix(sha, all, |evs|, i);
    }
  }

  ghost predicate FirstBad(sha: Digest, evs: seq<Event>, k: nat)
    requires k < |evs|
  {
    Chain(sha, evs[..k]) && !GoodAt(sha, evs, k)
  }

  datatype Verdict = Verdict(runId: string, valid: bool, eventCount: nat, brokenAt: string)

  /** Accepts exactly the chains; a rejection names the first bad event, and what is before it is a chain. */
  method VerifyChain(sha: Digest, events: seq<Event>, runId: string) returns (result: Verdict)
    ensures result.runId == runId && result.eventCount == |events|
    ensures result.valid <==> Chain(sha, events)
    ensures result.valid ==> result.brokenAt == ""
    ensures !result.valid ==> exists k :: 0 <= k < |events| && FirstBad(sha, events, k) && result.brokenAt == events[k].eventId
  {
    hide Canonical, Chain;
    var expectedPrev := "";
    for i := 0 to |events|
      invariant expectedPrev == Head(events[..i])
      invariant forall j :: 0 <= j < i ==> GoodAt(sha, events, j)
    {
      var ev := events[i];
      if ev.previousEventHash != expectedPrev {
        FirstBadRejects(sha, events, i);
        return Verdict(runId, false, |events|, ev.eventId);
      }
      var text := CanonicalJsonEvent(ev);
      if Sha256Hex(sha, text) != ev.eventHash {
        FirstBadRejects(sha, events, i);
        return Verdict(runId, false, |events|, ev.eventId);
      }
      expectedPrev := ev.eventHash;
    }
    PrefixChain(sha, events, |events|);
    assert events[..|events|] == events;
    result := Verdict(runId, true, |events|, "");
  }

  lemma FirstBadRejects(sha: Digest, evs: seq<Event>, k: nat)
    requires k < |evs| && !GoodAt(sha, evs, k) && forall j :: 0 <= j < k ==> GoodAt(sha, evs, j)
    ensures FirstBad(sha, evs, k) && !Chain(sha, evs)
  {
    hide GoodAt;
    PrefixChain(sha, evs, k);
  }

  /** Equal in everything but the sequence number, the payload up to null, and the step index up to sign. */
  ghost predicate SameHistory(a: seq<Event>, b: seq<Event>) {
    |a| == |b| && forall i :: 0 <= i < |a| ==> Hashed(a[i]) == Hashed(b[i]) && a[i].eventHash == b[i].eventHash
  }

  /** Two different canonical texts, one from each history, with one digest. */
  ghost predicate Collision(sha: Digest, a: seq<Event>, b: seq<Event>, x: Event, y: Event) {
    x in a && y in b && Canonical(x) != Canonical(y) && sha(Canonical(x)) == sha(Canonical(y))
  }

  /** The head hash pins the history: two chains with one head are the same, or here is a collision. */
  lemma {:induction false} HeadPinsHistory(sha: Digest, a: seq<Event>, b: seq<Event>) returns (x: Event, y: Event)
    requires Chain(sha, a) && Chain(sha, b) && Head(a) == Head(b)
    ensures SameHistory(a, b) || Collision(sha, a, b, x, y)
    decreases |a|
  {
    hide Canonical, Hashed;
    EmptyHead(sha, a);
    EmptyHead(sha, b);
    if a == [] {
      x, y := *, *;
    } else {
      var n, m := |a| - 1, |b| - 1;
      x, y := a[n], b[m];
      assert GoodAt(sha, a, n) && GoodAt(sha, b, m);
      DigestSame(sha, x, y);
      if Canonical(x) == Canonical(y) {
        CanonicalInjective(x, y);
        HashedPrevious(x, y);
        PrefixChain(sha, a, n);
        PrefixChain(sha, b, m);
        x, y := HeadPinsHistory(sha, a[..n], b[..m]);
      }
    }
  }

  lemma EmptyHead(sha: Digest, evs: seq<Event>)
    requires Chain(sha, evs)
    ensures Head(evs) == "" <==> evs == []
  {
    hide Canonical;
    if evs != [] { assert GoodAt(sha, evs, |evs| - 1); }
  }

  lemma DigestSame(sha: Digest, x: Event, y: Event)
    requires EventHash(sha, x) == EventHash(sha, y)
    ensures sha(Canonical(x)) == sha(Canonical(y))
  {
    hide Canonical;
    assert Sha256Hex(sha, Canonical(x))[7..] == sha(Canonical(x));
    assert Sha256Hex(sha, Canonical(y))[7..] == sha(Canonical(y));
  }

  lemma HashedPrevious(x: Event, y: Event)
    requires Hashed(x) == Hashed(y)
    ensures x.previousEventHash == y.previousEventHash
  {
    assert Hashed(x).previousEventHash == x.previousEventHash;
  }
}
