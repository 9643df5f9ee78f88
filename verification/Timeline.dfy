/** Reading a run's events through the key index, page by page (core/src/event_store.cpp, timeline). */
module Timeline {
  import opened Common
  import opened Bytes
  import opened CanonicalEvent
  import opened HashChain
  import opened KeyOrder
  import opened StoreRules

  /** The events numbered above the cursor. */
  function After(evs: seq<Event>, cursor: Option<nat>): seq<Event> {
    if cursor.None? then evs
    else if evs == [] then []
    else (if evs[0].sequence > cursor.value then [evs[0]] else []) + After(evs[1..], cursor)
  }

  function Take(evs: seq<Event>, n: nat): seq<Event> {
    if n < |evs| then evs[..n] else evs
  }

  function LastNumber(evs: seq<Event>): nat {
    if evs == [] then 0 else evs[|evs| - 1].sequence
  }

  /** A correct page: the first events above the cursor; a next cursor only when full, none only when nothing is left. */
  ghost predicate IsPage(evs: seq<Event>, limit: nat, cursor: Option<nat>, events: seq<Event>, next: Option<nat>) {
    && events == Take(After(evs, cursor), limit)
    && (next.Some? ==> |events| == limit && next.value == LastNumber(events))
    && (next.None? ==> events == After(evs, cursor))
  }

  lemma {:induction false} AllAfter(evs: seq<Event>, cursor: Option<nat>)
    requires cursor.Some? ==> forall i :: 0 <= i < |evs| ==> evs[i].sequence > cursor.value
    ensures After(evs, cursor) == evs
  {
    if cursor.Some? && evs != [] {
      AllAfter(evs[1..], cursor);
      assert [evs[0]] + evs[1..] == evs;
    }
  }

  /** In a rising list the events above the cursor are a suffix. */
  lemma {:induction false} AfterIsSuffix(evs: seq<Event>, cursor: Option<nat>) returns (k: nat)
    requires Rising(evs)
    ensures k <= |evs| && After(evs, cursor) == evs[k..]
    ensures cursor.None? ==> k == 0
    ensures cursor.Some? ==> forall i :: 0 <= i < |evs| ==> (evs[i].sequence > cursor.value <==> i >= k)
  {
    if cursor.None? || evs == [] || evs[0].sequence > cursor.value {
      assert forall i :: 0 <= i < |evs| ==> evs[0].sequence <= evs[i].sequence;
      hide After;
      AllAfter(evs, cursor);
      k := 0;
    } else {
      var rest := evs[1..];
      var j := AfterIsSuffix(rest, cursor);
      k := j + 1;
      assert After(evs, cursor) == After(rest, cursor) && rest[j..] == evs[k..];
      hide After, Rising;
      forall i | 0 <= i < |evs| ensures evs[i].sequence > cursor.value <==> i >= k {
        if i > 0 { assert evs[i] == rest[i - 1]; }
      }
    }
  }

  // ---- a run's keys in the index ----

  function Prefix(runId: string): string {
    runId + ":"
  }

  /** The keys with the run's prefix are exactly those of its events. */
  ghost predicate RunSlice(keys: seq<string>, runId: string, evs: seq<Event>) {
    && Ascending(keys) && Rising(evs) && (forall e :: e in evs ==> e.sequence < Pow256(8))
    && (forall j :: 0 <= j < |evs| ==> RunKey(runId, evs[j].sequence) in keys)
    && (forall x :: x in keys && StartsWith(x, Prefix(runId)) ==>
         exists j :: 0 <= j < |evs| && x == RunKey(runId, evs[j].sequence))
  }

  lemma RunKeyOrder(runId: string, a: nat, b: nat)
    requires a < Pow256(8) && b < Pow256(8)
    ensures Less(RunKey(runId, a), RunKey(runId, b)) <==> a < b
  {
    hide SeqKey, Less, Pow256;
    LessAfterPrefix(Prefix(runId), SeqKey(a), SeqKey(b));
    SeqKeyOrder(a, b);
  }

  lemma {:induction false} ColonSplit(a: string, u: string, b: string)
    requires ':' !in a && ':' !in b && StartsWith(a + ":" + u, b + ":")
    ensures a == b
  {
    var x, y := a + ":" + u, b + ":";
    assert x[0] == x[..|y|][0] == y[0];
    assert a != "" ==> a[0] in a;
    assert b != "" ==> b[0] in b;
    if a != "" && b != "" {
      assert x[1..] == a[1..] + ":" + u && y[1..] == b[1..] + ":";
      assert x[1..][..|y| - 1] == x[..|y|][1..];
      ColonSplit(a[1..], u, b[1..]);
    }
  }

  /** Run ids hold no colon, so no other run's key has the run's prefix. */
  lemma RunSliceOf(sha: Digest, s: Store, log: Log, runId: string)
    requires Inv(sha, s, log) && s.savedSeq < LIMIT && runId in s.runs && forall r :: r in s.runs ==> ':' !in r
    ensures RunSlice(s.byRun, runId, log[runId])
    ensures forall e :: e in log[runId] ==> SeqKey(e.sequence) in s.events && s.events[SeqKey(e.sequence)] == e
    ensures Chain(sha, log[runId])
  {
    hide SeqKey, Chain, Ascending, RunKey, StartsWith, IndexInv, StoredIn;
    Pow256Values();
    var evs := log[runId];
    forall e | e in evs
      ensures SeqKey(e.sequence) in s.events && s.events[SeqKey(e.sequence)] == e
    {
      InLog(log, runId, e);
    }
    forall j | 0 <= j < |evs| ensures RunKey(runId, evs[j].sequence) in s.byRun {
      assert evs[j] in evs;
      KeyIn(s, SeqKey(evs[j].sequence));
    }
    forall x | x in s.byRun && StartsWith(x, Prefix(runId))
      ensures exists j :: 0 <= j < |evs| && x == RunKey(runId, evs[j].sequence)
    {
      var k := KeyFrom(s, x);
      var e := s.events[k];
      var r := LogOf(log, e);
      assert e.runId == r;
      RunKeySplit(e.runId, e.sequence, runId);
      var j :| 0 <= j < |evs| && evs[j] == e;
    }
    AscendingOf(s);
  }

  lemma RunKeySplit(r: string, n: nat, runId: string)
    requires ':' !in r && ':' !in runId && StartsWith(RunKey(r, n), Prefix(runId))
    ensures r == runId
  {
    ColonSplit(r, SeqKey(n), runId);
  }

  function TypePrefix(orgId: string, projectId: string, eventType: string): string {
    orgId + ":" + projectId + ":" + eventType + ":"
  }

  /** Of an event of the organisation, the project and the type. */
  predicate OfType(e: Event, orgId: string, projectId: string, eventType: string) {
    e.orgId == orgId && e.projectId == projectId && e.eventType == eventType
  }

  predicate NoColons(e: Event) {
    ':' !in e.orgId && ':' !in e.projectId && ':' !in e.eventType
  }

  /** Names hold no colon, so the type index's keys with a prefix are exactly those of the events it names. */
  lemma TypeSliceOf(s: Store, orgId: string, projectId: string, eventType: string, x: string)
    requires IndexInv(s) && ':' !in orgId && ':' !in projectId && ':' !in eventType
    requires forall k :: k in s.events ==> NoColons(s.events[k])
    ensures x in s.byType && StartsWith(x, TypePrefix(orgId, projectId, eventType)) <==>
      exists k :: k in s.events && OfType(s.events[k], orgId, projectId, eventType)
                  && x == TypePrefix(orgId, projectId, eventType) + SeqKey(s.events[k].sequence)
  {
    hide SeqKey, Ascending, NoColons, RunKey;
    var prefix := TypePrefix(orgId, projectId, eventType);
    if x in s.byType && StartsWith(x, prefix) {
      var k :| k in s.events && x == TypeKey(s.events[k]);
      TypeKeySplit(s.events[k], orgId, projectId, eventType);
    }
    if k :| k in s.events && OfType(s.events[k], orgId, projectId, eventType) && x == prefix + SeqKey(s.events[k].sequence) {
      assert x == TypeKey(s.events[k]);
    }
  }

  lemma TypeKeySplit(e: Event, orgId: string, projectId: string, eventType: string)
    requires ':' !in orgId && ':' !in projectId && ':' !in eventType && NoColons(e)
    requires StartsWith(TypeKey(e), TypePrefix(orgId, projectId, eventType))
    ensures OfType(e, orgId, projectId, eventType)
  {
    hide SeqKey;
    var c := SeqKey(e.sequence);
    var b, b' := e.eventType + ":" + c, eventType + ":";
    var a, a' := e.projectId + ":" + b, projectId + ":" + b';
    assert TypeKey(e) == e.orgId + ":" + a && TypePrefix(orgId, projectId, eventType) == orgId + ":" + a';
    OneSplit(e.orgId, a, orgId, a');
    OneSplit(e.projectId, b, projectId, b');
    ColonSplit(e.eventType, c, eventType);
  }

  /** The first colon ends the first name. */
  lemma OneSplit(a: string, u: string, b: string, v: string)
    requires ':' !in a && ':' !in b && StartsWith(a + ":" + u, b + ":" + v)
    ensures a == b && StartsWith(u, v)
  {
    var x, y := a + ":" + u, b + ":" + v;
    assert y[..|b| + 1] == b + ":" && x[..|b| + 1] == x[..|y|][..|b| + 1];
    ColonSplit(a, u, b);
    assert x[..|y|][|a| + 1..] == u[..|v|] && y[|a| + 1..] == v;
  }

  lemma AscendingOf(s: Store)
    requires IndexInv(s)
    ensures Ascending(s.byRun)
  {
  }

  lemma InLog(log: Log, r: string, e: Event)
    requires r in log && e in log[r]
    ensures StoredIn(log, e)
  {
  }

  lemma LogOf(log: Log, e: Event) returns (r: string)
    requires StoredIn(log, e)
    ensures r in log && e in log[r]
  {
    r :| r in log && e in log[r];
  }

  lemma KeyIn(s: Store, k: string)
    requires IndexInv(s) && k in s.events
    ensures RunKey(s.events[k].runId, s.events[k].sequence) in s.byRun
  {
  }

  lemma KeyFrom(s: Store, x: string) returns (k: string)
    requires IndexInv(s) && x in s.byRun
    ensures k in s.events && x == RunKey(s.events[k].runId, s.events[k].sequence)
  {
    k :| k in s.events && x == RunKey(s.events[k].runId, s.events[k].sequence);
  }

  /** The iterator stands at the run's k-th key, or past all of them. */
  ghost predicate At(keys: seq<string>, runId: string, evs: seq<Event>, idx: nat, k: nat) {
    && idx <= |keys| && k <= |evs|
    && (k < |evs| ==> idx < |keys| && keys[idx] == RunKey(runId, evs[k].sequence))
    && (k == |evs| && idx < |keys| ==> !StartsWith(keys[idx], Prefix(runId)) && !Less(keys[idx], Prefix(runId)))
  }

  lemma PrefixLow(runId: string, n: nat)
    ensures !Less(RunKey(runId, n), Prefix(runId))
  {
    hide SeqKey;
    LessAfterPrefix(Prefix(runId), SeqKey(n), "");
    assert Prefix(runId) + "" == Prefix(runId);
  }

  /** Wherever the keys before are of earlier events and the key here is not, the next event's key is here. */
  lemma Landing(keys: seq<string>, runId: string, evs: seq<Event>, idx: nat, k: nat)
    requires RunSlice(keys, runId, evs) && idx <= |keys| && k <= |evs|
    requires idx < |keys| ==> !Less(keys[idx], Prefix(runId))
    requires forall i, j :: 0 <= i < idx && k <= j < |evs| ==> keys[i] != RunKey(runId, evs[j].sequence)
    requires idx < |keys| ==> forall j :: 0 <= j < k ==> keys[idx] != RunKey(runId, evs[j].sequence)
    ensures At(keys, runId, evs, idx, k)
  {
    hide RunKey, StartsWith, Less, Pow256;
    if k < |evs| {
      var target := RunKey(runId, evs[k].sequence);
      assert target in keys;
      var q :| 0 <= q < |keys| && keys[q] == target;
      if idx < q {
        LessTotal(keys[idx], target);
        KeyHasPrefix(keys[idx], runId, evs[k].sequence);
        var j :| 0 <= j < |evs| && keys[idx] == RunKey(runId, evs[j].sequence);
        assert evs[j] in evs && evs[k] in evs;
        RunKeyOrder(runId, evs[j].sequence, evs[k].sequence);
      }
    }
  }

  lemma KeyHasPrefix(z: string, runId: string, n: nat)
    requires !Less(z, Prefix(runId)) && !Less(RunKey(runId, n), z)
    ensures StartsWith(z, Prefix(runId))
  {
    PrefixContiguous(Prefix(runId), z, SeqKey(n));
  }

  /** Moving the iterator one key on moves to the run's next event. */
  lemma NextLands(keys: seq<string>, runId: string, evs: seq<Event>, idx: nat, k: nat)
    requires RunSlice(keys, runId, evs) && At(keys, runId, evs, idx, k) && k < |evs|
    ensures At(keys, runId, evs, idx + 1, k + 1)
  {
    hide RunKey, StartsWith, Less, Pow256;
    var here := keys[idx];
    PrefixLow(runId, evs[k].sequence);
    forall i, j | 0 <= i < idx + 1 && k + 1 <= j < |evs| ensures keys[i] != RunKey(runId, evs[j].sequence) {
      assert evs[j] in evs && evs[k] in evs;
      RunKeyOrder(runId, evs[k].sequence, evs[j].sequence);
      LessTotal(here, keys[i]);
      assert i < idx ==> Less(keys[i], here);
    }
    if idx + 1 < |keys| {
      assert Less(here, keys[idx + 1]);
      forall j | 0 <= j < k + 1 ensures keys[idx + 1] != RunKey(runId, evs[j].sequence) {
        assert evs[j] in evs && evs[k] in evs;
        RunKeyOrder(runId, evs[k].sequence, evs[j].sequence);
      }
      if Less(keys[idx + 1], Prefix(runId)) { LessTransitive(here, keys[idx + 1], Prefix(runId)); }
    }
    Landing(keys, runId, evs, idx + 1, k + 1);
  }

  function Target(runId: string, cursor: Option<nat>): string {
    if cursor.Some? then Prefix(runId) + SeqKey(cursor.value + 1) else Prefix(runId)
  }

  /** Some key of the index, of whatever run, lies past the page: past its last event, or past the cursor when it is empty. */
  ghost predicate MoreKeys(keys: seq<string>, runId: string, cursor: Option<nat>, page: seq<Event>) {
    exists x :: x in keys &&
      if page == [] then !Less(x, Target(runId, cursor)) else Less(RunKey(runId, LastNumber(page)), x)
  }

  /** An iterator that has read the page is still on a key exactly when there is one past the page. */
  lemma MoreExact(keys: seq<string>, runId: string, cursor: Option<nat>, idx: nat, page: seq<Event>)
    requires Ascending(keys) && idx <= |keys|
    requires if page == [] then idx == Seek(keys, Target(runId, cursor))
             else idx > 0 && keys[idx - 1] == RunKey(runId, LastNumber(page))
    ensures idx < |keys| <==> MoreKeys(keys, runId, cursor, page)
  {
    hide RunKey, Target, Less, Seek;
    if idx < |keys| {
      assert keys[idx] in keys;
      assert page != [] ==> Less(keys[idx - 1], keys[idx]);
    } else if MoreKeys(keys, runId, cursor, page) {
      var x :| x in keys && if page == [] then !Less(x, Target(runId, cursor)) else Less(RunKey(runId, LastNumber(page)), x);
      var j :| 0 <= j < |keys| && keys[j] == x;
      if page != [] { LessTotal(keys[idx - 1], x); }
    }
  }

  /** Seeking past the cursor lands on the first event above it. */
  lemma SeekLands(keys: seq<string>, runId: string, evs: seq<Event>, cursor: Option<nat>, k: nat)
    requires RunSlice(keys, runId, evs) && k <= |evs|
    requires cursor.None? ==> k == 0
    requires cursor.Some? ==> cursor.value + 1 < Pow256(8)
    requires cursor.Some? ==> forall i :: 0 <= i < |evs| ==> (evs[i].sequence > cursor.value <==> i >= k)
    ensures At(keys, runId, evs, Seek(keys, Target(runId, cursor)), k)
  {
    hide StartsWith, Less, Pow256, Seek;
    var target := Target(runId, cursor);
    var idx := Seek(keys, target);
    assert !Less(target, Prefix(runId)) by {
      if cursor.Some? { PrefixLow(runId, cursor.value + 1); } else { LessTotal(target, target); }
    }
    forall j | 0 <= j < |evs| ensures Less(RunKey(runId, evs[j].sequence), target) <==> j < k {
      assert evs[j] in evs;
      if cursor.Some? {
        RunKeyOrder(runId, evs[j].sequence, cursor.value + 1);
      } else {
        PrefixLow(runId, evs[j].sequence);
      }
    }
    if idx < |keys| {
      LessTotal(keys[idx], target);
      if Less(keys[idx], Prefix(runId)) {
        LessTotal(target, Prefix(runId));
        if Less(target, keys[idx]) { LessTransitive(target, keys[idx], Prefix(runId)); }
      }
    }
    Landing(keys, runId, evs, idx, k);
  }

  // ---- following cursors ----

  /** One page of a session, with the run's events at the time it was read. */
  datatype Visit = Visit(evs: seq<Event>, limit: nat, events: seq<Event>, next: Option<nat>)

  ghost predicate VisitOk(v: Visit, cursor: Option<nat>) {
    v.limit >= 1 && Rising(v.evs) && IsPage(v.evs, v.limit, cursor, v.events, v.next)
  }

  /** Each page continues from the one before; between pages events may have been appended. */
  ghost predicate Session(vs: seq<Visit>) {
    forall i :: 0 <= i < |vs| ==> LinkAt(vs, i)
  }

  ghost predicate LinkAt(vs: seq<Visit>, i: nat)
    requires i < |vs|
  {
    if i == 0 then VisitOk(vs[0], None) else Follows(vs[i - 1], vs[i])
  }

  ghost predicate Follows(before: Visit, v: Visit) {
    before.next.Some? && VisitOk(v, before.next) && before.evs <= v.evs
  }

  function Collected(vs: seq<Visit>): seq<Event> {
    if vs == [] then [] else Collected(vs[..|vs| - 1]) + vs[|vs| - 1].events
  }

  /** One more page extends what was collected, and completes it when it has no next cursor. */
  lemma PageExtends(evs: seq<Event>, got: seq<Event>, cursor: Option<nat>, v: Visit)
    requires VisitOk(v, cursor) && evs <= v.evs && got <= evs
    requires if cursor.None? then got == [] else got != [] && cursor.value == LastNumber(got)
    ensures got + v.events <= v.evs
    ensures v.next.Some? ==> |v.events| >= 1 && v.next.value == LastNumber(got + v.events)
    ensures v.next.None? ==> got + v.events == v.evs
  {
    hide After, Rising;
    Remaining(v.evs, got, cursor);
    var rest := v.evs[|got|..];
    var n := |v.events|;
    assert n <= |rest| && v.events == rest[..n];
    PrefixSplit(v.evs, got, n);
  }

  lemma PrefixSplit(all: seq<Event>, got: seq<Event>, n: nat)
    requires got <= all && n <= |all| - |got|
    ensures got + all[|got|..][..n] == all[..|got| + n]
    ensures |got| + n == |all| ==> got + all[|got|..][..n] == all
  {
  }

  /** What is above the cursor is what has not been collected. */
  lemma Remaining(evs: seq<Event>, got: seq<Event>, cursor: Option<nat>)
    requires Rising(evs) && got <= evs
    requires if cursor.None? then got == [] else got != [] && cursor.value == LastNumber(got)
    ensures After(evs, cursor) == evs[|got|..]
  {
    hide After;
    var k := AfterIsSuffix(evs, cursor);
    if cursor.Some? {
      var n := |got|;
      assert evs[n - 1] == got[n - 1];
      assert n < |evs| ==> evs[n - 1].sequence < evs[n].sequence;
      assert k == n;
    }
  }

  /**
    Following cursors, with appends in between: what was collected is always the beginning of the run's list, so
    nothing repeats and nothing is skipped, and at the last page it is all of it.
   */
  lemma {:induction false} SessionCollects(vs: seq<Visit>)
    requires Session(vs) && vs != []
    ensures var got, last := Collected(vs), vs[|vs| - 1];
      && got <= last.evs && vs[0].evs <= last.evs
      && (last.next.Some? ==> got != [] && last.next.value == LastNumber(got))
      && (last.next.None? ==> got == last.evs)
      && |got| >= |vs| - (if last.next.Some? then 0 else 1)
    decreases |vs|
  {
    hide IsPage, VisitOk;
    var n := |vs| - 1;
    var front, last := vs[..n], vs[n];
    if n == 0 {
      assert Collected(front) == [] && LinkAt(vs, 0);
      PageExtends([], [], None, last);
    } else {
      forall i | 0 <= i < n ensures LinkAt(front, i) {
        assert LinkAt(vs, i);
      }
      assert LinkAt(vs, n);
      SessionCollects(front);
      PageExtends(vs[n - 1].evs, Collected(front), vs[n - 1].next, last);
    }
  }

  /** On a fixed store a session has at most one page more than the run has events. */
  lemma SessionEnds(vs: seq<Visit>, evs: seq<Event>)
    requires Session(vs) && forall v :: v in vs ==> v.evs == evs
    ensures |vs| <= |evs| + 1
    ensures vs != [] && vs[|vs| - 1].next.None? ==> Collected(vs) == evs
  {
    if vs != [] {
      assert vs[|vs| - 1] in vs;
      SessionCollects(vs);
    }
  }
}
