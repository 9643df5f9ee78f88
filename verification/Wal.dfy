/** The application write-ahead log: records on disk, the applied mark and truncation (core/src/wal.cpp). */
module Wal {
  import opened Bytes
  import opened Frames

  datatype Record = Record(seqNo: nat, op: byte, time: nat, payload: bytes, crc: nat)

  /** A record as it can come off the disk: every field within its width. */
  predicate WellFormed(r: Record) {
    r.seqNo < Pow256(8) && r.time < Pow256(8) && |r.payload| < Pow256(4) && r.crc < Pow256(4)
  }

  const HEAD: nat := 17

  function Head(seqNo: nat, op: byte, time: nat): (b: bytes)
    ensures |b| == HEAD
  {
    Be(8, seqNo) + [op] + Be(8, time)
  }

  function ToFrame(r: Record): Frame {
    Frame(Head(r.seqNo, r.op, r.time), r.payload, Be(4, r.crc))
  }

  /** The bytes of one record: number, operation, time and length, big-endian, the payload, and the checksum. */
  lemma RecordLayout(r: Record)
    requires WellFormed(r)
    ensures var b, n := Encode(ToFrame(r)), |r.payload|;
      && |b| == 25 + n && FromBe(b[..8]) == r.seqNo && b[8] == r.op && FromBe(b[9..17]) == r.time && FromBe(b[17..21]) == n
      && b[21..21 + n] == r.payload && FromBe(b[21 + n..]) == r.crc
      && b[..21 + n] == Head(r.seqNo, r.op, r.time) + Be(4, n) + r.payload
  {
    hide Encode, Be, FromBe, Pow256;
    var f, b, n := ToFrame(r), Encode(ToFrame(r)), |r.payload|;
    EncodeLayout(HEAD, f);
    BeRoundTrip(8, r.seqNo);
    BeRoundTrip(8, r.time);
    BeRoundTrip(4, n);
    BeRoundTrip(4, r.crc);
    assert b[..8] == b[..17][..8] == Be(8, r.seqNo) && b[8] == b[..17][8] == r.op && b[9..17] == b[..17][9..17] == Be(8, r.time);
  }

  function FromFrame(f: Frame): Record
    requires |f.head| == HEAD
  {
    Record(FromBe(f.head[..8]), f.head[8], FromBe(f.head[9..17]), f.payload, FromBe(f.crc))
  }

  function ToFrames(rs: seq<Record>): (fs: seq<Frame>)
    ensures |fs| == |rs|
    ensures forall i :: 0 <= i < |rs| ==> fs[i] == ToFrame(rs[i])
  {
    seq(|rs|, i requires 0 <= i < |rs| => ToFrame(rs[i]))
  }

  function EncodeWal(rs: seq<Record>): bytes {
    EncodeAll(ToFrames(rs))
  }

  /** The complete records of a file. */
  function Load(file: bytes): seq<Record>
    decreases |file|
  {
    var s := First(HEAD, file);
    if s.Torn? then [] else [FromFrame(s.frame)] + Load(file[s.size..])
  }

  /** The records with a sequence number above `after`, in order. */
  function Above(rs: seq<Record>, after: nat): seq<Record> {
    if rs == [] then []
    else (if rs[0].seqNo > after then [rs[0]] else []) + Above(rs[1..], after)
  }

  predicate Increasing(rs: seq<Record>) {
    forall i, j :: 0 <= i < j < |rs| ==> rs[i].seqNo < rs[j].seqNo
  }

  // ---- files and records ----

  lemma {:induction false} LoadIsParse(file: bytes)
    ensures |Load(file)| == |Parse(HEAD, file)|
    ensures forall i :: 0 <= i < |Load(file)| ==>
      |Parse(HEAD, file)[i].head| == HEAD && Load(file)[i] == FromFrame(Parse(HEAD, file)[i])
    decreases |file|
  {
    var s := First(HEAD, file);
    if s.Whole? { LoadIsParse(file[s.size..]); }
  }

  lemma FromToFrame(r: Record)
    requires WellFormed(r)
    ensures FromFrame(ToFrame(r)) == r
  {
    BeRoundTrip(8, r.seqNo);
    BeRoundTrip(8, r.time);
    BeRoundTrip(4, r.crc);
    var head := Head(r.seqNo, r.op, r.time);
    assert head[..8] == Be(8, r.seqNo) && head[9..17] == Be(8, r.time);
  }

  lemma ToFramesFramed(rs: seq<Record>)
    requires forall r :: r in rs ==> WellFormed(r)
    ensures forall f :: f in ToFrames(rs) ==> Framed(HEAD, f)
  {
    var fs := ToFrames(rs);
    forall f | f in fs ensures Framed(HEAD, f) {
      var i :| 0 <= i < |fs| && fs[i] == f;
      assert rs[i] in rs;
    }
  }

  /** Cut at any byte, a file gives back exactly its complete records, every field intact. */
  lemma LoadCut(rs: seq<Record>, cut: nat)
    requires (forall r :: r in rs ==> WellFormed(r)) && cut <= |EncodeWal(rs)|
    ensures Load(EncodeWal(rs)[..cut]) == rs[..Complete(ToFrames(rs), cut)]
  {
    var fs := ToFrames(rs);
    ToFramesFramed(rs);
    ParseCut(HEAD, fs, cut);
    LoadIsParse(EncodeWal(rs)[..cut]);
    forall i | 0 <= i < Complete(fs, cut) ensures FromFrame(fs[i]) == rs[i] {
      FromToFrame(rs[i]);
    }
  }

  lemma LoadWhole(rs: seq<Record>)
    requires forall r :: r in rs ==> WellFormed(r)
    ensures Load(EncodeWal(rs)) == rs
  {
    ToFramesFramed(rs);
    ParseEncodeAll(HEAD, ToFrames(rs));
    LoadIsParse(EncodeWal(rs));
    forall i | 0 <= i < |rs| ensures FromFrame(ToFrames(rs)[i]) == rs[i] {
      FromToFrame(rs[i]);
    }
  }

  lemma EncodeWalSnoc(rs: seq<Record>, r: Record)
    ensures EncodeWal(rs + [r]) == EncodeWal(rs) + Encode(ToFrame(r))
  {
    assert ToFrames(rs + [r])[..|rs|] == ToFrames(rs);
  }

  // ---- selecting what is not applied ----

  lemma {:induction false} AboveConcat(a: seq<Record>, b: seq<Record>, after: nat)
    ensures Above(a + b, after) == Above(a, after) + Above(b, after)
  {
    if a == [] {
      assert a + b == b;
    } else {
      assert (a + b)[1..] == a[1..] + b;
      AboveConcat(a[1..], b, after);
    }
  }

  lemma {:induction false} AboveNone(rs: seq<Record>, after: nat)
    requires forall r :: r in rs ==> r.seqNo <= after
    ensures Above(rs, after) == []
  {
    if rs != [] { AboveNone(rs[1..], after); }
  }

  lemma {:induction false} AboveAll(rs: seq<Record>, after: nat)
    requires forall i :: 0 <= i < |rs| ==> rs[i].seqNo > after
    ensures Above(rs, after) == rs
  {
    if rs != [] {
      AboveAll(rs[1..], after);
      assert [rs[0]] + rs[1..] == rs;
    }
  }

  lemma FirstLowest(rs: seq<Record>)
    requires Increasing(rs) && rs != []
    ensures Increasing(rs[1..]) && forall i :: 0 <= i < |rs| ==> rs[0].seqNo <= rs[i].seqNo
  {
  }

  lemma SuffixMoves(rs: seq<Record>, after: nat, j: nat)
    requires rs != [] && rs[0].seqNo <= after && j <= |rs| - 1 && Above(rs[1..], after) == rs[1..][j..]
    requires forall i :: 0 <= i < |rs| - 1 ==> (rs[1..][i].seqNo > after <==> i >= j)
    ensures Above(rs, after) == rs[j + 1..]
    ensures forall i :: 0 <= i < |rs| ==> (rs[i].seqNo > after <==> i >= j + 1)
  {
    assert rs[1..][j..] == rs[j + 1..];
    hide Above;
    forall i | 0 <= i < |rs| ensures rs[i].seqNo > after <==> i >= j + 1 {
      if i > 0 { assert rs[i] == rs[1..][i - 1]; }
    }
  }

  /** In a log with increasing numbers the selection is a suffix: all of it above, nothing before it above. */
  lemma AboveOfSuffix(rs: seq<Record>, after: nat, k: nat)
    requires Increasing(rs) && k <= |rs| && forall i :: 0 <= i < |rs| ==> (rs[i].seqNo > after <==> i >= k)
    ensures Above(rs[k..], after) == rs[k..]
  {
    hide Above;
    var j := AboveIsSuffix(rs[k..], after);
    assert rs[k..] != [] ==> rs[k..][0].seqNo > after;
    assert rs[k..][0..] == rs[k..];
  }

  lemma {:induction false} AboveIsSuffix(rs: seq<Record>, after: nat) returns (k: nat)
    requires Increasing(rs)
    ensures k <= |rs| && Above(rs, after) == rs[k..]
    ensures forall i :: 0 <= i < |rs| ==> (rs[i].seqNo > after <==> i >= k)
  {
    hide Above, Increasing;
    if rs == [] {
      k := 0;
      AboveAll(rs, after);
    } else {
      FirstLowest(rs);
      if rs[0].seqNo > after {
        AboveAll(rs, after);
        k := 0;
      } else {
        var j := AboveIsSuffix(rs[1..], after);
        k := j + 1;
        SuffixMoves(rs, after, j);
      }
    }
  }

  lemma AboveStep(file: bytes, after: nat)
    requires First(HEAD, file).Whole?
    ensures var s := First(HEAD, file);
      Above(Load(file), after) ==
        (if FromFrame(s.frame).seqNo > after then [FromFrame(s.frame)] else []) + Above(Load(file[s.size..]), after)
  {
    hide FromFrame, First;
    var s := First(HEAD, file);
    assert Load(file)[1..] == Load(file[s.size..]);
  }

  lemma AboveTorn(file: bytes, after: nat)
    requires First(HEAD, file).Torn?
    ensures Above(Load(file), after) == []
  {
  }

  /** The scan of all records in a file, keeping those above `after`. */
  method ReadAbove(file: bytes, after: nat) returns (result: seq<Record>)
    ensures result == Above(Load(file), after)
  {
    hide FromFrame, Load, Above;
    result := [];
    var pos, step := 0, First(HEAD, file);
    assert file[0..] == file;
    while step.Whole?
      invariant pos <= |file| && step == First(HEAD, file[pos..])
      invariant result + Above(Load(file[pos..]), after) == Above(Load(file), after)
      decreases |file| - pos
    {
      AboveStep(file[pos..], after);
      assert file[pos..][step.size..] == file[pos + step.size..];
      var r := FromFrame(step.frame);
      if r.seqNo > after { result := result + [r]; }
      pos := pos + step.size;
      step := First(HEAD, file[pos..]);
    }
    AboveTorn(file[pos..], after);
  }

  /** The fixed-size head at the start of a file of records, and where the next head is. */
  lemma HeadsInFile(rs: seq<Record>)
    requires (forall r :: r in rs ==> WellFormed(r)) && |EncodeWal(rs)| >= 21
    ensures rs != []
    ensures var file, r := EncodeWal(rs), rs[0];
      && FromBe(file[..8]) == r.seqNo && FromBe(file[17..21]) == |r.payload|
      && 25 + |r.payload| <= |file|
      && file[21 + |r.payload| + 4..] == EncodeWal(rs[1..])
  {
    hide Encode, WellFormed, FromBe;
    var r := rs[0];
    assert ToFrames(rs) == [ToFrame(r)] + ToFrames(rs[1..]);
    EncodeAllCons(ToFrame(r), ToFrames(rs[1..]));
    assert r in rs;
    HeadOfRecord(r, EncodeWal(rs[1..]));
  }

  lemma HeadOfRecord(r: Record, rest: bytes)
    requires WellFormed(r)
    ensures var file := Encode(ToFrame(r)) + rest;
      && 25 + |r.payload| <= |file| && file[21 + |r.payload| + 4..] == rest
      && FromBe(file[..8]) == r.seqNo && FromBe(file[17..21]) == |r.payload|
  {
    hide Be, FromBe, Pow256;
    var file := Encode(ToFrame(r)) + rest;
    assert file[..8] == Be(8, r.seqNo);
    assert file[17..21] == Be(4, |r.payload|);
    BeRoundTrip(8, r.seqNo);
    BeRoundTrip(4, |r.payload|);
  }

  lemma EncodeWalEmpty()
    ensures EncodeWal([]) == []
  {
  }

  /** How many records start in the file with all 21 bytes before the payload: the last of them may be torn. */
  function HeadsSeen(rs: seq<Record>, cut: nat): (k: nat)
    ensures k <= |rs|
  {
    if rs == [] || cut < 21 then 0
    else if cut < 25 + |rs[0].payload| then 1
    else 1 + HeadsSeen(rs[1..], cut - 25 - |rs[0].payload|)
  }

  lemma RecordSize(r: Record)
    ensures |Encode(ToFrame(r))| == 25 + |r.payload|
  {
  }

  /** Every complete record's head is seen, and at most one more. */
  lemma {:induction false} HeadsCover(rs: seq<Record>, cut: nat)
    ensures Complete(ToFrames(rs), cut) <= HeadsSeen(rs, cut) <= Complete(ToFrames(rs), cut) + 1
    decreases |rs|
  {
    hide Encode, ToFrame;
    if rs != [] {
      RecordSize(rs[0]);
      assert ToFrames(rs)[1..] == ToFrames(rs[1..]);
      if cut >= 25 + |rs[0].payload| { HeadsCover(rs[1..], cut - 25 - |rs[0].payload|); }
    }
  }

  /** The scan stands at the k-th head, or past the end after skipping a torn record. */
  ghost predicate ScanAt(contents: bytes, rs: seq<Record>, pos: nat, k: nat) {
    && k <= |rs|
    && (pos <= |contents| ==> contents[pos..] <= EncodeWal(rs[k..]))
    && HeadsSeen(rs, |contents|) == k + if pos <= |contents| then HeadsSeen(rs[k..], |contents| - pos) else 0
  }

  lemma ScanStarts(contents: bytes, rs: seq<Record>)
    requires contents <= EncodeWal(rs)
    ensures ScanAt(contents, rs, 0, 0)
  {
    hide EncodeWal, HeadsSeen;
    assert contents[0..] == contents && rs[0..] == rs;
  }

  lemma ScanEnds(contents: bytes, rs: seq<Record>, pos: nat, k: nat)
    requires ScanAt(contents, rs, pos, k) && pos + 21 > |contents|
    ensures k == HeadsSeen(rs, |contents|)
  {
    hide EncodeWal;
  }

  /** The head at the scan's position is the k-th record's, and skipping its record moves to the next. */
  lemma ScanStep(contents: bytes, rs: seq<Record>, pos: nat, k: nat, head: bytes)
    requires ScanAt(contents, rs, pos, k) && pos + 21 <= |contents| && head == contents[pos..pos + 21]
    requires forall r :: r in rs ==> WellFormed(r) && |r.payload| + 4 < Pow256(4)
    ensures k < |rs| && FromBe(head[..8]) == rs[k].seqNo
    ensures ScanAt(contents, rs, pos + 21 + (FromBe(head[17..21]) + 4) % Pow256(4), k + 1)
  {
    hide EncodeWal, WellFormed, FromBe, Pow256, HeadsSeen, ScanAt;
    ScanHead(contents, rs, pos, k, head);
    HeadAt(rs, k);
    ScanMoves(contents, rs, pos, k);
  }

  lemma ScanHead(contents: bytes, rs: seq<Record>, pos: nat, k: nat, head: bytes)
    requires ScanAt(contents, rs, pos, k) && pos + 21 <= |contents| && head == contents[pos..pos + 21]
    ensures k <= |rs|
    ensures var file := EncodeWal(rs[k..]); 21 <= |file| && head[..8] == file[..8] && head[17..21] == file[17..21]
  {
    hide EncodeWal, HeadsSeen;
    SameHead(head, contents[pos..], EncodeWal(rs[k..]));
  }

  lemma HeadAt(rs: seq<Record>, k: nat)
    requires k <= |rs| && |EncodeWal(rs[k..])| >= 21
    requires forall r :: r in rs ==> WellFormed(r) && |r.payload| + 4 < Pow256(4)
    ensures k < |rs| && |rs[k].payload| + 4 < Pow256(4)
    ensures var file := EncodeWal(rs[k..]);
      && FromBe(file[..8]) == rs[k].seqNo && FromBe(file[17..21]) == |rs[k].payload|
      && 25 + |rs[k].payload| <= |file| && file[25 + |rs[k].payload|..] == EncodeWal(rs[k + 1..])
  {
    hide EncodeWal, WellFormed, FromBe, Pow256;
    assert forall r :: r in rs[k..] ==> r in rs;
    HeadsInFile(rs[k..]);
    assert rs[k..][0] == rs[k] && rs[k] in rs && rs[k..][1..] == rs[k + 1..];
  }

  lemma ScanMoves(contents: bytes, rs: seq<Record>, pos: nat, k: nat)
    requires ScanAt(contents, rs, pos, k) && k < |rs| && pos + 21 <= |contents|
    requires var file := EncodeWal(rs[k..]);
      25 + |rs[k].payload| <= |file| && file[25 + |rs[k].payload|..] == EncodeWal(rs[k + 1..])
    ensures ScanAt(contents, rs, pos + 25 + |rs[k].payload|, k + 1)
  {
    hide EncodeWal, HeadsSeen;
    var rest, skip := contents[pos..], 25 + |rs[k].payload|;
    HeadsUnfold(rs, k, |rest|);
    if skip <= |rest| { SkipRest(rest, EncodeWal(rs[k..]), skip, contents, pos); }
  }

  lemma SameHead(head: bytes, rest: bytes, file: bytes)
    requires 21 <= |rest| && rest <= file && head == rest[..21]
    ensures head[..8] == file[..8] && head[17..21] == file[17..21]
  {
  }

  lemma HeadsUnfold(rs: seq<Record>, k: nat, cut: nat)
    requires k < |rs| && cut >= 21
    ensures var size := 25 + |rs[k].payload|;
      HeadsSeen(rs[k..], cut) == 1 + if size <= cut then HeadsSeen(rs[k + 1..], cut - size) else 0
  {
    assert rs[k..][0] == rs[k] && rs[k..][1..] == rs[k + 1..];
  }

  lemma SkipRest(rest: bytes, file: bytes, skip: nat, contents: bytes, pos: nat)
    requires rest <= file && skip <= |rest| && pos <= |contents| && rest == contents[pos..]
    ensures contents[pos + skip..] <= file[skip..]
  {
    assert contents[pos + skip..] == rest[skip..];
  }

  /** The skip from head to head when a file is opened: a torn last record counts when its head is whole. */
  method ScanLast(contents: bytes, ghost rs: seq<Record>) returns (last: nat)
    requires contents <= EncodeWal(rs) && Increasing(rs)
    requires forall r :: r in rs ==> WellFormed(r) && |r.payload| + 4 < Pow256(4)
    ensures var k := HeadsSeen(rs, |contents|); last == if k == 0 then 0 else rs[k - 1].seqNo
  {
    hide EncodeWal, WellFormed, FromBe, Pow256, ScanAt, HeadsSeen;
    last := 0;
    ghost var k := 0;
    var pos := 0;
    ScanStarts(contents, rs);
    while pos + 21 <= |contents|
      invariant k <= |rs| && ScanAt(contents, rs, pos, k) && last == if k == 0 then 0 else rs[k - 1].seqNo
      decreases |contents| - pos
    {
      var head := contents[pos..pos + 21];
      ScanStep(contents, rs, pos, k, head);
      var seqNo, skip := FromBe(head[..8]), 21 + (FromBe(head[17..21]) + 4) % Pow256(4);
      pos := pos + skip;
      if seqNo > last { last := seqNo; }
      k := k + 1;
    }
    ScanEnds(contents, rs, pos, k);
  }

  /** What a file cut by a crash still holds. */
  lemma Survivors(contents: bytes, rs: seq<Record>)
    requires contents <= EncodeWal(rs) && Increasing(rs) && forall r :: r in rs ==> WellFormed(r)
    ensures var h, k := Load(contents), HeadsSeen(rs, |contents|);
      && h == rs[..Complete(ToFrames(rs), |contents|)] && |h| <= k <= |rs| && Increasing(h)
      && forall r :: r in h ==> WellFormed(r) && k > 0 && r.seqNo <= rs[k - 1].seqNo
  {
    hide EncodeWal, Load, WellFormed, Complete, HeadsSeen, ToFrames, Increasing;
    assert contents == EncodeWal(rs)[..|contents|];
    LoadCut(rs, |contents|);
    HeadsCover(rs, |contents|);
    OrderedPrefix(rs, Complete(ToFrames(rs), |contents|), HeadsSeen(rs, |contents|));
  }

  lemma OrderedPrefix(rs: seq<Record>, n: nat, k: nat)
    requires Increasing(rs) && n <= k <= |rs|
    ensures Increasing(rs[..n])
    ensures forall r :: r in rs[..n] ==> r in rs && k > 0 && r.seqNo <= rs[k - 1].seqNo
  {
    forall r | r in rs[..n] ensures r in rs && k > 0 && r.seqNo <= rs[k - 1].seqNo {
      var i :| 0 <= i < n && rs[i] == r;
    }
  }

  /** What is copied when the length is cast to 32 bits. */
  function Clip(payload: bytes): bytes {
    payload[..|payload| % Pow256(4)]
  }

  lemma StampedFits(r: Record, payload: bytes)
    requires r.payload == Clip(payload) && r.seqNo < Pow256(8) && r.time < Pow256(8) && r.crc < Pow256(4)
    ensures WellFormed(r)
    ensures r.payload == payload <==> |payload| < Pow256(4)
  {
    hide Pow256;
    if |payload| < Pow256(4) { assert payload[..|payload|] == payload; }
  }

  class Wal {
    const crc: bytes -> nat
    var file: bytes
    var lastSeq: nat
    var appliedSeq: nat
    var savedApplied: nat
    /** The records the file held when it was opened and every record appended since. */
    ghost var history: seq<Record>
    ghost var dropped: nat

    /** The file holds the history minus a prefix that was all applied. */
    ghost predicate Valid()
      reads this
    {
      && dropped <= |history| && file == EncodeWal(history[dropped..])
      && (forall r :: r in history[..dropped] ==> r.seqNo <= appliedSeq)
      && Increasing(history)
      && (forall r :: r in history ==> WellFormed(r) && r.seqNo <= lastSeq)
      && savedApplied == appliedSeq
    }

    /**
      Open a file, cut anywhere by a crash: the last number is found by skipping from head to head. What was torn off
      stays in the file until the next truncation.
     */
    constructor (crc: bytes -> nat, contents: bytes, savedApplied: nat, ghost rs: seq<Record>)
      requires contents <= EncodeWal(rs) && Increasing(rs)
      requires forall r :: r in rs ==> WellFormed(r) && |r.payload| + 4 < Pow256(4)
      ensures this.crc == crc && file == contents && appliedSeq == savedApplied && dropped == 0
      ensures history == rs[..Complete(ToFrames(rs), |contents|)] && history == Load(contents)
      ensures var k := HeadsSeen(rs, |contents|); |history| <= k && lastSeq == if k == 0 then 0 else rs[k - 1].seqNo
      ensures contents == EncodeWal(history) ==> Valid()
    {
      hide EncodeWal, Load, WellFormed, Complete, HeadsSeen, Increasing;
      Survivors(contents, rs);
      this.crc, file := crc, contents;
      appliedSeq, this.savedApplied := savedApplied, savedApplied;
      history, dropped := Load(contents), 0;
      lastSeq := 0;
      new;
      lastSeq := ScanLast(contents, rs);
      assert history[0..] == history && history[..0] == [];
    }

    /** Assign the next number, stamp the record with the clock and the checksum, and write it. */
    method Append(op: byte, payload: bytes, now: nat) returns (seqNo: nat)
      requires Valid() && now < Pow256(8) && lastSeq + 1 < Pow256(8)
      requires 21 + |payload| % Pow256(4) < Pow256(4)
      modifies this`file, this`lastSeq, this`history
      ensures Valid() && seqNo == lastSeq == old(lastSeq) + 1
      ensures |history| == |old(history)| + 1 && history[..|old(history)|] == old(history)
      ensures var r := history[|old(history)|];
        && r.seqNo == seqNo && r.op == op && r.time == now
        && (r.payload == payload <==> |payload| < Pow256(4))
        && r.crc == crc(Head(seqNo, op, now) + Be(4, |r.payload|) + r.payload) % Pow256(4)
    {
      hide EncodeWal, Encode, ToFrame, Head, Be, Pow256, Clip, WellFormed;
      lastSeq := lastSeq + 1;
      seqNo := lastSeq;
      var copied := Clip(payload);
      var head := Head(seqNo, op, now);
      var r := Record(seqNo, op, now, copied, crc(head + Be(4, |copied|) + copied) % Pow256(4));
      StampedFits(r, payload);
      EncodeWalSnoc(history[dropped..], r);
      assert (history + [r])[dropped..] == history[dropped..] + [r];
      assert (history + [r])[..dropped] == history[..dropped];
      file := file + Encode(ToFrame(r));
      history := history + [r];
    }

    method MarkApplied(seqNo: nat)
      requires Valid()
      modifies this`appliedSeq, this`savedApplied
      ensures Valid() && appliedSeq == if seqNo > old(appliedSeq) then seqNo else old(appliedSeq)
    {
      if seqNo > appliedSeq {
        appliedSeq := seqNo;
        savedApplied := seqNo;
      }
    }

    /** From the applied mark on, exactly what was appended: truncation has lost none of it. */
    method ReadUnapplied(after: nat) returns (result: seq<Record>)
      requires Valid()
      ensures result == Above(history[dropped..], after)
      ensures after >= appliedSeq ==> result == Above(history, after)
    {
      hide EncodeWal, WellFormed, Increasing, Load, Above;
      assert forall r :: r in history[dropped..] ==> r in history;
      LoadWhole(history[dropped..]);
      result := ReadAbove(file, after);
      if after >= appliedSeq {
        assert history == history[..dropped] + history[dropped..];
        AboveConcat(history[..dropped], history[dropped..], after);
        AboveNone(history[..dropped], after);
      }
    }

    /** Rewrite the file with only the records not yet applied. */
    method TruncateApplied()
      requires Valid()
      modifies this`file, this`dropped
      ensures Valid() && file == EncodeWal(Above(history, appliedSeq))
      ensures Above(history[dropped..], appliedSeq) == history[dropped..]
    {
      hide EncodeWal, Encode, ToFrame, WellFormed, Above;
      var unapplied := ReadUnapplied(appliedSeq);
      ghost var k := AboveIsSuffix(history, appliedSeq);
      file := [];
      EncodeWalEmpty();
      for i := 0 to |unapplied|
        invariant file == EncodeWal(unapplied[..i])
      {
        EncodeWalSnoc(unapplied[..i], unapplied[i]);
        assert unapplied[..i + 1] == unapplied[..i] + [unapplied[i]];
        file := file + Encode(ToFrame(unapplied[i]));
      }
      assert unapplied[..|unapplied|] == unapplied;
      dropped := k;
      AboveOfSuffix(history, appliedSeq, k);
    }
  }
}
