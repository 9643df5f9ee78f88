/** The replicated log of one Raft node and the file behind it (core/src/raft/log.cpp). */
module LogFile {
  import opened Common
  import opened Bytes
  import opened Frames

  datatype LogEntry = LogEntry(index: nat, term: nat, command: bytes)

  /** Index and term are 64-bit, so only the length of the command can fail to fit. */
  predicate Fits(e: LogEntry) {
    e.index < Pow256(8) && e.term < Pow256(8)
  }

  predicate Short(e: LogEntry) {
    |e.command| < Pow256(4)
  }

  const HEAD: nat := 16

  /** The record written for an entry; the length is cast to 32 bits and only that many bytes are copied. */
  function ToFrame(crc: bytes -> nat, e: LogEntry): Frame {
    var head := Be(8, e.index) + Be(8, e.term);
    var payload := e.command[..|e.command| % Pow256(4)];
    Frame(head, payload, Be(4, crc(head + Be(4, |payload|) + payload)))
  }

  function FromFrame(f: Frame): LogEntry
    requires |f.head| == HEAD
  {
    LogEntry(FromBe(f.head[..8]), FromBe(f.head[8..16]), f.payload)
  }

  function ToFrames(crc: bytes -> nat, es: seq<LogEntry>): (fs: seq<Frame>)
    ensures |fs| == |es|
    ensures forall i :: 0 <= i < |es| ==> fs[i] == ToFrame(crc, es[i])
  {
    seq(|es|, i requires 0 <= i < |es| => ToFrame(crc, es[i]))
  }

  /** The bytes of a log file holding these entries. */
  function EncodeLog(crc: bytes -> nat, es: seq<LogEntry>): bytes {
    EncodeAll(ToFrames(crc, es))
  }

  /** The entries read back from a file. */
  function LoadEntries(file: bytes): seq<LogEntry>
    decreases |file|
  {
    var s := First(HEAD, file);
    if s.Torn? then [] else [FromFrame(s.frame)] + LoadEntries(file[s.size..])
  }

  /** One turn of the load loop: what is loaded and what is still to be loaded stay the whole. */
  lemma LoadStep(file: bytes, pos: nat, es: seq<LogEntry>)
    requires pos <= |file| && First(HEAD, file[pos..]).Whole?
    ensures var s := First(HEAD, file[pos..]);
      && |s.frame.head| == HEAD && pos + s.size <= |file| && s.size > 0
      && (es + [FromFrame(s.frame)]) + LoadEntries(file[pos + s.size..]) == es + LoadEntries(file[pos..])
  {
    var s := First(HEAD, file[pos..]);
    assert file[pos..][s.size..] == file[pos + s.size..];
  }

  lemma LoadEnd(file: bytes, es: seq<LogEntry>)
    requires First(HEAD, file).Torn?
    ensures es + LoadEntries(file) == es
  {
  }

  /** Indices run 1, 2, 3, ... without a gap. */
  predicate Contiguous(es: seq<LogEntry>) {
    forall i :: 0 <= i < |es| ==> es[i].index == i + 1
  }

  lemma FrameParts(crc: bytes -> nat, e: LogEntry)
    requires Fits(e) && Short(e)
    ensures var f := ToFrame(crc, e);
      && Framed(HEAD, f) && f.payload == e.command && f.head == Be(8, e.index) + Be(8, e.term)
      && f.crc == Be(4, crc(f.head + Be(4, |f.payload|) + f.payload))
  {
    assert e.command[..|e.command|] == e.command;
  }

  /**
    The bytes of one record: index, term and length, big-endian, the command, and the checksum of everything before it.
   */
  lemma RecordLayout(crc: bytes -> nat, e: LogEntry)
    requires Fits(e) && Short(e) && forall b :: crc(b) < Pow256(4)
    ensures var b, n := Encode(ToFrame(crc, e)), |e.command|;
      && |b| == 24 + n && FromBe(b[..8]) == e.index && FromBe(b[8..16]) == e.term && FromBe(b[16..20]) == n
      && b[20..20 + n] == e.command && FromBe(b[20 + n..]) == crc(b[..20 + n])
  {
    hide Encode, Be, FromBe, Pow256, ToFrame, Framed;
    var f, b, n := ToFrame(crc, e), Encode(ToFrame(crc, e)), |e.command|;
    FrameParts(crc, e);
    EncodeLayout(HEAD, f);
    BeRoundTrip(8, e.index);
    BeRoundTrip(8, e.term);
    BeRoundTrip(4, n);
    BeRoundTrip(4, crc(b[..20 + n]));
    assert b[..8] == b[..16][..8] == Be(8, e.index) && b[8..16] == b[..16][8..16] == Be(8, e.term);
  }

  // ---- the file and the memory agree ----

  lemma ToFrameFramed(crc: bytes -> nat, es: seq<LogEntry>)
    ensures forall f :: f in ToFrames(crc, es) ==> Framed(HEAD, f)
  {
  }

  lemma FromToFrame(crc: bytes -> nat, e: LogEntry)
    requires Fits(e)
    ensures FromFrame(ToFrame(crc, e)) == e.(command := e.command[..|e.command| % Pow256(4)])
  {
    BeRoundTrip(8, e.index);
    BeRoundTrip(8, e.term);
    var head := Be(8, e.index) + Be(8, e.term);
    assert head[..8] == Be(8, e.index) && head[8..16] == Be(8, e.term);
  }

  lemma {:induction false} LoadIsParse(file: bytes)
    ensures |LoadEntries(file)| == |Parse(HEAD, file)|
    ensures forall i :: 0 <= i < |LoadEntries(file)| ==>
      |Parse(HEAD, file)[i].head| == HEAD && LoadEntries(file)[i] == FromFrame(Parse(HEAD, file)[i])
    decreases |file|
  {
    var s := First(HEAD, file);
    if s.Whole? { LoadIsParse(file[s.size..]); }
  }

  /** The entry a file gives back for one that was written. */
  function Clipped(e: LogEntry): LogEntry {
    e.(command := e.command[..|e.command| % Pow256(4)])
  }

  /**
    Cut at any byte, the file loads to a prefix of its entries: those whose records are complete.
    (A command of 2^32 bytes or more comes back clipped.)
   */
  lemma LoadCut(crc: bytes -> nat, es: seq<LogEntry>, cut: nat)
    requires (forall e :: e in es ==> Fits(e)) && cut <= |EncodeLog(crc, es)|
    ensures var m := Complete(ToFrames(crc, es), cut);
      LoadEntries(EncodeLog(crc, es)[..cut]) == seq(m, i requires 0 <= i < m => Clipped(es[i]))
  {
    var fs := ToFrames(crc, es);
    ToFrameFramed(crc, es);
    ParseCut(HEAD, fs, cut);
    LoadIsParse(EncodeLog(crc, es)[..cut]);
    forall i | 0 <= i < Complete(fs, cut) ensures FromFrame(fs[i]) == Clipped(es[i]) {
      FromToFrame(crc, es[i]);
    }
  }

  /** After a crash at any point of a write, what is left of a gapless file loads to a gapless log. */
  lemma CutContiguous(crc: bytes -> nat, es: seq<LogEntry>, cut: nat)
    requires Contiguous(es) && (forall e :: e in es ==> Fits(e)) && cut <= |EncodeLog(crc, es)|
    ensures Contiguous(LoadEntries(EncodeLog(crc, es)[..cut]))
    ensures (forall e :: e in es ==> Short(e)) ==> LoadEntries(EncodeLog(crc, es)[..cut]) <= es
  {
    hide LoadEntries, EncodeLog, Short, Clipped;
    LoadCut(crc, es, cut);
    forall i | 0 <= i < |es| ensures Clipped(es[i]).index == es[i].index && (Short(es[i]) ==> Clipped(es[i]) == es[i]) {
      ClippedIndex(es[i]);
      ClippedSame(es[i]);
    }
  }

  lemma ClippedIndex(e: LogEntry)
    ensures Clipped(e).index == e.index
  {
  }

  lemma LoadWhole(crc: bytes -> nat, es: seq<LogEntry>)
    requires forall e :: e in es ==> Fits(e)
    ensures LoadEntries(EncodeLog(crc, es)) == seq(|es|, i requires 0 <= i < |es| => Clipped(es[i]))
  {
    var fs := ToFrames(crc, es);
    ToFrameFramed(crc, es);
    ParseEncodeAll(HEAD, fs);
    LoadIsParse(EncodeLog(crc, es));
    hide LoadEntries, ToFrames, Framed;
    forall i | 0 <= i < |es| ensures FromFrame(fs[i]) == Clipped(es[i]) {
      FromToFrame(crc, es[i]);
    }
  }

  lemma ClippedSame(e: LogEntry)
    ensures Clipped(e) == e <==> Short(e)
  {
    assert Short(e) ==> e.command[..|e.command|] == e.command;
    assert Clipped(e) == e ==> |Clipped(e).command| == |e.command|;
  }

  /** Memory equals the decoding of the file exactly when no command needs more than 32 bits of length. */
  lemma FileIsMemory(crc: bytes -> nat, es: seq<LogEntry>)
    requires forall e :: e in es ==> Fits(e)
    ensures LoadEntries(EncodeLog(crc, es)) == es <==> forall e :: e in es ==> Short(e)
  {
    hide LoadEntries, EncodeLog, Short, Clipped;
    LoadWhole(crc, es);
    var loaded := LoadEntries(EncodeLog(crc, es));
    forall i | 0 <= i < |es| ensures loaded[i] == es[i] <==> Short(es[i]) {
      ClippedSame(es[i]);
    }
  }

  lemma EncodeLogSnoc(crc: bytes -> nat, es: seq<LogEntry>, e: LogEntry)
    ensures EncodeLog(crc, es + [e]) == EncodeLog(crc, es) + Encode(ToFrame(crc, e))
  {
    var fs := ToFrames(crc, es + [e]);
    assert fs[..|es|] == ToFrames(crc, es);
  }

  function Last(es: seq<LogEntry>): LogEntry
    requires es != []
  {
    es[|es| - 1]
  }

  lemma {:induction false} EncodePrefix(crc: bytes -> nat, es: seq<LogEntry>, k: nat)
    requires k <= |es|
    ensures EncodeLog(crc, es[..k]) <= EncodeLog(crc, es)
    decreases |es|
  {
    hide EncodeLog, ToFrame, Encode;
    if k < |es| {
      var front, e := es[..|es| - 1], es[|es| - 1];
      assert es == front + [e] && front[..k] == es[..k];
      EncodeLogSnoc(crc, front, e);
      EncodePrefix(crc, front, k);
    } else {
      assert es[..k] == es;
    }
  }

  /**
    What a crash can leave of a file that is emptied and then written entry by entry: some beginning of the entries, and
    any beginning.
   */
  lemma TornRewrite(crc: bytes -> nat, es: seq<LogEntry>, cut: nat, left: nat)
    requires Contiguous(es) && (forall e :: e in es ==> Fits(e) && Short(e)) && cut <= |EncodeLog(crc, es)| && left <= |es|
    ensures LoadEntries(EncodeLog(crc, es)[..cut]) <= es
    ensures var k := |EncodeLog(crc, es[..left])|;
      k <= |EncodeLog(crc, es)| && LoadEntries(EncodeLog(crc, es)[..k]) == es[..left]
  {
    hide LoadEntries, EncodeLog, Short, Fits;
    CutContiguous(crc, es, cut);
    EncodePrefix(crc, es, left);
    var k := |EncodeLog(crc, es[..left])|;
    assert EncodeLog(crc, es)[..k] == EncodeLog(crc, es[..left]);
    FileIsMemory(crc, es[..left]);
  }

  /** The entries with index at most `keep`, as the backwards pop leaves them. */
  function Keep(es: seq<LogEntry>, keep: nat): (r: seq<LogEntry>)
    ensures r <= es
    ensures r != [] ==> Last(r).index <= keep
  {
    if es != [] && Last(es).index > keep then Keep(es[..|es| - 1], keep) else es
  }

  lemma {:induction false} KeepContiguous(es: seq<LogEntry>, keep: nat)
    requires Contiguous(es)
    ensures Keep(es, keep) == if keep < |es| then es[..keep] else es
  {
    if es != [] && Last(es).index > keep {
      KeepContiguous(es[..|es| - 1], keep);
    }
  }

  /** The entries with positions lo to hi (from 1, inclusive) that exist. */
  function Slice(es: seq<LogEntry>, lo: nat, hi: nat): seq<LogEntry>
    requires lo >= 1
  {
    var end := if hi <= |es| then hi else |es|;
    if lo <= end then es[lo - 1..end] else []
  }

  class RaftLog {
    const crc: bytes -> nat
    var entries: seq<LogEntry>
    var file: bytes

    ghost predicate Valid()
      reads this
    {
      file == EncodeLog(crc, entries)
    }

    /** Open an existing file (possibly cut anywhere) and load its complete records. */
    constructor (crc: bytes -> nat, contents: bytes)
      ensures this.crc == crc && file == contents && entries == LoadEntries(contents)
    {
      hide LoadEntries, First, FromFrame, EncodeLog;
      this.crc := crc;
      entries := [];
      file := contents;
      new;
      var pos, step := 0, First(HEAD, contents);
      assert contents[0..] == contents;
      while step.Whole?
        invariant pos <= |contents| && step == First(HEAD, contents[pos..])
        invariant file == contents && this.crc == crc
        invariant entries + LoadEntries(contents[pos..]) == LoadEntries(contents)
        decreases |contents| - pos
      {
        LoadStep(contents, pos, entries);
        entries := entries + [FromFrame(step.frame)];
        pos := pos + step.size;
        step := First(HEAD, contents[pos..]);
      }
      LoadEnd(contents[pos..], entries);
    }

    method WriteEntry(e: LogEntry)
      modifies this`file
      ensures file == old(file) + Encode(ToFrame(crc, e))
    {
      file := file + Encode(ToFrame(crc, e));
    }

    method Append(term: nat, command: bytes) returns (index: nat)
      requires Valid()
      modifies this
      ensures Valid()
      ensures index == if old(entries) == [] then 1 else Last(old(entries)).index + 1
      ensures entries == old(entries) + [LogEntry(index, term, command)]
      ensures Contiguous(old(entries)) ==> Contiguous(entries) && index == |entries|
    {
      index := if entries == [] then 1 else Last(entries).index + 1;
      var e := LogEntry(index, term, command);
      EncodeLogSnoc(crc, entries, e);
      WriteEntry(e);
      entries := entries + [e];
    }

    method AppendBatch(batch: seq<LogEntry>)
      requires Valid()
      modifies this
      ensures Valid() && entries == old(entries) + batch
      ensures Contiguous(old(entries)) && (forall i :: 0 <= i < |batch| ==> batch[i].index == |old(entries)| + i + 1) ==>
        Contiguous(entries)
    {
      for i := 0 to |batch|
        invariant Valid() && entries == old(entries) + batch[..i]
      {
        EncodeLogSnoc(crc, entries, batch[i]);
        WriteEntry(batch[i]);
        entries := entries + [batch[i]];
      }
      assert batch[..|batch|] == batch;
    }

    /** Pop entries above `keep` from memory, then rewrite the whole file. */
    method TruncateSuffix(keep: nat)
      requires Valid()
      modifies this
      ensures Valid() && entries == Keep(old(entries), keep)
      ensures Contiguous(old(entries)) ==>
        Contiguous(entries) && entries == if keep < |old(entries)| then old(entries)[..keep] else old(entries)
    {
      while entries != [] && Last(entries).index > keep
        invariant Keep(entries, keep) == Keep(old(entries), keep)
        decreases |entries|
      {
        entries := entries[..|entries| - 1];
      }
      if Contiguous(old(entries)) { KeepContiguous(old(entries), keep); }
      Rewrite();
    }

    method Rewrite()
      modifies this`file
      ensures Valid()
    {
      file := [];
      for i := 0 to |entries|
        invariant file == EncodeLog(crc, entries[..i])
      {
        EncodeLogSnoc(crc, entries[..i], entries[i]);
        assert entries[..i + 1] == entries[..i] + [entries[i]];
        WriteEntry(entries[i]);
      }
      assert entries[..|entries|] == entries;
    }

    function Get(index: nat): Option<LogEntry>
      reads this
    {
      if entries == [] || index < entries[0].index || index > Last(entries).index then None
      else if index - entries[0].index >= |entries| then None
      else Some(entries[index - entries[0].index])
    }

    function LastIndex(): nat
      reads this
    {
      if entries == [] then 0 else Last(entries).index
    }

    function LastTerm(): nat
      reads this
    {
      if entries == [] then 0 else Last(entries).term
    }

    function TermAt(index: nat): nat
      reads this
    {
      var e := Get(index);
      if e.Some? then e.value.term else 0
    }

    predicate IsUpToDate(lastTerm: nat, lastIndex: nat)
      reads this
    {
      if lastTerm != LastTerm() then lastTerm > LastTerm() else lastIndex >= LastIndex()
    }

    /** Without gaps, lookups by index are lookups by position. */
    lemma Lookups(index: nat)
      requires Contiguous(entries)
      ensures LastIndex() == |entries|
      ensures Get(index) == if 1 <= index <= |entries| then Some(entries[index - 1]) else None
      ensures TermAt(index) == if 1 <= index <= |entries| then entries[index - 1].term else 0
      ensures LastTerm() == TermAt(|entries|)
    {
    }

    method GetRange(lo: nat, hi: nat) returns (r: seq<LogEntry>)
      requires Contiguous(entries) && lo >= 1
      ensures r == Slice(entries, lo, hi)
    {
      r := [];
      if entries == [] { return; }
      var base, idx := entries[0].index, lo;
      while idx <= hi
        invariant lo <= idx && (idx == lo || idx <= hi + 1)
        invariant r == Slice(entries, lo, idx - 1)
        decreases hi + 1 - idx
      {
        if !(idx < base || idx - base >= |entries|) {
          r := r + [entries[idx - base]];
        }
        idx := idx + 1;
      }
    }
  }
}
