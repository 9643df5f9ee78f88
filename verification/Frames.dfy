/**
  Length-framed records as both record logs lay them out on disk: a fixed-size head whose last four
  bytes are the payload length, the payload, and a four-byte checksum nobody checks on the way back.
 */
module Frames {
  import opened Bytes

  datatype Frame = Frame(head: bytes, payload: bytes, crc: bytes)

  /** A frame that survives its own encoding: a head of h bytes and a payload whose length fits in 32 bits. */
  ghost predicate Framed(h: nat, f: Frame) {
    |f.head| == h && |f.payload| < Pow256(4) && |f.crc| == 4
  }

  function Encode(f: Frame): bytes {
    f.head + Be(4, |f.payload|) + f.payload + f.crc
  }

  /** Where the parts of a record lie. */
  lemma EncodeLayout(h: nat, f: Frame)
    requires Framed(h, f)
    ensures var b, n := Encode(f), |f.payload|;
      && |b| == h + 8 + n && b[..h] == f.head && b[h..h + 4] == Be(4, n) && b[h + 4..h + 4 + n] == f.payload
      && b[h + 4 + n..] == f.crc && b[..h + 4 + n] == f.head + Be(4, n) + f.payload
  {
  }

  function EncodeAll(fs: seq<Frame>): bytes {
    if fs == [] then [] else EncodeAll(fs[..|fs| - 1]) + Encode(fs[|fs| - 1])
  }

  datatype Step = Torn | Whole(frame: Frame, size: nat)

  /** The record that starts the file, or Torn when the file ends inside it. */
  function First(h: nat, file: bytes): (s: Step)
    ensures s.Whole? ==> h + 8 <= s.size <= |file|
  {
    if |file| < h + 4 then Torn
    else
      var len := FromBe(file[h..h + 4]);
      if |file| < h + 4 + len + 4 then Torn
      else Whole(Frame(file[..h], file[h + 4..h + 4 + len], file[h + 4 + len..h + 8 + len]), h + 8 + len)
  }

  /** All complete records from the start of the file. */
  function Parse(h: nat, file: bytes): seq<Frame>
    decreases |file|
  {
    var s := First(h, file);
    if s.Torn? then [] else [s.frame] + Parse(h, file[s.size..])
  }

  /** How many leading records are complete when the file holds only `cut` bytes. */
  function Complete(fs: seq<Frame>, cut: nat): (m: nat)
    ensures m <= |fs|
  {
    if fs == [] || cut < |Encode(fs[0])| then 0 else 1 + Complete(fs[1..], cut - |Encode(fs[0])|)
  }

  lemma {:induction false} EncodeAllCons(f: Frame, fs: seq<Frame>)
    ensures EncodeAll([f] + fs) == Encode(f) + EncodeAll(fs)
  {
    hide Encode;
    if fs == [] {
      assert ([f] + fs)[..|fs|] == [];
    } else {
      var front := fs[..|fs| - 1];
      EncodeAllCons(f, front);
      assert ([f] + fs)[..|fs|] == [f] + front;
    }
  }

  /** A complete record at the start of a file is read back, whatever follows it. */
  lemma FirstEncode(h: nat, f: Frame, rest: bytes)
    requires Framed(h, f)
    ensures First(h, Encode(f) + rest) == Whole(f, |Encode(f)|)
    ensures (Encode(f) + rest)[|Encode(f)|..] == rest
  {
    var file, len := Encode(f) + rest, |f.payload|;
    BeRoundTrip(4, len);
    assert file[..h] == f.head;
    assert file[h..h + 4] == Be(4, len);
    assert file[h + 4..h + 4 + len] == f.payload;
    assert file[h + 4 + len..h + 8 + len] == f.crc;
  }

  lemma FirstTorn(h: nat, f: Frame, rest: bytes, cut: nat)
    requires Framed(h, f) && cut < |Encode(f)| && cut <= |Encode(f) + rest|
    ensures First(h, (Encode(f) + rest)[..cut]) == Torn
  {
    var all := Encode(f) + rest;
    var file := all[..cut];
    if cut >= h + 4 {
      BeRoundTrip(4, |f.payload|);
      assert all[h..h + 4] == Be(4, |f.payload|);
      assert file[h..h + 4] == all[h..h + 4];
    }
  }

  /** Cut at any byte, a file of records reads back exactly the records that are complete. */
  lemma {:induction false} ParseCut(h: nat, fs: seq<Frame>, cut: nat)
    requires forall f :: f in fs ==> Framed(h, f)
    requires cut <= |EncodeAll(fs)|
    ensures Parse(h, EncodeAll(fs)[..cut]) == fs[..Complete(fs, cut)]
    decreases |fs|
  {
    var file := EncodeAll(fs)[..cut];
    if fs != [] {
      var f, rest := fs[0], fs[1..];
      assert fs == [f] + rest;
      EncodeAllCons(f, rest);
      if cut < |Encode(f)| {
        FirstTorn(h, f, EncodeAll(rest), cut);
      } else {
        var c := cut - |Encode(f)|;
        assert file == Encode(f) + EncodeAll(rest)[..c];
        FirstEncode(h, f, EncodeAll(rest)[..c]);
        ParseCut(h, rest, c);
        assert fs[..1 + Complete(rest, c)] == [f] + rest[..Complete(rest, c)];
      }
    }
  }

  lemma {:induction false} CompleteAll(fs: seq<Frame>)
    ensures Complete(fs, |EncodeAll(fs)|) == |fs|
  {
    if fs != [] {
      assert fs == [fs[0]] + fs[1..];
      EncodeAllCons(fs[0], fs[1..]);
      CompleteAll(fs[1..]);
    }
  }

  lemma FirstAndRest(fs: seq<Frame>, m: nat)
    requires 0 < m <= |fs|
    ensures |EncodeAll(fs[..m])| == |Encode(fs[0])| + |EncodeAll(fs[1..][..m - 1])|
  {
    hide EncodeAll, Encode;
    assert fs[..m] == [fs[0]] + fs[1..][..m - 1];
    EncodeAllCons(fs[0], fs[1..][..m - 1]);
  }

  /** The count of complete records is the right one: that many fit in the cut, one more does not. */
  lemma {:induction false} CompleteIsMax(fs: seq<Frame>, cut: nat)
    ensures |EncodeAll(fs[..Complete(fs, cut)])| <= cut
    ensures Complete(fs, cut) < |fs| ==> cut < |EncodeAll(fs[..Complete(fs, cut) + 1])|
  {
    if fs != [] {
      var f, rest, m := fs[0], fs[1..], Complete(fs, cut);
      if cut < |Encode(f)| {
        assert fs[..1] == [f] + [];
        EncodeAllCons(f, []);
      } else {
        hide EncodeAll, Encode;
        CompleteIsMax(rest, cut - |Encode(f)|);
        FirstAndRest(fs, m);
        if m < |fs| { FirstAndRest(fs, m + 1); }
      }
    }
  }

  /** An uncut file reads back whole. */
  lemma ParseEncodeAll(h: nat, fs: seq<Frame>)
    requires forall f :: f in fs ==> Framed(h, f)
    ensures Parse(h, EncodeAll(fs)) == fs
  {
    ParseCut(h, fs, |EncodeAll(fs)|);
    CompleteAll(fs);
    assert EncodeAll(fs)[..|EncodeAll(fs)|] == EncodeAll(fs);
    assert fs[..|fs|] == fs;
  }

  // ---- any file, however damaged ----

  /** Too short for a head, or for the payload and checksum its head announces. */
  predicate TornTail(h: nat, rest: bytes) {
    |rest| < h + 4 || |rest| < h + 8 + FromBe(rest[h..h + 4])
  }

  /** The first record of any file is encoded by its first bytes, whatever its checksum says. */
  lemma FirstIs(h: nat, file: bytes)
    ensures var s := First(h, file);
      && (s.Torn? <==> TornTail(h, file))
      && (s.Whole? ==> Framed(h, s.frame) && Encode(s.frame) == file[..s.size])
  {
    var s := First(h, file);
    if s.Whole? {
      FromBeRoundTrip(file[h..h + 4]);
      hide Pow256, FromBe, Be;
      var len := FromBe(file[h..h + 4]);
      assert file[..s.size] == file[..h] + file[h..h + 4] + file[h + 4..h + 4 + len] + file[h + 4 + len..h + 8 + len];
    }
  }

  lemma ParseStep(h: nat, f: Frame, tail: bytes)
    requires Framed(h, f)
    ensures Parse(h, Encode(f) + tail) == [f] + Parse(h, tail)
  {
    hide Encode, Framed;
    FirstEncode(h, f, tail);
  }

  lemma {:induction false} ParseRest(h: nat, fs: seq<Frame>, rest: bytes)
    requires forall f :: f in fs ==> Framed(h, f)
    ensures Parse(h, EncodeAll(fs) + rest) == fs + Parse(h, rest)
    decreases |fs|
  {
    hide Encode, Framed, Parse;
    if fs == [] {
      assert EncodeAll(fs) + rest == rest && fs + Parse(h, rest) == Parse(h, rest);
    } else {
      hide EncodeAll;
      var f, more := fs[0], fs[1..];
      assert fs == [f] + more;
      EncodeAllCons(f, more);
      ParseRest(h, more, rest);
      ParseStep(h, f, EncodeAll(more) + rest);
      assert EncodeAll(fs) + rest == Encode(f) + (EncodeAll(more) + rest);
      assert [f] + (more + Parse(h, rest)) == fs + Parse(h, rest);
    }
  }

  lemma {:induction false} ParseSplits(h: nat, file: bytes) returns (rest: bytes)
    ensures file == EncodeAll(Parse(h, file)) + rest && TornTail(h, rest)
    ensures forall f :: f in Parse(h, file) ==> Framed(h, f)
    decreases |file|
  {
    hide Encode, Framed, TornTail, EncodeAll, First;
    var s := First(h, file);
    FirstIs(h, file);
    if s.Torn? {
      rest := file;
      assert EncodeAll([]) == [] by { EncodeNone(); }
    } else {
      var more := file[s.size..];
      rest := ParseSplits(h, more);
      EncodeAllCons(s.frame, Parse(h, more));
      assert file == file[..s.size] + more;
    }
  }

  lemma EncodeNone()
    ensures EncodeAll([]) == []
  {
  }

  /** What any file parses to: the records it starts with, up to a tail that holds no whole one; checksums do not matter. */
  lemma ParseExact(h: nat, file: bytes, fs: seq<Frame>)
    ensures Parse(h, file) == fs <==>
      && (forall f :: f in fs ==> Framed(h, f))
      && exists rest :: file == EncodeAll(fs) + rest && TornTail(h, rest)
  {
    hide Encode, EncodeAll, Framed;
    var rest := ParseSplits(h, file);
    if (forall f :: f in fs ==> Framed(h, f)) && exists rest :: file == EncodeAll(fs) + rest && TornTail(h, rest) {
      var tail :| file == EncodeAll(fs) + tail && TornTail(h, tail);
      ParseRest(h, fs, tail);
      FirstIs(h, tail);
      assert Parse(h, tail) == [];
    }
  }
}
