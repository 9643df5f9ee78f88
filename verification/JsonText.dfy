/**
  JSON strings: the two printers' escaping (json_escape in core/src/hash_chain.cpp and JSON.stringify as
  sdk/typescript/src/hashing.ts uses it) and a reader for section 7 of RFC 8259 that undoes both.
 */
module JsonText {
  import opened Common
  /** Core writes backspace and form feed as hexadecimal escapes; Script has short escapes for them. */
  datatype Style = Core | Script

  function HexDigit(d: nat): char
    requires d < 16
  {
    if d < 10 then ('0' as int + d) as char else ('a' as int + d - 10) as char
  }

  function HexValue(c: char): Option<nat> {
    if '0' <= c <= '9' then Some(c as int - '0' as int)
    else if 'a' <= c <= 'f' then Some(c as int - 'a' as int + 10)
    else if 'A' <= c <= 'F' then Some(c as int - 'A' as int + 10)
    else None
  }

  /** The character of a two-character escape, by its second character. */
  function ShortEscape(c: char): Option<char> {
    if c == '"' || c == '\\' || c == '/' then Some(c)
    else if c == 'b' then Some(8 as char)
    else if c == 'f' then Some(12 as char)
    else if c == 'n' then Some('\n')
    else if c == 'r' then Some('\r')
    else if c == 't' then Some('\t')
    else None
  }

  function EscapeChar(style: Style, c: char): (s: string)
    ensures s != ""
    ensures forall j :: 0 <= j < |s| && s[j] == '"' ==> j == 1 && s[0] == '\\'
  {
    if c == '"' then "\\\""
    else if c == '\\' then "\\\\"
    else if c == '\n' then "\\n"
    else if c == '\r' then "\\r"
    else if c == '\t' then "\\t"
    else if style == Script && c == 8 as char then "\\b"
    else if style == Script && c == 12 as char then "\\f"
    else if c < ' ' then ['\\', 'u', '0', '0', HexDigit(c as int / 16), HexDigit(c as int % 16)]
    else [c]
  }

  /** The escaped characters, without the quotes. */
  function Body(style: Style, s: string): string {
    if s == "" then "" else EscapeChar(style, s[0]) + Body(style, s[1..])
  }

  function Quote(style: Style, s: string): string {
    "\"" + Body(style, s) + "\""
  }

  /** The printer's loop: one switch per character, appending to the output. */
  method JsonEscape(s: string) returns (out: string)
    ensures out == Quote(Core, s)
  {
    out := "\"";
    assert s[..0] == "" && Body(Core, "") == "";
    hide Body;
    for i := 0 to |s|
      invariant out == "\"" + Body(Core, s[..i])
    {
      var c := s[i];
      BodySnoc(Core, s[..i], c);
      assert s[..i + 1] == s[..i] + [c];
      if c == '"' { out := out + "\\\""; }
      else if c == '\\' { out := out + "\\\\"; }
      else if c == '\n' { out := out + "\\n"; }
      else if c == '\r' { out := out + "\\r"; }
      else if c == '\t' { out := out + "\\t"; }
      else if c < ' ' { out := out + ['\\', 'u', '0', '0', HexDigit(c as int / 16), HexDigit(c as int % 16)]; }
      else { out := out + [c]; }
    }
    assert s[..|s|] == s;
    out := out + "\"";
  }

  lemma {:induction false} BodySnoc(style: Style, s: string, c: char)
    ensures Body(style, s + [c]) == Body(style, s) + EscapeChar(style, c)
  {
    if s != "" {
      BodySnoc(style, s[1..], c);
      assert (s + [c])[1..] == s[1..] + [c];
    } else {
      assert (s + [c])[1..] == "";
    }
  }

  // ---- reading ----

  datatype Read = Read(s: string, rest: string)

  /** One character of a string body, with the number of characters it was written in. */
  datatype One = One(c: char, size: nat)

  function ReadChar(text: string): (r: Option<One>)
    ensures r.Some? ==> 0 < r.value.size <= |text|
  {
    if text == "" || text[0] == '"' || text[0] < ' ' then None
    else if text[0] != '\\' then Some(One(text[0], 1))
    else if |text| < 2 then None
    else if ShortEscape(text[1]).Some? then Some(One(ShortEscape(text[1]).value, 2))
    else if text[1] == 'u' && |text| >= 6 then ReadHex(text)
    else None
  }

  /** A four-digit escape; surrogates are no characters here. */
  function ReadHex(text: string): Option<One>
    requires |text| >= 6
  {
    var a, b, c, d := HexValue(text[2]), HexValue(text[3]), HexValue(text[4]), HexValue(text[5]);
    if a.None? || b.None? || c.None? || d.None? then None
    else
      var v := ((a.value * 16 + b.value) * 16 + c.value) * 16 + d.value;
      if 0xD800 <= v < 0xE000 || v >= 0x10000 then None else Some(One(v as char, 6))
  }

  /** The rest of a string whose opening quote has been read. */
  function ReadBody(text: string): (r: Option<Read>)
    ensures r.Some? ==> |r.value.rest| < |text|
    decreases |text|
  {
    if text != "" && text[0] == '"' then Some(Read("", text[1..]))
    else
      var one := ReadChar(text);
      if one.None? then None
      else
        var more := ReadBody(text[one.value.size..]);
        if more.None? then None else Some(Read([one.value.c] + more.value.s, more.value.rest))
  }

  function ReadString(text: string): (r: Option<Read>)
    ensures r.Some? ==> |r.value.rest| < |text|
  {
    if text == "" || text[0] != '"' then None else ReadBody(text[1..])
  }

  lemma HexUndo(d: nat)
    requires d < 16
    ensures HexValue(HexDigit(d)) == Some(d)
  {
  }

  /** Every written character is read back whole, whatever follows. */
  lemma ReadWritten(style: Style, c: char, rest: string)
    ensures ReadChar(EscapeChar(style, c) + rest) == Some(One(c, |EscapeChar(style, c)|))
    ensures EscapeChar(style, c)[0] != '"'
    ensures (EscapeChar(style, c) + rest)[|EscapeChar(style, c)|..] == rest
  {
    var v := c as int;
    if v < 32 {
      HexUndo(v / 16);
      HexUndo(v % 16);
    }
  }

  /** Reading undoes writing: a quoted string is self-delimiting and comes back exactly. */
  lemma {:induction false} ReadUndoesBody(style: Style, s: string, rest: string)
    ensures ReadBody(Body(style, s) + "\"" + rest) == Some(Read(s, rest))
  {
    if s == "" {
      assert Body(style, s) + "\"" + rest == "\"" + rest;
    } else {
      var more := Body(style, s[1..]) + "\"" + rest;
      assert Body(style, s) + "\"" + rest == EscapeChar(style, s[0]) + more;
      ReadWritten(style, s[0], more);
      ReadUndoesBody(style, s[1..], rest);
      assert [s[0]] + s[1..] == s;
    }
  }

  lemma ReadUndoesQuote(style: Style, s: string, rest: string)
    ensures ReadString(Quote(style, s) + rest) == Some(Read(s, rest))
  {
    hide Body, ReadBody;
    ReadUndoesBody(style, s, rest);
    assert (Quote(style, s) + rest)[1..] == Body(style, s) + "\"" + rest;
  }

  /** A quote character only ever follows a backslash. */
  predicate Guarded(b: string) {
    forall j :: 0 <= j < |b| && b[j] == '"' ==> j > 0 && b[j - 1] == '\\'
  }

  lemma GuardedConcat(a: string, b: string)
    requires Guarded(a) && Guarded(b)
    ensures Guarded(a + b)
  {
    var t := a + b;
    forall j | 0 <= j < |t| && t[j] == '"' ensures j > 0 && t[j - 1] == '\\' {
      if j < |a| { assert a[j] == '"'; } else { assert b[j - |a|] == '"'; }
    }
  }

  lemma {:induction false} BodyGuarded(style: Style, s: string)
    ensures Guarded(Body(style, s))
  {
    if s != "" {
      BodyGuarded(style, s[1..]);
      assert Guarded(EscapeChar(style, s[0]));
      GuardedConcat(EscapeChar(style, s[0]), Body(style, s[1..]));
    }
  }

  // ---- which spelling is written ----

  /** Characters that have a two-character escape in the style. */
  predicate HasShort(style: Style, c: char) {
    c == '"' || c == '\\' || c == '\n' || c == '\r' || c == '\t' || (style == Script && (c as int == 8 || c as int == 12))
  }

  predicate LowerHex(c: char) {
    '0' <= c <= '9' || 'a' <= c <= 'f'
  }

  /** In how many characters a character is written: itself where it may stand, two, or a hexadecimal escape. */
  function SpellSize(style: Style, c: char): nat {
    if HasShort(style, c) then 2 else if c as int >= 32 then 1 else 6
  }

  /** A text a reader takes for the one character, of the right size and, as a hexadecimal escape, in lower case. */
  predicate Spells(style: Style, c: char, text: string) {
    && |text| == SpellSize(style, c)
    && ReadChar(text) == Some(One(c, |text|))
    && (|text| == 6 ==> forall j :: 2 <= j < 6 ==> LowerHex(text[j]))
  }

  lemma HexOnly(c: char)
    requires LowerHex(c)
    ensures HexValue(c).Some? && HexValue(c).value < 16 && HexDigit(HexValue(c).value) == c
  {
  }

  /** There is one such text, and it is the one written. */
  lemma SpellingExact(style: Style, c: char, text: string)
    ensures Spells(style, c, text) <==> text == EscapeChar(style, c)
  {
    ReadWritten(style, c, "");
    assert EscapeChar(style, c) + "" == EscapeChar(style, c);
    if Spells(style, c, text) {
      if |text| == 6 {
        HexSpelling(text, c);
      } else if |text| == 2 {
        assert text == [text[0], text[1]];
      } else {
        assert text == [text[0]];
      }
    }
  }

  lemma HexSpelling(text: string, c: char)
    requires |text| == 6 && ReadChar(text) == Some(One(c, 6)) && c as int < 32 && forall j :: 2 <= j < 6 ==> LowerHex(text[j])
    ensures text == ['\\', 'u', '0', '0', HexDigit(c as int / 16), HexDigit(c as int % 16)]
  {
    HexOnly(text[2]);
    HexOnly(text[3]);
    HexOnly(text[4]);
    HexOnly(text[5]);
    var x, y, z, w := HexValue(text[2]).value, HexValue(text[3]).value, HexValue(text[4]).value, HexValue(text[5]).value;
    assert ((x * 16 + y) * 16 + z) * 16 + w == c as int;
    assert x == 0 && y == 0 && z == c as int / 16 && w == c as int % 16;
    assert text == [text[0], text[1], text[2], text[3], text[4], text[5]];
  }

  predicate StyleFree(s: string) {
    8 as char !in s && 12 as char !in s
  }

  /** The two printers write a string alike exactly when it holds no backspace and no form feed. */
  lemma {:induction false} StylesAgree(s: string)
    ensures Quote(Core, s) == Quote(Script, s) <==> StyleFree(s)
  {
    BodiesAgree(s);
    assert Quote(Core, s)[1..|Quote(Core, s)| - 1] == Body(Core, s);
    assert Quote(Script, s)[1..|Quote(Script, s)| - 1] == Body(Script, s);
  }

  lemma {:induction false} BodiesAgree(s: string)
    ensures Body(Core, s) == Body(Script, s) <==> StyleFree(s)
  {
    if s != "" {
      var x, y := EscapeChar(Core, s[0]), EscapeChar(Script, s[0]);
      BodiesAgree(s[1..]);
      assert forall c :: c in s <==> c == s[0] || c in s[1..];
      assert Body(Core, s)[..|x|] == x && Body(Core, s)[|x|..] == Body(Core, s[1..]);
      assert Body(Script, s)[..|y|] == y && Body(Script, s)[|y|..] == Body(Script, s[1..]);
      if s[0] as int == 8 || s[0] as int == 12 {
        assert Body(Core, s)[1] == x[1] && Body(Script, s)[1] == y[1] && x[1] != y[1];
      } else {
        assert x == y;
      }
    }
  }
}
