/** Decimal digits: numbers as text and back. */
module Decimal {
  predicate IsDigit(c: char) {
    '0' <= c <= '9'
  }

  predicate AllDigits(s: string) {
    forall c :: c in s ==> IsDigit(c)
  }

  function DigitChar(d: nat): (c: char)
    requires d < 10
    ensures IsDigit(c) && c as int - '0' as int == d
  {
    ('0' as int + d) as char
  }

  function Dec(n: nat): (s: string)
    ensures s != "" && AllDigits(s)
  {
    if n < 10 then [DigitChar(n)] else Dec(n / 10) + [DigitChar(n % 10)]
  }

  /** Exactly w digits, with leading zeros. */
  function Pad(w: nat, n: nat): (s: string)
    ensures |s| == w && AllDigits(s)
  {
    if w == 0 then "" else Pad(w - 1, n / 10) + [DigitChar(n % 10)]
  }

  function FromDec(s: string): nat
    requires AllDigits(s)
  {
    if s == "" then 0
    else
      assert s[|s| - 1] in s;
      FromDec(s[..|s| - 1]) * 10 + (s[|s| - 1] as int - '0' as int)
  }

  function Pow10(w: nat): nat {
    if w == 0 then 1 else 10 * Pow10(w - 1)
  }

  lemma {:induction false} DecRoundTrip(n: nat)
    ensures FromDec(Dec(n)) == n
  {
    if n < 10 {
      assert FromDec(Dec(n)[..0]) == 0;
    } else {
      DecRoundTrip(n / 10);
      assert Dec(n)[..|Dec(n)| - 1] == Dec(n / 10);
    }
  }

  lemma {:induction false} PadRoundTrip(w: nat, n: nat)
    requires n < Pow10(w)
    ensures FromDec(Pad(w, n)) == n
  {
    if w > 0 {
      PadRoundTrip(w - 1, n / 10);
      assert Pad(w, n)[..w - 1] == Pad(w - 1, n / 10);
    }
  }

  /** How many digits the text starts with. */
  function Span(text: string): (k: nat)
    ensures k <= |text| && AllDigits(text[..k])
    ensures k < |text| ==> !IsDigit(text[k])
  {
    if text == "" || !IsDigit(text[0]) then 0
    else
      var k := 1 + Span(text[1..]);
      assert text[..k] == [text[0]] + text[1..][..k - 1];
      k
  }

  lemma {:induction false} SpanStops(digits: string, rest: string)
    requires AllDigits(digits) && (rest == "" || !IsDigit(rest[0]))
    ensures Span(digits + rest) == |digits|
    ensures (digits + rest)[..|digits|] == digits && (digits + rest)[|digits|..] == rest
  {
    if digits == "" {
      assert digits + rest == rest;
    } else {
      assert digits[0] in digits && (digits + rest)[1..] == digits[1..] + rest;
      SpanStops(digits[1..], rest);
    }
  }

  /** No number but zero is written with a leading zero. */
  predicate Shortest(s: string) {
    s != "" && AllDigits(s) && (|s| > 1 ==> s[0] != '0')
  }

  lemma {:induction false} ShortestFirst(s: string)
    requires Shortest(s) && |s| > 1
    ensures FromDec(s) >= 10
  {
    var front := s[..|s| - 1];
    assert s[|s| - 1] in s && s[0] in s;
    if |front| > 1 {
      assert Shortest(front) by { assert forall c :: c in front ==> c in s; }
      ShortestFirst(front);
    } else {
      assert front == [s[0]] && front[..0] == "";
      assert FromDec(front) == s[0] as int - '0' as int;
    }
  }

  /** The digits written are the only ones without a leading zero that have the value. */
  lemma {:induction false} DecExact(n: nat, s: string)
    ensures s == Dec(n) <==> Shortest(s) && FromDec(s) == n
  {
    DecRoundTrip(n);
    DecShortest(n);
    if Shortest(s) && FromDec(s) == n {
      assert s[|s| - 1] in s;
      if |s| == 1 {
        assert FromDec(s[..0]) == 0;
      } else {
        var front := s[..|s| - 1];
        ShortestFirst(s);
        assert Shortest(front) by { assert forall c :: c in front ==> c in s; }
        DecExact(n / 10, front);
        assert s == front + [s[|s| - 1]];
      }
    }
  }

  lemma {:induction false} DecShortest(n: nat)
    ensures Shortest(Dec(n))
  {
    if n >= 10 { DecShortest(n / 10); DecNotZero(n / 10); }
  }

  lemma {:induction false} DecNotZero(n: nat)
    requires n > 0
    ensures Dec(n)[0] != '0'
  {
    if n >= 10 { DecNotZero(n / 10); }
  }
}
