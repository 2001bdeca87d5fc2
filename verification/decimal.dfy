/**
 * Decimal text for integers: the `N` payload of the wire format is the
 * number written in base ten (JavaScript's `String(n)` for a safe integer,
 * one of magnitude below 2^53, which it writes as plain digits), and
 * decoding reads it back (JavaScript's `Number(text)`, restricted to
 * integer text).
 */
module Decimal {
  import opened Results

  predicate IsDigit(c: char) { '0' <= c <= '9' }

  /** Non-empty and made only of decimal digits. */
  predicate IsDigits(s: string)
  {
    |s| >= 1 && forall i :: 0 <= i < |s| ==> IsDigit(s[i])
  }

  function DigitChar(d: nat): (c: char)
    requires d < 10
    ensures IsDigit(c) && c as int - '0' as int == d
  {
    ('0' as int + d) as char
  }

  function DigitValue(c: char): (d: nat)
    requires IsDigit(c)
    ensures d < 10 && DigitChar(d) == c
  {
    c as int - '0' as int
  }

  /** Base-ten digits of n, most significant first, with no leading zero. */
  function NatToText(n: nat): (s: string)
    ensures IsDigits(s)
    ensures (s[0] == '0') <==> (n == 0)
    ensures n == 0 ==> s == "0"
  {
    if n < 10 then [DigitChar(n)] else NatToText(n / 10) + [DigitChar(n % 10)]
  }

  /** The number a string of digits denotes; leading zeros are allowed. */
  function TextToNat(s: string): nat
    requires forall i :: 0 <= i < |s| ==> IsDigit(s[i])
  {
    if s == [] then 0 else 10 * TextToNat(s[..|s| - 1]) + DigitValue(s[|s| - 1])
  }

  /**
   * `String(n)` for a safe integer n: an optional minus sign, then the
   * digits. Beyond that range JavaScript switches to exponent text, which
   * is not modelled.
   */
  function IntToText(n: int): string
  {
    if n < 0 then "-" + NatToText(-n) else NatToText(n)
  }

  /** `Number(text)` for decimal integer text; any other text yields None. */
  function TextToInt(s: string): Option<int>
  {
    if IsDigits(s) then Some(TextToNat(s))
    else if |s| >= 2 && s[0] == '-' && IsDigits(s[1..]) then Some(-(TextToNat(s[1..]) as int))
    else None
  }

  /** The text `String(n)` produces: no leading zero, and no "-0". */
  predicate Canonical(s: string)
  {
    || (IsDigits(s) && (s[0] == '0' ==> |s| == 1))
    || (|s| >= 2 && s[0] == '-' && IsDigits(s[1..]) && s[1] != '0')
  }

  lemma {:induction false} NatRoundTrip(n: nat)
    ensures TextToNat(NatToText(n)) == n
  {
    if n >= 10 {
      var s := NatToText(n);
      assert s[..|s| - 1] == NatToText(n / 10);
      NatRoundTrip(n / 10);
    }
  }

  /** Decoding the text of an integer gives the integer back. */
  lemma IntRoundTrip(n: int)
    ensures TextToInt(IntToText(n)) == Some(n)
  {
    if n < 0 {
      var s := IntToText(n);
      assert s[1..] == NatToText(-n);
      NatRoundTrip(-n);
    } else {
      NatRoundTrip(n);
    }
  }

  /** The text of every integer is canonical. */
  lemma IntToTextCanonical(n: int)
    ensures Canonical(IntToText(n))
  {
    if n < 0 {
      assert IntToText(n)[1..] == NatToText(-n);
    }
  }

  lemma {:induction false} LeadingNonZero(s: string)
    requires IsDigits(s) && s[0] != '0'
    ensures TextToNat(s) >= 1
  {
    if |s| > 1 {
      LeadingNonZero(s[..|s| - 1]);
    }
  }

  lemma {:induction false} CanonicalNatRoundTrip(s: string)
    requires IsDigits(s) && (s[0] == '0' ==> |s| == 1)
    ensures NatToText(TextToNat(s)) == s
  {
    if |s| > 1 {
      var p := s[..|s| - 1];
      LeadingNonZero(p);
      CanonicalNatRoundTrip(p);
      assert s == p + [s[|s| - 1]];
    }
  }

  /** Canonical text is exactly the text of the integer it denotes. */
  lemma CanonicalRoundTrip(s: string)
    requires Canonical(s)
    ensures TextToInt(s).Some? && IntToText(TextToInt(s).value) == s
  {
    if IsDigits(s) && (s[0] == '0' ==> |s| == 1) {
      CanonicalNatRoundTrip(s);
    } else {
      var t := s[1..];
      LeadingNonZero(t);
      CanonicalNatRoundTrip(t);
      assert s == "-" + t;
    }
  }
}
