/** Numbers and byte strings written as text: decimal and hexadecimal. */
module Text {
  import opened Common
  import opened Bytes

  // ---- decimal --------------------------------------------------------------------------

  const DIGITS: string := "0123456789abcdef"

  function Digit(d: nat): char
    requires d < 16
  {
    DIGITS[d]
  }

  /** Hexadecimal digits are read in either case. */
  function DigitValue(c: char): Option<nat> {
    if '0' <= c <= '9' then Some((c as int) - ('0' as int))
    else if 'a' <= c <= 'f' then Some((c as int) - ('a' as int) + 10)
    else if 'A' <= c <= 'F' then Some((c as int) - ('A' as int) + 10)
    else None
  }

  lemma DigitReadsBack(d: nat)
    requires d < 16
    ensures DigitValue(Digit(d)) == Some(d)
    ensures Digit(d) != '\n' && Digit(d) != '-' && Digit(d) != '+'
  {
    assert DIGITS == ['0', '1', '2', '3', '4', '5', '6', '7', '8', '9', 'a', 'b', 'c', 'd', 'e', 'f'];
  }

  function Decimal(n: nat): (s: string)
    ensures |s| > 0
  {
    if n < 10 then [Digit(n)] else Decimal(n / 10) + [Digit(n % 10)]
  }

  /** The number a string of decimal digits denotes, when it is one. */
  function ParseDigits(s: string): Option<nat> {
    if s == [] then Some(0)
    else
      var front := ParseDigits(s[..|s| - 1]);
      var last := DigitValue(s[|s| - 1]);
      if front.None? || last.None? || last.value >= 10 then None else Some(10 * front.value + last.value)
  }

  lemma {:induction false} ParseDecimal(n: nat)
    ensures ParseDigits(Decimal(n)) == Some(n)
  {
    hide DigitValue;
    DigitReadsBack(n % 10);
    if n < 10 {
      assert Decimal(n)[..0] == [];
    } else {
      ParseDecimal(n / 10);
      assert Decimal(n)[..|Decimal(n)| - 1] == Decimal(n / 10);
    }
  }

  lemma {:induction false} DecimalPlain(n: nat, i: nat)
    requires i < |Decimal(n)|
    ensures Decimal(n)[i] != '\n' && Decimal(n)[i] != '-' && Decimal(n)[i] != '+'
  {
    DigitReadsBack(n % 10);
    if n >= 10 && i < |Decimal(n)| - 1 {
      DecimalPlain(n / 10, i);
    }
  }

  lemma DecimalInjective(a: nat, b: nat)
    requires Decimal(a) == Decimal(b)
    ensures a == b
  {
    ParseDecimal(a);
    ParseDecimal(b);
  }

  function DecimalInt(n: int): string {
    if n < 0 then "-" + Decimal(-n) else Decimal(n)
  }

  function Signed(negative: bool, n: int): int {
    if negative then -n else n
  }

  /** An absent amount is zero; otherwise an optional sign and at least one digit. */
  function ParseInt(s: string): Option<int> {
    if s == "" then Some(0)
    else
      var signed := s[0] == '-' || s[0] == '+';
      var digits := if signed then s[1..] else s;
      if digits == "" then None
      else
        var n := ParseDigits(digits);
        if n.None? then None else Some(Signed(s[0] == '-', n.value))
  }

  lemma ParseDecimalInt(n: int)
    ensures ParseInt(DecimalInt(n)) == Some(n) && DecimalInt(n) != ""
  {
    hide ParseDigits, Decimal;
    var m := if n < 0 then -n else n;
    ParseDecimal(m);
    DecimalPlain(m, 0);
    if n < 0 {
      assert DecimalInt(n)[1..] == Decimal(m);
    }
  }

  /** A digit is read exactly when it is one, and a letter in either case alike. */
  lemma DigitsExactly(c: char)
    ensures DigitValue(c).Some? <==> '0' <= c <= '9' || 'a' <= c <= 'f' || 'A' <= c <= 'F'
    ensures '0' <= c <= '9' ==> DigitValue(c) == Some((c as int) - 48)
    ensures 'a' <= c <= 'f' ==> DigitValue(c) == Some((c as int) - 87)
    ensures 'A' <= c <= 'F' ==> DigitValue(c) == Some((c as int) - 55)
  {
  }

  /** Decimal digits are read exactly when all of them are digits from 0 to 9. */
  lemma {:induction false} ParsesDigitsExactly(s: string)
    ensures ParseDigits(s).Some? <==> forall i :: 0 <= i < |s| ==> '0' <= s[i] <= '9'
  {
    if s != [] {
      var n := |s| - 1;
      ParsesDigitsExactly(s[..n]);
      DigitsExactly(s[n]);
      assert s == s[..n] + [s[n]];
      hide DigitValue;
    }
  }

  /** An amount is read exactly when it is absent, or one or more digits behind at most one
      sign; the sign decides which way it counts. */
  lemma ParsesExactly(s: string)
    ensures ParseInt(s).Some? <==>
              || s == ""
              || (forall i :: 0 <= i < |s| ==> '0' <= s[i] <= '9')
              || (|s| > 1 && (s[0] == '-' || s[0] == '+') && forall i :: 1 <= i < |s| ==> '0' <= s[i] <= '9')
    ensures |s| > 0 && s[0] == '+' && ParseInt(s).Some? ==> ParseInt(s).value >= 0
    ensures |s| > 0 && s[0] == '-' && ParseInt(s).Some? ==> ParseInt(s).value <= 0
  {
    if s != "" {
      ParsesDigitsExactly(s);
      ParsesDigitsExactly(s[1..]);
      assert forall i :: 1 <= i < |s| ==> s[i] == s[1..][i - 1];
      hide ParseDigits;
    }
  }

  // ---- hexadecimal ---------------------------------------------------------------------

  function Hex(b: seq<Byte>): (s: string)
    ensures |s| == 2 * |b|
  {
    if b == [] then [] else Hex(b[..|b| - 1]) + [Digit(b[|b| - 1] / 16), Digit(b[|b| - 1] % 16)]
  }

  function ParseHex(s: string): (b: Option<seq<Byte>>)
    ensures b.Some? ==> 2 * |b.value| == |s|
  {
    if s == [] then Some([])
    else if |s| == 1 then None
    else
      var front := ParseHex(s[..|s| - 2]);
      var high, low := DigitValue(s[|s| - 2]), DigitValue(s[|s| - 1]);
      if front.None? || high.None? || low.None? then None
      else DigitBound(s[|s| - 2]); DigitBound(s[|s| - 1]); Some(front.value + [16 * high.value + low.value])
  }

  lemma DigitBound(c: char)
    ensures DigitValue(c).Some? ==> DigitValue(c).value < 16
  {
  }

  lemma {:induction false} ParseHexHex(b: seq<Byte>)
    ensures ParseHex(Hex(b)) == Some(b)
  {
    if b != [] {
      ParseHexHex(b[..|b| - 1]);
      ParseHexMore(b[..|b| - 1], b[|b| - 1]);
      assert b == b[..|b| - 1] + [b[|b| - 1]];
    }
  }

  lemma ParseHexMore(front: seq<Byte>, last: Byte)
    requires ParseHex(Hex(front)) == Some(front)
    ensures Hex(front + [last]) == Hex(front) + [Digit(last / 16), Digit(last % 16)]
    ensures ParseHex(Hex(front + [last])) == Some(front + [last])
  {
    hide DigitValue, Digit;
    var s := Hex(front) + [Digit(last / 16), Digit(last % 16)];
    assert (front + [last])[..|front|] == front;
    assert s[..|s| - 2] == Hex(front);
    DigitReadsBack(last / 16);
    DigitReadsBack(last % 16);
    assert 16 * (last / 16) + last % 16 == last;
  }

  function ParseBytes32(s: string): Option<Bytes32> {
    var b := ParseHex(s);
    if b.None? || |b.value| != 32 then None else Some(b.value)
  }

  lemma ParseBytes32Hex(b: Bytes32)
    ensures ParseBytes32(Hex(b)) == Some(b) && Hex(b) != ""
  {
    ParseHexHex(b);
  }

  predicate HexDigit(c: char) {
    '0' <= c <= '9' || 'a' <= c <= 'f' || 'A' <= c <= 'F'
  }

  lemma {:induction false} ParsesHexExactly(s: string)
    ensures ParseHex(s).Some? <==> |s| % 2 == 0 && forall i :: 0 <= i < |s| ==> HexDigit(s[i])
    decreases |s|
  {
    if |s| >= 2 {
      var n := |s| - 2;
      ParsesHexExactly(s[..n]);
      DigitsExactly(s[n]);
      DigitsExactly(s[n + 1]);
      assert s == s[..n] + [s[n], s[n + 1]];
      assert n % 2 == |s| % 2;
      hide DigitValue;
    }
  }

  /** Exactly 64 digits of either case are read as 32 bytes. */
  lemma ParsesBytes32Exactly(s: string)
    ensures ParseBytes32(s).Some? <==> |s| == 64 && forall i :: 0 <= i < |s| ==> HexDigit(s[i])
  {
    ParsesHexExactly(s);
    hide ParseHex, HexDigit;
  }
}
