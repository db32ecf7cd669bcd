/** How a bare token is read as a number: an i64, else a u64, else a finite double. */
module Numbers {
  import opened Options
  import opened Json

  predicate IsDigit(c: char) { '0' <= c <= '9' }

  predicate AllDigits(s: string) { forall i :: 0 <= i < |s| ==> IsDigit(s[i]) }

  function Decimal(s: string): (n: nat)
    requires AllDigits(s)
  {
    if s == [] then 0 else 10 * Decimal(s[..|s| - 1]) + (s[|s| - 1] as int - '0' as int)
  }

  function StripSign(s: string): string {
    if s != [] && (s[0] == '+' || s[0] == '-') then s[1..] else s
  }

  predicate IsNegative(s: string) { s != [] && s[0] == '-' }

  /** The signed or unsigned 64-bit reading of a token. */
  function ParseInteger(s: string): Option<int> {
    var digits := StripSign(s);
    if digits == [] || !AllDigits(digits) then None
    else
      var n := if IsNegative(s) then -(Decimal(digits) as int) else Decimal(digits);
      if -0x8000_0000_0000_0000 <= n < 0x8000_0000_0000_0000 then Some(n)
      else if 0 <= n < 0x1_0000_0000_0000_0000 && !IsNegative(s) then Some(n)
      else None
  }

  /** The leading digits, and what follows them. */
  function CutDigits(s: string): (parts: (string, string))
    ensures AllDigits(parts.0) && s == parts.0 + parts.1
    ensures parts.1 != [] ==> !IsDigit(parts.1[0])
  {
    if s == [] || !IsDigit(s[0]) then ("", s)
    else
      var (digits, rest) := CutDigits(s[1..]);
      assert s == [s[0]] + s[1..];
      ([s[0]] + digits, rest)
  }

  /** A decimal literal cut into its digits before and after the point and its exponent part. */
  datatype Literal = Literal(whole: string, fraction: string, exponent: string, wellFormed: bool)

  predicate IsExponent(s: string) {
    s == [] || (s[0] in "eE" && StripSign(s[1..]) != [] && AllDigits(StripSign(s[1..])))
  }

  function ReadLiteral(s: string): (l: Literal) {
    var (whole, afterWhole) := CutDigits(StripSign(s));
    var (fraction, rest) :=
      if afterWhole != [] && afterWhole[0] == '.' then CutDigits(afterWhole[1..]) else ("", afterWhole);
    Literal(whole, fraction, if rest == [] then [] else rest[1..],
            (whole != [] || fraction != []) && IsExponent(rest))
  }

  function Pow10(n: nat): nat { if n == 0 then 1 else 10 * Pow10(n - 1) }

  /** The least magnitude that rounds to an infinite double: 2^1024 - 2^970. */
  const DOUBLE_OVERFLOW: nat := 0xFFFFFFFFFFFFFC00000000000000000000000000000000000000000000000000000000000000000000000000000000000000000000000000000000000000000000000000000000000000000000000000000000000000000000000000000000000000000000000000000000000000000000000000000000000000000000000000

  /** Whether a well-formed literal rounds to a finite double. */
  predicate IsFiniteDouble(l: Literal)
    requires AllDigits(l.whole + l.fraction)
    requires AllDigits(StripSign(l.exponent))
  {
    var mantissa := Decimal(l.whole + l.fraction);
    var magnitude: int := Decimal(StripSign(l.exponent));
    var exponent := (if IsNegative(l.exponent) then -magnitude else magnitude) - |l.fraction|;
    if exponent >= 0 then mantissa * Pow10(exponent) < DOUBLE_OVERFLOW
    else mantissa < DOUBLE_OVERFLOW * Pow10(-exponent)
  }

  function ParseNumber(s: string): Option<Num> {
    match ParseInteger(s)
    case Some(i) => Some(Int(i))
    case None =>
      var l := ReadLiteral(s);
      if l.wellFormed && IsFiniteDouble(l) then Some(Float(s)) else None
  }

  predicate IsNumberChar(c: char) { IsDigit(c) || c in "+-.eE" }

  predicate AllNumberChars(s: string) { forall i :: 0 <= i < |s| ==> IsNumberChar(s[i]) }

  lemma NumberCharsJoin(a: string, b: string)
    requires AllNumberChars(a) && AllNumberChars(b)
    ensures AllNumberChars(a + b)
  {
  }

  lemma StripSignChars(s: string)
    requires AllNumberChars(StripSign(s))
    ensures AllNumberChars(s)
  {
    if s != [] && (s[0] == '+' || s[0] == '-') {
      assert s == [s[0]] + s[1..];
      NumberCharsJoin([s[0]], s[1..]);
    }
  }

  lemma ExponentChars(s: string)
    requires IsExponent(s)
    ensures AllNumberChars(s)
  {
    if s != [] {
      StripSignChars(s[1..]);
      assert s == [s[0]] + s[1..];
    }
  }

  lemma ReadLiteralChars(s: string)
    requires ReadLiteral(s).wellFormed
    ensures AllNumberChars(s) && s != []
    ensures IsDigit(s[0]) || s[0] in "+-."
  {
    var t := StripSign(s);
    var (whole, afterWhole) := CutDigits(t);
    if afterWhole != [] && afterWhole[0] == '.' {
      var (fraction, rest) := CutDigits(afterWhole[1..]);
      ExponentChars(rest);
      NumberCharsJoin(fraction, rest);
      assert afterWhole == ['.'] + afterWhole[1..];
      NumberCharsJoin(['.'], afterWhole[1..]);
    } else {
      ExponentChars(afterWhole);
    }
    NumberCharsJoin(whole, afterWhole);
    StripSignChars(s);
    assert whole != [] ==> whole[0] == t[0];
    assert whole == [] ==> t == afterWhole;
  }

  /** A token that reads as a number has only digits, signs, points and exponent
      letters, and does not begin with a letter. */
  lemma NumberToken(s: string)
    requires ParseNumber(s).Some?
    ensures s != [] && AllNumberChars(s)
    ensures IsDigit(s[0]) || s[0] in "+-."
  {
    if ParseInteger(s).Some? {
      StripSignChars(s);
    } else {
      ReadLiteralChars(s);
    }
  }

  // ---------------------------------------------------------------------------
  // The numbers of RFC 8259, section 6
  // ---------------------------------------------------------------------------

  /** `[minus] int [frac] [exp]`; an absent part is empty, and `mark` is the
      exponent letter with its sign. */
  datatype NumberText = NumberText(minus: bool, whole: string, fraction: string, mark: string, exponent: string)

  predicate ValidNumber(n: NumberText) {
    && n.whole != "" && AllDigits(n.whole) && (n.whole[0] == '0' ==> |n.whole| == 1)
    && AllDigits(n.fraction)
    && AllDigits(n.exponent)
    && (n.mark == "" <==> n.exponent == "")
    && (n.mark != "" ==> n.mark[0] in "eE" && (|n.mark| == 1 || (|n.mark| == 2 && n.mark[1] in "+-")))
  }

  function FractionText(n: NumberText): string { if n.fraction == "" then "" else "." + n.fraction }

  function MagnitudeText(n: NumberText): string { n.whole + (FractionText(n) + (n.mark + n.exponent)) }

  function NumberString(n: NumberText): string { (if n.minus then "-" else "") + MagnitudeText(n) }

  predicate IsInteger(n: NumberText) { n.fraction == "" && n.mark == "" }

  function IntegerValue(n: NumberText): int
    requires ValidNumber(n)
  {
    if n.minus then -(Decimal(n.whole) as int) else Decimal(n.whole)
  }

  /** An i64, or a u64 that is not written with a minus. */
  predicate Fits64(n: NumberText)
    requires ValidNumber(n)
  {
    -0x8000_0000_0000_0000 <= IntegerValue(n) < if n.minus then 0x8000_0000_0000_0000 else 0x1_0000_0000_0000_0000
  }

  function ExponentText(n: NumberText): string { if n.mark == "" then "" else n.mark[1..] + n.exponent }

  /** Whether the number rounds to a finite double. */
  predicate IsFiniteNumber(n: NumberText)
    requires ValidNumber(n)
  {
    ExponentReads(n);
    IsFiniteDouble(Literal(n.whole, n.fraction, ExponentText(n), true))
  }

  lemma ExponentReads(n: NumberText)
    requires ValidNumber(n)
    ensures StripSign(ExponentText(n)) == n.exponent && AllDigits(n.whole + n.fraction)
    ensures IsExponent(n.mark + n.exponent)
    ensures ExponentText(n) == if n.mark + n.exponent == [] then [] else (n.mark + n.exponent)[1..]
  {
    var e := n.mark + n.exponent;
    if n.mark != "" {
      assert e[1..] == n.mark[1..] + n.exponent;
      if |n.mark| == 1 {
        assert e[1..] == n.exponent;
      } else {
        assert e[1..][1..] == n.exponent;
      }
    }
  }

  lemma {:induction false} CutDigitsIs(digits: string, rest: string)
    requires AllDigits(digits) && (rest != [] ==> !IsDigit(rest[0]))
    ensures CutDigits(digits + rest) == (digits, rest)
  {
    if digits == [] {
      assert digits + rest == rest;
    } else {
      assert (digits + rest)[1..] == digits[1..] + rest && digits == [digits[0]] + digits[1..];
      CutDigitsIs(digits[1..], rest);
    }
  }

  lemma MarkIsNoDigit(n: NumberText)
    requires ValidNumber(n)
    ensures AllDigits(n.whole) && AllDigits(n.fraction) && n.whole != ""
    ensures var e := n.mark + n.exponent; e != [] ==> !IsDigit(e[0]) && e[0] != '.'
  {
  }

  lemma MagnitudeReads(n: NumberText, s: string)
    requires ValidNumber(n) && StripSign(s) == MagnitudeText(n)
    ensures ReadLiteral(s) == Literal(n.whole, n.fraction, ExponentText(n), true)
  {
    hide CutDigits, ValidNumber, AllDigits, ExponentText, IsExponent;
    ExponentReads(n);
    MarkIsNoDigit(n);
    var e := n.mark + n.exponent;
    CutDigitsIs(n.whole, FractionText(n) + e);
    if n.fraction != "" {
      assert (FractionText(n) + e)[1..] == n.fraction + e;
      CutDigitsIs(n.fraction, e);
    } else {
      assert FractionText(n) + e == e;
    }
  }

  lemma SignStrips(n: NumberText)
    requires ValidNumber(n)
    ensures StripSign(NumberString(n)) == MagnitudeText(n) && IsNegative(NumberString(n)) == n.minus
  {
    assert MagnitudeText(n)[0] == n.whole[0];
    assert NumberString(n) == if n.minus then ['-'] + MagnitudeText(n) else MagnitudeText(n);
  }

  lemma IntegerOrNot(n: NumberText)
    requires ValidNumber(n)
    ensures AllDigits(MagnitudeText(n)) <==> IsInteger(n)
    ensures IsInteger(n) ==> MagnitudeText(n) == n.whole
  {
    var m := MagnitudeText(n);
    if n.fraction != "" {
      assert m[|n.whole|] == '.';
    } else if n.mark != "" {
      assert m[|n.whole|] == n.mark[0];
    }
  }

  lemma SmallIsFinite(n: NumberText)
    requires ValidNumber(n) && IsInteger(n) && Fits64(n)
    ensures IsFiniteNumber(n)
  {
    ExponentReads(n);
    assert n.whole + n.fraction == n.whole;
    assert Pow10(0) == 1;
  }

  /** Every number of the grammar that a double can hold reads as a number: an
      integer of 64 bits as itself, any other one by its literal; no other number
      of the grammar reads as anything. */
  lemma GrammarNumberReads(n: NumberText)
    requires ValidNumber(n)
    ensures ParseNumber(NumberString(n)) ==
      if IsInteger(n) && Fits64(n) then Some(Int(IntegerValue(n)))
      else if IsFiniteNumber(n) then Some(Float(NumberString(n)))
      else None
    ensures ParseNumber(NumberString(n)).Some? <==> IsFiniteNumber(n)
  {
    hide IsFiniteDouble, Decimal, ReadLiteral;
    SignStrips(n);
    IntegerOrNot(n);
    MagnitudeReads(n, NumberString(n));
    ExponentReads(n);
    if IsInteger(n) && Fits64(n) {
      SmallIsFinite(n);
    }
  }
}
