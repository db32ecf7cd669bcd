/** Lossy incremental UTF-8 decoding (RFC 3629, section 3), with the error
    lengths of Rust's `std::str::from_utf8`. */
module Utf8 {
  import opened Chars
  import opened Seqs

  type byte = b: int | 0 <= b < 256

  predicate IsContinuation(b: byte) { 0x80 <= b <= 0xBF }

  /** The outcome of reading one sequence at the start of the input. */
  datatype Sequence = Scalar(c: char, length: nat) | Malformed(length: nat) | Truncated

  /** Bytes allowed after the first byte of a three or four byte sequence. */
  predicate SecondByteFits(first: byte, second: byte) {
    if first == 0xE0 then 0xA0 <= second <= 0xBF
    else if first == 0xED then 0x80 <= second <= 0x9F
    else if first == 0xF0 then 0x90 <= second <= 0xBF
    else if first == 0xF4 then 0x80 <= second <= 0x8F
    else IsContinuation(second)
  }

  function Two(a: byte, b: byte): int { (a - 0xC0) * 64 + (b - 0x80) }
  function Three(a: byte, b: byte, c: byte): int { ((a - 0xE0) * 64 + (b - 0x80)) * 64 + (c - 0x80) }
  function Four(a: byte, b: byte, c: byte, d: byte): int {
    (((a - 0xF0) * 64 + (b - 0x80)) * 64 + (c - 0x80)) * 64 + (d - 0x80)
  }

  function ReadSequence(s: seq<byte>): (r: Sequence)
    requires s != []
    ensures r.Scalar? || r.Malformed? ==> 1 <= r.length <= |s|
    ensures r.Truncated? ==> |s| < 4
  {
    var a := s[0];
    if a < 0x80 then Scalar(a as char, 1)
    else if 0xC2 <= a <= 0xDF then
      if |s| < 2 then Truncated
      else if IsContinuation(s[1]) then Scalar(Two(a, s[1]) as char, 2)
      else Malformed(1)
    else if 0xE0 <= a <= 0xEF then
      if |s| < 2 then Truncated
      else if !SecondByteFits(a, s[1]) then Malformed(1)
      else if |s| < 3 then Truncated
      else if IsContinuation(s[2]) then Scalar(Three(a, s[1], s[2]) as char, 3)
      else Malformed(2)
    else if 0xF0 <= a <= 0xF4 then
      if |s| < 2 then Truncated
      else if !SecondByteFits(a, s[1]) then Malformed(1)
      else if |s| < 3 then Truncated
      else if !IsContinuation(s[2]) then Malformed(2)
      else if |s| < 4 then Truncated
      else if IsContinuation(s[3]) then Scalar(Four(a, s[1], s[2], s[3]) as char, 4)
      else Malformed(3)
    else Malformed(1)
  }

  /** More input never changes a sequence that was already decided. */
  lemma DecidedSequence(a: seq<byte>, b: seq<byte>)
    requires a != [] && !ReadSequence(a).Truncated?
    ensures ReadSequence(a + b) == ReadSequence(a)
  {
    var s := a + b;
    assert s[0] == a[0] && (|a| > 1 ==> s[1] == a[1]) && (|a| > 2 ==> s[2] == a[2]) && (|a| > 3 ==> s[3] == a[3]);
  }

  // ---------------------------------------------------------------------------
  // Validation, as the standard library reports it
  // ---------------------------------------------------------------------------

  datatype Ending = Complete | ErrorLength(n: nat) | UnexpectedEnd

  /** The longest valid prefix as text, its length in bytes, and why it ends there. */
  datatype Validation = Validation(text: string, validUpTo: nat, ending: Ending)

  function FromUtf8(s: seq<byte>): (v: Validation)
    ensures v.validUpTo <= |s|
    ensures v.ending.Complete? <==> v.validUpTo == |s|
    ensures v.ending.ErrorLength? ==> 1 <= v.ending.n <= |s| - v.validUpTo
    decreases |s|
  {
    if s == [] then Validation("", 0, Complete)
    else
      match ReadSequence(s)
      case Scalar(c, n) =>
        var rest := FromUtf8(s[n..]);
        Validation([c] + rest.text, n + rest.validUpTo, rest.ending)
      case Malformed(n) => Validation("", 0, ErrorLength(n))
      case Truncated => Validation("", 0, UnexpectedEnd)
  }

  // ---------------------------------------------------------------------------
  // Lossy decoding
  // ---------------------------------------------------------------------------

  /** The text of the decided sequences and the undecided tail. */
  function Decode(s: seq<byte>): (r: (string, seq<byte>))
    ensures |r.1| <= |s| && |r.1| < 4
    decreases |s|
  {
    if s == [] then ("", [])
    else
      match ReadSequence(s)
      case Scalar(c, n) => ([c] + Decode(s[n..]).0, Decode(s[n..]).1)
      case Malformed(n) => ([REPLACEMENT] + Decode(s[n..]).0, Decode(s[n..]).1)
      case Truncated => ("", s)
  }

  /** Decoding can be interrupted anywhere if the undecided tail is kept. */
  lemma {:induction false} DecodeConcat(a: seq<byte>, b: seq<byte>)
    ensures Decode(a + b) == (Decode(a).0 + Decode(Decode(a).1 + b).0, Decode(Decode(a).1 + b).1)
    decreases |a|
  {
    if a == [] || ReadSequence(a).Truncated? {
      ConcatNothing(b);
      ConcatNothing(Decode(a + b).0);
    } else {
      var n := ReadSequence(a).length;
      DecidedSequence(a, b);
      assert (a + b)[n..] == a[n..] + b;
      DecodeConcat(a[n..], b);
      var c := if ReadSequence(a).Scalar? then ReadSequence(a).c else REPLACEMENT;
      ConcatAssociates([c], Decode(a[n..]).0, Decode(Decode(a[n..]).1 + b).0);
    }
  }

  /** What the decoder makes of an input that was validated so far. */
  function Resume(s: seq<byte>, v: Validation): (string, seq<byte>)
    requires v.validUpTo <= |s| && (v.ending.ErrorLength? ==> v.ending.n <= |s| - v.validUpTo)
  {
    match v.ending
    case Complete => (v.text, [])
    case UnexpectedEnd => (v.text, s[v.validUpTo..])
    case ErrorLength(n) =>
      var (text, tail) := Decode(s[v.validUpTo + n..]);
      (v.text + [REPLACEMENT] + text, tail)
  }

  /** One round of validation advances the decoder by the valid prefix and at
      most one malformed sequence. */
  lemma {:induction false} ValidationStep(s: seq<byte>)
    ensures Decode(s) == Resume(s, FromUtf8(s))
    decreases |s|
  {
    if s != [] && ReadSequence(s).Scalar? {
      var n := ReadSequence(s).length;
      ValidationStep(s[n..]);
      ResumeAfterScalar(s, n, ReadSequence(s).c, FromUtf8(s[n..]));
    } else {
      ConcatNothing([REPLACEMENT]);
    }
  }

  lemma ResumeAfterScalar(s: seq<byte>, n: nat, c: char, v: Validation)
    requires n <= |s| && v.validUpTo <= |s| - n && (v.ending.ErrorLength? ==> v.ending.n <= |s| - n - v.validUpTo)
    ensures var (text, tail) := Resume(s[n..], v);
      Resume(s, Validation([c] + v.text, n + v.validUpTo, v.ending)) == ([c] + text, tail)
  {
    hide Decode;
    assert s[n..][v.validUpTo..] == s[n + v.validUpTo..];
    if v.ending.ErrorLength? {
      var left := s[n + v.validUpTo + v.ending.n..];
      assert s[n..][v.validUpTo + v.ending.n..] == left;
      ConcatAssociates([c], v.text + [REPLACEMENT], Decode(left).0);
      ConcatAssociates([c], v.text, [REPLACEMENT]);
    }
  }

  // ---------------------------------------------------------------------------
  // Encoding, to say what well-formed input means
  // ---------------------------------------------------------------------------

  function Encode(c: char): (s: seq<byte>)
    ensures 1 <= |s| <= 4
  {
    var n := c as int;
    if n < 0x80 then [n]
    else if n < 0x800 then [0xC0 + n / 64, 0x80 + n % 64]
    else if n < 0x1_0000 then [0xE0 + n / 4096, 0x80 + n / 64 % 64, 0x80 + n % 64]
    else [0xF0 + n / 262144, 0x80 + n / 4096 % 64, 0x80 + n / 64 % 64, 0x80 + n % 64]
  }

  function EncodeAll(text: string): seq<byte> {
    if text == "" then [] else Encode(text[0]) + EncodeAll(text[1..])
  }

  lemma EncodeReads(c: char)
    ensures ReadSequence(Encode(c)) == Scalar(c, |Encode(c)|)
  {
    var n := c as int;
    var s := Encode(c);
    if n < 0x80 {
    } else if n < 0x800 {
      EncodeTwo(n);
    } else if n < 0x1_0000 {
      EncodeThree(n);
    } else {
      EncodeFour(n);
    }
  }

  lemma EncodeTwo(n: nat)
    requires 0x80 <= n < 0x800
    ensures 0xC2 <= 0xC0 + n / 64 <= 0xDF && 0 <= n % 64 < 64
    ensures Two(0xC0 + n / 64, 0x80 + n % 64) == n
  {
  }

  lemma EncodeThree(n: nat)
    requires 0x800 <= n < 0xD800 || 0xE000 <= n < 0x1_0000
    ensures 0xE0 <= 0xE0 + n / 4096 <= 0xEF && 0 <= n / 64 % 64 < 64 && 0 <= n % 64 < 64
    ensures SecondByteFits(0xE0 + n / 4096, 0x80 + n / 64 % 64)
    ensures Three(0xE0 + n / 4096, 0x80 + n / 64 % 64, 0x80 + n % 64) == n
  {
    var q := n / 64;
    assert n == 64 * q + n % 64 && q == 64 * (q / 64) + q % 64 && q / 64 == n / 4096;
  }

  lemma EncodeFour(n: nat)
    requires 0x1_0000 <= n < 0x11_0000
    ensures 0xF0 <= 0xF0 + n / 262144 <= 0xF4
    ensures 0 <= n / 4096 % 64 < 64 && 0 <= n / 64 % 64 < 64 && 0 <= n % 64 < 64
    ensures SecondByteFits(0xF0 + n / 262144, 0x80 + n / 4096 % 64)
    ensures Four(0xF0 + n / 262144, 0x80 + n / 4096 % 64, 0x80 + n / 64 % 64, 0x80 + n % 64) == n
  {
    var q := n / 64;
    var r := q / 64;
    assert n == 64 * q + n % 64 && q == 64 * r + q % 64 && r == 64 * (r / 64) + r % 64;
    assert r == n / 4096 && r / 64 == n / 262144;
  }

  /** Well-formed UTF-8 decodes to the text it encodes. */
  lemma {:induction false} DecodeEncode(text: string)
    ensures Decode(EncodeAll(text)) == (text, [])
    decreases |text|
  {
    if text != "" {
      EncodeReads(text[0]);
      DecidedSequence(Encode(text[0]), EncodeAll(text[1..]));
      assert (Encode(text[0]) + EncodeAll(text[1..]))[|Encode(text[0])|..] == EncodeAll(text[1..]);
      DecodeEncode(text[1..]);
      assert text == [text[0]] + text[1..];
    }
  }
}
