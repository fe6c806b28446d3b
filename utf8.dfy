/**
 * `String.init(malformedData:encoding:)`
 * (SwiftReadability/String+MalformedEncoding.swift:13-29): decode bytes as
 * UTF-8, keep every scalar the codec yields and drop whatever it reports as
 * an error.
 *
 * The byte grammar is the one of section 4 of RFC 3629 ("Syntax of UTF-8
 * Byte Sequences"). How many bytes the codec swallows on an error is
 * library behaviour; it is a parameter here (`errorWidth`), only ever taken
 * as at least one byte and at most what is left.
 */
module Utf8 {

  newtype byte = b: int | 0 <= b < 256

  /** `String.Encoding`, a raw value the initialiser never looks at. */
  datatype Encoding = Encoding(rawValue: nat)

  /** A Unicode scalar value: a code point that is not a surrogate. */
  predicate IsScalar(v: int) {
    0 <= v <= 0x10FFFF && !(0xD800 <= v <= 0xDFFF)
  }

  /** What a Swift string is made of: Unicode scalars. */
  type Scalar = v: int | IsScalar(v)

  /** UTF8-tail = %x80-BF */
  predicate IsTail(b: byte) {
    0x80 <= b <= 0xBF
  }

  /** UTF8-char: UTF8-1, UTF8-2, UTF8-3 or UTF8-4 of RFC 3629, section 4. */
  predicate IsUtf8Char(s: seq<byte>) {
    || (|s| == 1 && s[0] <= 0x7F)
    || (|s| == 2 && 0xC2 <= s[0] <= 0xDF && IsTail(s[1]))
    || (|s| == 3 && IsTail(s[2]) &&
        (|| (s[0] == 0xE0 && 0xA0 <= s[1] <= 0xBF)
         || ((0xE1 <= s[0] <= 0xEC || 0xEE <= s[0] <= 0xEF) && IsTail(s[1]))
         || (s[0] == 0xED && 0x80 <= s[1] <= 0x9F)))
    || (|s| == 4 && IsTail(s[2]) && IsTail(s[3]) &&
        (|| (s[0] == 0xF0 && 0x90 <= s[1] <= 0xBF)
         || (0xF1 <= s[0] <= 0xF3 && IsTail(s[1]))
         || (s[0] == 0xF4 && 0x80 <= s[1] <= 0x8F)))
  }

  /** UTF8-octets = *( UTF8-char ) */
  ghost predicate WellFormed(data: seq<byte>)
    decreases |data|
  {
    || data == []
    || exists n | 1 <= n <= 4 && n <= |data| :: IsUtf8Char(data[..n]) && WellFormed(data[n..])
  }

  /** The scalar a UTF8-char stands for. */
  function ScalarOf(s: seq<byte>): (v: int)
    requires IsUtf8Char(s)
    ensures IsScalar(v)
    ensures |s| == 1 <==> v < 0x80
    ensures |s| == 2 <==> 0x80 <= v < 0x800
    ensures |s| == 3 <==> 0x800 <= v < 0x10000
  {
    if |s| == 1 then s[0] as int
    else if |s| == 2 then (s[0] as int - 0xC0) * 64 + (s[1] as int - 0x80)
    else if |s| == 3 then ((s[0] as int - 0xE0) * 64 + (s[1] as int - 0x80)) * 64 + (s[2] as int - 0x80)
    else (((s[0] as int - 0xF0) * 64 + (s[1] as int - 0x80)) * 64 + (s[2] as int - 0x80)) * 64 + (s[3] as int - 0x80)
  }

  /** `n / 64` and `n % 64`. */
  function Split64(n: nat): (qr: (nat, nat))
    ensures n == qr.0 * 64 + qr.1 && qr.1 < 64
  {
    (n / 64, n % 64)
  }

  /** The UTF-8 encoding of a scalar: its bits, six at a time, behind the lead and tail markers. */
  function EncodeScalar(c: int): (s: seq<byte>)
    requires IsScalar(c)
    ensures IsUtf8Char(s) && ScalarOf(s) == c
  {
    var (q1, r0) := Split64(c);
    var (q2, r1) := Split64(q1);
    var (q3, r2) := Split64(q2);
    if c < 0x80 then [c as byte]
    else if c < 0x800 then [(0xC0 + q1) as byte, (0x80 + r0) as byte]
    else if c < 0x10000 then [(0xE0 + q2) as byte, (0x80 + r1) as byte, (0x80 + r0) as byte]
    else [(0xF0 + q3) as byte, (0x80 + r2) as byte, (0x80 + r1) as byte, (0x80 + r0) as byte]
  }

  function EncodeAll(cs: seq<Scalar>): seq<byte>
  {
    if cs == [] then [] else EncodeScalar(cs[0]) + EncodeAll(cs[1..])
  }

  /** The length of the UTF8-char `rest` starts with, or 0 when it starts with none. */
  function CharLength(rest: seq<byte>): (n: nat)
    ensures n <= 4 && n <= |rest|
    ensures n > 0 ==> IsUtf8Char(rest[..n]) && forall k | 1 <= k < n :: !IsUtf8Char(rest[..k])
    ensures n == 0 ==> forall k | 1 <= k <= |rest| && k <= 4 :: !IsUtf8Char(rest[..k])
  {
    CharLengthFrom(rest, 1)
  }

  /** The shortest prefix of `rest`, of at least `k` bytes, that is a UTF8-char; 0 when there is none. */
  function CharLengthFrom(rest: seq<byte>, k: nat): (n: nat)
    requires 1 <= k
    ensures n > 0 ==> k <= n <= 4 && n <= |rest| && IsUtf8Char(rest[..n])
                      && forall j | k <= j < n :: !IsUtf8Char(rest[..j])
    ensures n == 0 ==> forall j | k <= j <= |rest| && j <= 4 :: !IsUtf8Char(rest[..j])
    decreases 5 - k
  {
    if k > 4 || k > |rest| then 0
    else if IsUtf8Char(rest[..k]) then k
    else CharLengthFrom(rest, k + 1)
  }

  /** What one call of `UTF8.decode` returns, and how far it moves the iterator. */
  datatype DecodingResult = EmptyInput | ScalarValue(value: Scalar, width: nat) | Error(width: nat)

  /**
   * One call of the codec on the bytes the iterator has left: the UTF8-char
   * they start with, or an error that consumes between one byte and all of
   * them.
   */
  function DecodeNext(rest: seq<byte>, errorWidth: seq<byte> -> nat): (r: DecodingResult)
    ensures r.EmptyInput? <==> rest == []
    ensures r.ScalarValue? ==> 1 <= r.width <= |rest| && IsUtf8Char(rest[..r.width])
                               && r.value == ScalarOf(rest[..r.width])
    ensures r.Error? ==> 1 <= r.width <= |rest|
                         && forall k | 1 <= k <= |rest| && k <= 4 :: !IsUtf8Char(rest[..k])
  {
    if rest == [] then EmptyInput
    else
      var n := CharLength(rest);
      if n > 0 then ScalarValue(ScalarOf(rest[..n]), n)
      else
        var k := errorWidth(rest);
        Error(if k < 1 then 1 else if k > |rest| then |rest| else k)
  }

  /**
   * The string the decode loop builds: the scalars in input order, errors
   * contributing nothing. It has no more scalars than there are bytes.
   */
  function LossyDecode(data: seq<byte>, errorWidth: seq<byte> -> nat): (out: seq<Scalar>)
    ensures data == [] ==> out == []
    ensures |out| <= |data|
    decreases |data|
  {
    match DecodeNext(data, errorWidth)
    case EmptyInput => []
    case ScalarValue(v, w) => [v] + LossyDecode(data[w..], errorWidth)
    case Error(w) => LossyDecode(data[w..], errorWidth)
  }

  /**
   * The loop of `String.init(malformedData:encoding:)`; `pos` is the
   * iterator's position in `data`. The result does not depend on `encoding`.
   */
  method StringFromMalformedData(data: seq<byte>, encoding: Encoding, errorWidth: seq<byte> -> nat)
    returns (str: seq<Scalar>)
    ensures str == LossyDecode(data, errorWidth)
  {
    str := [];
    var rest := data;
    var done := false;
    while !done
      invariant done ==> rest == []
      invariant str + LossyDecode(rest, errorWidth) == LossyDecode(data, errorWidth)
      decreases |rest| + (if done then 0 else 1)
    {
      var r := DecodeNext(rest, errorWidth);
      if r.EmptyInput? {
        done := true;
      } else {
        LossyDecodeUnfold(rest, r, errorWidth);
        if r.ScalarValue? {
          AppendAssoc(str, [r.value], LossyDecode(rest[r.width..], errorWidth));
          str := str + [r.value];
        }
        rest := rest[r.width..];
      }
    }
  }

  lemma AppendAssoc<T>(a: seq<T>, b: seq<T>, c: seq<T>)
    ensures a + (b + c) == (a + b) + c
  {
  }

  /** What one call of the codec contributes to the decoding of non-empty input. */
  lemma LossyDecodeUnfold(rest: seq<byte>, r: DecodingResult, errorWidth: seq<byte> -> nat)
    requires rest != [] && r == DecodeNext(rest, errorWidth)
    ensures !r.EmptyInput? && 1 <= r.width <= |rest|
    ensures r.ScalarValue? ==> LossyDecode(rest, errorWidth) == [r.value] + LossyDecode(rest[r.width..], errorWidth)
    ensures r.Error? ==> LossyDecode(rest, errorWidth) == LossyDecode(rest[r.width..], errorWidth)
  {
  }

  // ---------------------------------------------------------------------
  // Round trips

  /** Every UTF8-char is the encoding of the scalar it stands for. */
  lemma EncodeScalarOf(s: seq<byte>)
    requires IsUtf8Char(s)
    ensures EncodeScalar(ScalarOf(s)) == s
  {
    var c := ScalarOf(s);
    var (q1, r0) := Split64(c);
    var (q2, r1) := Split64(q1);
    var (q3, r2) := Split64(q2);
    if |s| == 2 {
      SplitUnique(c, q1, r0, s[0] as int - 0xC0, s[1] as int - 0x80);
    } else if |s| == 3 {
      SplitUnique(c, q1, r0, (s[0] as int - 0xE0) * 64 + (s[1] as int - 0x80), s[2] as int - 0x80);
      SplitUnique(q1, q2, r1, s[0] as int - 0xE0, s[1] as int - 0x80);
    } else if |s| == 4 {
      var hi := (s[0] as int - 0xF0) * 64 + (s[1] as int - 0x80);
      SplitUnique(c, q1, r0, hi * 64 + (s[2] as int - 0x80), s[3] as int - 0x80);
      SplitUnique(q1, q2, r1, hi, s[2] as int - 0x80);
      SplitUnique(q2, q3, r2, s[0] as int - 0xF0, s[1] as int - 0x80);
    }
  }

  /** Quotient and remainder by 64 are unique. */
  lemma SplitUnique(n: int, q: int, r: int, q': int, r': int)
    requires n == q * 64 + r && 0 <= r < 64
    requires n == q' * 64 + r' && 0 <= r' < 64
    ensures q == q' && r == r'
  {
  }

  /** UTF-8 is prefix-free: the codec reads back exactly the first encoded scalar. */
  lemma CharLengthOfEncoded(c: int, rest: seq<byte>)
    requires IsScalar(c)
    ensures CharLength(EncodeScalar(c) + rest) == |EncodeScalar(c)|
  {
    var e := EncodeScalar(c);
    var d := e + rest;
    assert d[..|e|] == e;
    forall k | 1 <= k < |e|
      ensures d[..k] == e[..k]
    {
    }
  }

  /** Decoding the encoding of scalars gives the scalars back, whatever the error width. */
  lemma {:induction false} DecodeEncodeAll(cs: seq<Scalar>, errorWidth: seq<byte> -> nat)
    ensures LossyDecode(EncodeAll(cs), errorWidth) == cs
    decreases |cs|
  {
    if cs != [] {
      var e := EncodeScalar(cs[0]);
      var rest := EncodeAll(cs[1..]);
      CharLengthOfEncoded(cs[0], rest);
      assert (e + rest)[..|e|] == e && (e + rest)[|e|..] == rest;
      DecodeEncodeAll(cs[1..], errorWidth);
      assert cs == [cs[0]] + cs[1..];
    }
  }

  /** Well-formed input decodes to scalars whose encoding is exactly the input. */
  lemma {:induction false} EncodeDecodeWellFormed(data: seq<byte>, errorWidth: seq<byte> -> nat)
    requires WellFormed(data)
    ensures EncodeAll(LossyDecode(data, errorWidth)) == data
    decreases |data|
  {
    if data != [] {
      var n :| 1 <= n <= 4 && n <= |data| && IsUtf8Char(data[..n]) && WellFormed(data[n..]);
      var c := ScalarOf(data[..n]);
      EncodeScalarOf(data[..n]);
      CharLengthOfEncoded(c, data[n..]);
      assert data == EncodeScalar(c) + data[n..];
      EncodeDecodeWellFormed(data[n..], errorWidth);
    }
  }

  // ---------------------------------------------------------------------
  // Nothing is made up

  /** `a` is `b` with some elements left out. */
  predicate Subsequence<T(==)>(a: seq<T>, b: seq<T>)
    decreases |b|
  {
    if b == [] then a == []
    else Subsequence(a, b[1..]) || (a != [] && a[0] == b[0] && Subsequence(a[1..], b[1..]))
  }

  lemma {:induction false} SubsequenceSkip<T>(a: seq<T>, x: seq<T>, b: seq<T>)
    requires Subsequence(a, b)
    ensures Subsequence(a, x + b)
    decreases |x|
  {
    if x != [] {
      SubsequenceSkip(a, x[1..], b);
      assert (x + b)[1..] == x[1..] + b;
    } else {
      assert x + b == b;
    }
  }

  lemma {:induction false} SubsequenceKeep<T>(p: seq<T>, a: seq<T>, b: seq<T>)
    requires Subsequence(a, b)
    ensures Subsequence(p + a, p + b)
    decreases |p|
  {
    if p != [] {
      SubsequenceKeep(p[1..], a, b);
      assert (p + a)[1..] == p[1..] + a && (p + b)[1..] == p[1..] + b;
    } else {
      assert p + a == a && p + b == b;
    }
  }

  /**
   * Ill-formed bytes are dropped, never replaced: re-encoding the output
   * gives the input with some bytes left out.
   */
  lemma {:induction false} DecodeDropsOnly(data: seq<byte>, errorWidth: seq<byte> -> nat)
    ensures Subsequence(EncodeAll(LossyDecode(data, errorWidth)), data)
    decreases |data|
  {
    match DecodeNext(data, errorWidth)
    case EmptyInput =>
    case ScalarValue(v, w) =>
      var head, tail := data[..w], data[w..];
      var more := LossyDecode(tail, errorWidth);
      DecodeDropsOnly(tail, errorWidth);
      EncodeScalarOf(head);
      assert LossyDecode(data, errorWidth) == [v] + more;
      assert ([v] + more)[1..] == more;
      assert EncodeAll([v] + more) == head + EncodeAll(more);
      SubsequenceKeep(head, EncodeAll(more), tail);
      assert head + tail == data;
    case Error(w) =>
      var head, tail := data[..w], data[w..];
      DecodeDropsOnly(tail, errorWidth);
      assert LossyDecode(data, errorWidth) == LossyDecode(tail, errorWidth);
      SubsequenceSkip(EncodeAll(LossyDecode(tail, errorWidth)), head, tail);
      assert head + tail == data;
  }

  /** All-ASCII input comes out as the same code points in the same order. */
  lemma {:induction false} AsciiIdentity(data: seq<byte>, errorWidth: seq<byte> -> nat)
    requires forall i :: 0 <= i < |data| ==> data[i] < 0x80
    ensures LossyDecode(data, errorWidth) == seq(|data|, i requires 0 <= i < |data| => data[i] as int)
    decreases |data|
  {
    if data != [] {
      assert IsUtf8Char(data[..1]);
      AsciiIdentity(data[1..], errorWidth);
    }
  }
}
