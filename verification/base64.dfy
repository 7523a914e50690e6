/**
 * The standard, padded Base64 encoding of section 4 of RFC 4648 (Go's
 * `base64.StdEncoding`): every 3 input bytes become 4 characters of a
 * 64-character alphabet; a final group of 1 or 2 bytes is padded with `=`.
 */
module Base64 {
  import opened Basics

  /** Characters of the alphabet of Table 1 of RFC 4648. */
  predicate IsAlphabet(c: char) {
    'A' <= c <= 'Z' || 'a' <= c <= 'z' || '0' <= c <= '9' || c == '+' || c == '/'
  }

  const Pad: char := '='

  /** The character encoding a 6-bit value (Table 1 of RFC 4648). */
  function Symbol(v: int): (c: char)
    requires 0 <= v < 64
    ensures IsAlphabet(c)
  {
    if v < 26 then ('A' as int + v) as char
    else if v < 52 then ('a' as int + (v - 26)) as char
    else if v < 62 then ('0' as int + (v - 52)) as char
    else if v == 62 then '+'
    else '/'
  }

  /** The 6-bit value an alphabet character stands for: the inverse of Symbol. */
  function Value(c: char): (v: int)
    requires IsAlphabet(c)
    ensures 0 <= v < 64 && Symbol(v) == c
  {
    if 'A' <= c <= 'Z' then c as int - 'A' as int
    else if 'a' <= c <= 'z' then c as int - 'a' as int + 26
    else if '0' <= c <= '9' then c as int - '0' as int + 52
    else if c == '+' then 62
    else 63
  }

  /** Symbol is injective, so Value undoes it. */
  lemma ValueSymbol(v: int)
    requires 0 <= v < 64
    ensures Value(Symbol(v)) == v
  {
  }

  /** Three bytes, 24 bits, become four 6-bit symbols, most significant first. */
  function EncodeTriple(a: byte, b: byte, c: byte): string {
    [Symbol(a / 4), Symbol(a % 4 * 16 + b / 16), Symbol(b % 16 * 4 + c / 64), Symbol(c % 64)]
  }

  /** A final group of two bytes: three symbols (low bits zero) and one pad. */
  function EncodePair(a: byte, b: byte): string {
    [Symbol(a / 4), Symbol(a % 4 * 16 + b / 16), Symbol(b % 16 * 4), Pad]
  }

  /** A final group of one byte: two symbols (low bits zero) and two pads. */
  function EncodeSingle(a: byte): string {
    [Symbol(a / 4), Symbol(a % 4 * 16), Pad, Pad]
  }

  /** Number of pad characters the encoding of n bytes ends with. */
  function PadCount(n: nat): nat {
    (3 - n % 3) % 3
  }

  /** `base64.StdEncoding.EncodeToString`. */
  function Encode(b: seq<byte>): (s: string)
    ensures |s| == 4 * ((|b| + 2) / 3)
    decreases |b|
  {
    if |b| == 0 then []
    else if |b| == 1 then EncodeSingle(b[0])
    else if |b| == 2 then EncodePair(b[0], b[1])
    else
      assert (|b| + 2) / 3 == (|b| - 3 + 2) / 3 + 1;
      EncodeTriple(b[0], b[1], b[2]) + Encode(b[3..])
  }

  /**
   * The shape of an encoding: alphabet characters, then exactly
   * PadCount(|b|) pad characters at the very end.
   */
  lemma {:induction false} EncodeShape(b: seq<byte>)
    ensures forall i :: 0 <= i < |Encode(b)| - PadCount(|b|) ==> IsAlphabet(Encode(b)[i])
    ensures forall i :: |Encode(b)| - PadCount(|b|) <= i < |Encode(b)| ==> Encode(b)[i] == Pad
    decreases |b|
  {
    if |b| > 2 {
      var head, tail := EncodeTriple(b[0], b[1], b[2]), Encode(b[3..]);
      EncodeFirstTriple(b);
      EncodeShape(b[3..]);
      PadCountStep(|b|);
      ShapeAppend(head, tail, PadCount(|b|));
    }
  }

  /** Three more bytes leave the padding unchanged, and a padding fits its encoding. */
  lemma PadCountStep(n: nat)
    requires n >= 3
    ensures PadCount(n) == PadCount(n - 3) <= 4 * ((n - 3 + 2) / 3)
  {
  }

  /** Alphabet characters in front keep a string's trailing pads trailing. */
  lemma ShapeAppend(head: string, tail: string, pads: nat)
    requires forall i :: 0 <= i < |head| ==> IsAlphabet(head[i])
    requires pads <= |tail|
    requires forall i :: 0 <= i < |tail| - pads ==> IsAlphabet(tail[i])
    requires forall i :: |tail| - pads <= i < |tail| ==> tail[i] == Pad
    ensures forall i :: 0 <= i < |head + tail| - pads ==> IsAlphabet((head + tail)[i])
    ensures forall i :: |head + tail| - pads <= i < |head + tail| ==> (head + tail)[i] == Pad
  {
    forall i | 0 <= i < |head + tail|
      ensures i < |head| ==> (head + tail)[i] == head[i]
      ensures |head| <= i ==> (head + tail)[i] == tail[i - |head|]
    {
    }
  }

  /**
   * Decodes one group of four characters: four symbols give three bytes,
   * `xxx=` gives two, `xx==` gives one; anything else is malformed,
   * including a padded group whose unused low bits are not zero (section
   * 3.5 of RFC 4648).
   */
  function DecodeQuad(q: string): (r: Option<seq<byte>>)
    requires |q| == 4
    ensures r.Some? ==> 1 <= |r.value| <= 3
  {
    if !IsAlphabet(q[0]) || !IsAlphabet(q[1]) then None
    else
      var v0, v1 := Value(q[0]), Value(q[1]);
      if q[2] == Pad then
        if q[3] == Pad && v1 % 16 == 0 then Some([v0 * 4 + v1 / 16]) else None
      else if !IsAlphabet(q[2]) then None
      else
        var v2 := Value(q[2]);
        if q[3] == Pad then
          if v2 % 4 == 0 then Some([v0 * 4 + v1 / 16, v1 % 16 * 16 + v2 / 4]) else None
        else if !IsAlphabet(q[3]) then None
        else Some([v0 * 4 + v1 / 16, v1 % 16 * 16 + v2 / 4, v2 % 4 * 64 + Value(q[3])])
  }

  /** Decoding: groups of four, padding allowed only in the last group. */
  function Decode(s: string): Option<seq<byte>>
    decreases |s|
  {
    if |s| == 0 then Some([])
    else if |s| < 4 then None
    else match DecodeQuad(s[..4])
      case None => None
      case Some(head) =>
        if |head| < 3 && |s| > 4 then None
        else match Decode(s[4..])
          case None => None
          case Some(tail) => Some(head + tail)
  }

  /** What a group of four alphabet characters decodes to. */
  lemma DecodeQuadFull(q: string)
    requires |q| == 4 && IsAlphabet(q[0]) && IsAlphabet(q[1]) && IsAlphabet(q[2]) && IsAlphabet(q[3])
    ensures var v0, v1, v2, v3 := Value(q[0]), Value(q[1]), Value(q[2]), Value(q[3]);
      DecodeQuad(q) == Some([v0 * 4 + v1 / 16, v1 % 16 * 16 + v2 / 4, v2 % 4 * 64 + v3])
  {
    assert q[2] != Pad && q[3] != Pad;
  }

  /** What a group of three alphabet characters and one pad decodes to. */
  lemma DecodeQuadPair(q: string)
    requires |q| == 4 && IsAlphabet(q[0]) && IsAlphabet(q[1]) && IsAlphabet(q[2]) && q[3] == Pad
    requires Value(q[2]) % 4 == 0
    ensures var v0, v1, v2 := Value(q[0]), Value(q[1]), Value(q[2]);
      DecodeQuad(q) == Some([v0 * 4 + v1 / 16, v1 % 16 * 16 + v2 / 4])
  {
    assert q[2] != Pad;
  }

  /** What a group of two alphabet characters and two pads decodes to. */
  lemma DecodeQuadSingle(q: string)
    requires |q| == 4 && IsAlphabet(q[0]) && IsAlphabet(q[1]) && q[2] == Pad && q[3] == Pad
    requires Value(q[1]) % 16 == 0
    ensures DecodeQuad(q) == Some([Value(q[0]) * 4 + Value(q[1]) / 16])
  {
  }

  /** Splitting three bytes into four 6-bit values and joining them again. */
  lemma TripleBits(a: byte, b: byte, c: byte)
    ensures var v0, v1, v2, v3 := a / 4, a % 4 * 16 + b / 16, b % 16 * 4 + c / 64, c % 64;
      && 0 <= v0 < 64 && 0 <= v1 < 64 && 0 <= v2 < 64 && 0 <= v3 < 64
      && v0 * 4 + v1 / 16 == a && v1 % 16 * 16 + v2 / 4 == b && v2 % 4 * 64 + v3 == c
  {
  }

  /** Splitting two bytes into three 6-bit values, the last with zero low bits. */
  lemma PairBits(a: byte, b: byte)
    ensures var v0, v1, v2 := a / 4, a % 4 * 16 + b / 16, b % 16 * 4;
      && 0 <= v0 < 64 && 0 <= v1 < 64 && 0 <= v2 < 64 && v2 % 4 == 0
      && v0 * 4 + v1 / 16 == a && v1 % 16 * 16 + v2 / 4 == b
  {
  }

  /** Splitting one byte into two 6-bit values, the last with zero low bits. */
  lemma SingleBits(a: byte)
    ensures var v0, v1 := a / 4, a % 4 * 16;
      && 0 <= v0 < 64 && 0 <= v1 < 64 && v1 % 16 == 0 && v0 * 4 + v1 / 16 == a
  {
  }

  lemma DecodeTriple(a: byte, b: byte, c: byte)
    ensures DecodeQuad(EncodeTriple(a, b, c)) == Some([a, b, c])
  {
    var v0, v1, v2, v3 := a / 4, a % 4 * 16 + b / 16, b % 16 * 4 + c / 64, c % 64;
    TripleBits(a, b, c);
    var q := EncodeTriple(a, b, c);
    assert q == [Symbol(v0), Symbol(v1), Symbol(v2), Symbol(v3)];
    ValueSymbol(v0);
    ValueSymbol(v1);
    ValueSymbol(v2);
    ValueSymbol(v3);
    DecodeQuadFull(q);
  }

  lemma DecodePair(a: byte, b: byte)
    ensures DecodeQuad(EncodePair(a, b)) == Some([a, b])
  {
    var v0, v1, v2 := a / 4, a % 4 * 16 + b / 16, b % 16 * 4;
    PairBits(a, b);
    var q := EncodePair(a, b);
    assert q == [Symbol(v0), Symbol(v1), Symbol(v2), Pad];
    ValueSymbol(v0);
    ValueSymbol(v1);
    ValueSymbol(v2);
    DecodeQuadPair(q);
  }

  lemma DecodeSingle(a: byte)
    ensures DecodeQuad(EncodeSingle(a)) == Some([a])
  {
    var v0, v1 := a / 4, a % 4 * 16;
    SingleBits(a);
    var q := EncodeSingle(a);
    assert q == [Symbol(v0), Symbol(v1), Pad, Pad];
    ValueSymbol(v0);
    ValueSymbol(v1);
    DecodeQuadSingle(q);
  }

  /** A group standing alone decodes as that group. */
  lemma DecodeLastQuad(q: string)
    requires |q| == 4 && DecodeQuad(q).Some?
    ensures Decode(q) == DecodeQuad(q)
  {
    assert q[..4] == q && q[4..] == [];
    assert DecodeQuad(q).value + [] == DecodeQuad(q).value;
  }

  /** A full (unpadded) group followed by a decodable rest decodes piecewise. */
  lemma DecodeFullQuad(q: string, rest: string)
    requires |q| == 4 && DecodeQuad(q).Some? && |DecodeQuad(q).value| == 3
    requires Decode(rest).Some?
    ensures Decode(q + rest) == Some(DecodeQuad(q).value + Decode(rest).value)
  {
    assert (q + rest)[..4] == q && (q + rest)[4..] == rest;
  }

  /** Round trip: decoding an encoding gives back exactly the bytes encoded. */
  lemma {:induction false} DecodeEncode(b: seq<byte>)
    ensures Decode(Encode(b)) == Some(b)
    decreases |b|
  {
    if |b| == 0 {
    } else if |b| <= 2 {
      DecodeEncodeShort(b);
    } else {
      DecodeEncode(b[3..]);
      DecodeEncodeLong(b);
    }
  }

  lemma DecodeEncodeLong(b: seq<byte>)
    requires |b| > 2 && Decode(Encode(b[3..])) == Some(b[3..])
    ensures Decode(Encode(b)) == Some(b)
  {
    EncodeFirstTriple(b);
    DecodeTripleThen(b, EncodeTriple(b[0], b[1], b[2]), Encode(b[3..]));
  }

  lemma EncodeFirstTriple(b: seq<byte>)
    requires |b| > 2
    ensures Encode(b) == EncodeTriple(b[0], b[1], b[2]) + Encode(b[3..])
  {
  }

  lemma DecodeTripleThen(b: seq<byte>, head: string, tail: string)
    requires |b| > 2 && Decode(tail) == Some(b[3..])
    requires head == EncodeTriple(b[0], b[1], b[2])
    ensures Decode(head + tail) == Some(b)
  {
    DecodeTriple(b[0], b[1], b[2]);
    DecodeFullQuad(head, tail);
    assert [b[0], b[1], b[2]] + b[3..] == b;
  }

  lemma DecodeEncodeShort(b: seq<byte>)
    requires 1 <= |b| <= 2
    ensures Decode(Encode(b)) == Some(b)
  {
    if |b| == 1 {
      EncodeOne(b);
      DecodeSingle(b[0]);
      DecodeLastQuad(EncodeSingle(b[0]));
    } else {
      EncodeTwo(b);
      DecodePair(b[0], b[1]);
      DecodeLastQuad(EncodePair(b[0], b[1]));
    }
  }

  lemma EncodeOne(b: seq<byte>)
    requires |b| == 1
    ensures Encode(b) == EncodeSingle(b[0]) && b == [b[0]]
  {
  }

  lemma EncodeTwo(b: seq<byte>)
    requires |b| == 2
    ensures Encode(b) == EncodePair(b[0], b[1]) && b == [b[0], b[1]]
  {
  }

  /** Different byte sequences never share an encoding. */
  lemma EncodeInjective(b: seq<byte>, c: seq<byte>)
    requires Encode(b) == Encode(c)
    ensures b == c
  {
    DecodeEncode(b);
    DecodeEncode(c);
  }

  /** A symbol value split at bit k: its high bits times 2^k plus its low bits. */
  lemma SymbolBits(v: int, k: int)
    requires 0 <= v < 64 && (k == 16 || k == 4)
    ensures v / k * k + v % k == v
  {
  }

  /** Four symbols re-encode from the three bytes they decode to. */
  lemma EncodeDecodeFull(v0: int, v1: int, v2: int, v3: int)
    requires 0 <= v0 < 64 && 0 <= v1 < 64 && 0 <= v2 < 64 && 0 <= v3 < 64
    ensures var x0, x1, x2 := v0 * 4 + v1 / 16, v1 % 16 * 16 + v2 / 4, v2 % 4 * 64 + v3;
      && 0 <= x0 < 256 && 0 <= x1 < 256 && 0 <= x2 < 256
      && x0 / 4 == v0 && x0 % 4 * 16 + x1 / 16 == v1 && x1 % 16 * 4 + x2 / 64 == v2 && x2 % 64 == v3
  {
    SymbolBits(v1, 16);
    SymbolBits(v2, 4);
  }

  /** Three symbols with zero low bits re-encode from the two bytes they decode to. */
  lemma EncodeDecodePair(v0: int, v1: int, v2: int)
    requires 0 <= v0 < 64 && 0 <= v1 < 64 && 0 <= v2 < 64 && v2 % 4 == 0
    ensures var x0, x1 := v0 * 4 + v1 / 16, v1 % 16 * 16 + v2 / 4;
      && 0 <= x0 < 256 && 0 <= x1 < 256
      && x0 / 4 == v0 && x0 % 4 * 16 + x1 / 16 == v1 && x1 % 16 * 4 == v2
  {
    SymbolBits(v1, 16);
    SymbolBits(v2, 4);
  }

  /** Two symbols with zero low bits re-encode from the byte they decode to. */
  lemma EncodeDecodeSingle(v0: int, v1: int)
    requires 0 <= v0 < 64 && 0 <= v1 < 64 && v1 % 16 == 0
    ensures var x0 := v0 * 4 + v1 / 16; 0 <= x0 < 256 && x0 / 4 == v0 && x0 % 4 * 16 == v1
  {
    SymbolBits(v1, 16);
  }

  /** A group that decodes is the encoding of what it decodes to. */
  lemma EncodeDecodeQuad(q: string)
    requires |q| == 4 && DecodeQuad(q).Some?
    ensures var r := DecodeQuad(q).value;
      && (|r| == 3 ==> EncodeTriple(r[0], r[1], r[2]) == q)
      && (|r| == 2 ==> EncodePair(r[0], r[1]) == q)
      && (|r| == 1 ==> EncodeSingle(r[0]) == q)
  {
    if q[2] == Pad {
      EncodeDecodeSingleQuad(q);
    } else if q[3] == Pad {
      EncodeDecodePairQuad(q);
    } else {
      EncodeDecodeFullQuad(q);
    }
  }

  lemma EncodeDecodeFullQuad(q: string)
    requires |q| == 4 && DecodeQuad(q).Some? && q[2] != Pad && q[3] != Pad
    ensures var r := DecodeQuad(q).value; |r| == 3 && EncodeTriple(r[0], r[1], r[2]) == q
  {
    assert IsAlphabet(q[0]) && IsAlphabet(q[1]) && IsAlphabet(q[2]) && IsAlphabet(q[3]);
    var v0, v1, v2, v3 := Value(q[0]), Value(q[1]), Value(q[2]), Value(q[3]);
    DecodeQuadFull(q);
    assert q == [Symbol(v0), Symbol(v1), Symbol(v2), Symbol(v3)];
    ReencodeFull(v0, v1, v2, v3, DecodeQuad(q).value, q);
  }

  lemma ReencodeFull(v0: int, v1: int, v2: int, v3: int, r: seq<byte>, q: string)
    requires 0 <= v0 < 64 && 0 <= v1 < 64 && 0 <= v2 < 64 && 0 <= v3 < 64
    requires r == [v0 * 4 + v1 / 16, v1 % 16 * 16 + v2 / 4, v2 % 4 * 64 + v3]
    requires q == [Symbol(v0), Symbol(v1), Symbol(v2), Symbol(v3)]
    ensures |r| == 3 && EncodeTriple(r[0], r[1], r[2]) == q
  {
    EncodeDecodeFull(v0, v1, v2, v3);
    var x0, x1, x2 := r[0], r[1], r[2];
    assert x0 / 4 == v0 && x0 % 4 * 16 + x1 / 16 == v1 && x1 % 16 * 4 + x2 / 64 == v2 && x2 % 64 == v3;
    var e := EncodeTriple(x0, x1, x2);
    assert e[0] == q[0] && e[1] == q[1] && e[2] == q[2] && e[3] == q[3];
  }

  lemma EncodeDecodePairQuad(q: string)
    requires |q| == 4 && DecodeQuad(q).Some? && q[2] != Pad && q[3] == Pad
    ensures var r := DecodeQuad(q).value; |r| == 2 && EncodePair(r[0], r[1]) == q
  {
    assert IsAlphabet(q[0]) && IsAlphabet(q[1]) && IsAlphabet(q[2]) && Value(q[2]) % 4 == 0;
    var v0, v1, v2 := Value(q[0]), Value(q[1]), Value(q[2]);
    DecodeQuadPair(q);
    assert q == [Symbol(v0), Symbol(v1), Symbol(v2), Pad];
    ReencodePair(v0, v1, v2, DecodeQuad(q).value, q);
  }

  lemma ReencodePair(v0: int, v1: int, v2: int, r: seq<byte>, q: string)
    requires 0 <= v0 < 64 && 0 <= v1 < 64 && 0 <= v2 < 64 && v2 % 4 == 0
    requires r == [v0 * 4 + v1 / 16, v1 % 16 * 16 + v2 / 4]
    requires q == [Symbol(v0), Symbol(v1), Symbol(v2), Pad]
    ensures |r| == 2 && EncodePair(r[0], r[1]) == q
  {
    EncodeDecodePair(v0, v1, v2);
    var x0, x1 := r[0], r[1];
    assert x0 / 4 == v0 && x0 % 4 * 16 + x1 / 16 == v1 && x1 % 16 * 4 == v2;
  }

  lemma EncodeDecodeSingleQuad(q: string)
    requires |q| == 4 && DecodeQuad(q).Some? && q[2] == Pad
    ensures var r := DecodeQuad(q).value; |r| == 1 && EncodeSingle(r[0]) == q
  {
    assert IsAlphabet(q[0]) && IsAlphabet(q[1]) && q[3] == Pad && Value(q[1]) % 16 == 0;
    var v0, v1 := Value(q[0]), Value(q[1]);
    DecodeQuadSingle(q);
    assert q == [Symbol(v0), Symbol(v1), Pad, Pad];
    ReencodeSingle(v0, v1, DecodeQuad(q).value, q);
  }

  lemma ReencodeSingle(v0: int, v1: int, r: seq<byte>, q: string)
    requires 0 <= v0 < 64 && 0 <= v1 < 64 && v1 % 16 == 0
    requires r == [v0 * 4 + v1 / 16]
    requires q == [Symbol(v0), Symbol(v1), Pad, Pad]
    ensures |r| == 1 && EncodeSingle(r[0]) == q
  {
    EncodeDecodeSingle(v0, v1);
    assert r[0] / 4 == v0 && r[0] % 4 * 16 == v1;
  }

  /**
   * The converse round trip: a string that decodes is the encoding of its
   * decoding. With DecodeEncode, Decode and Encode are inverse bijections
   * between byte sequences and canonical encodings.
   */
  lemma {:induction false} EncodeDecode(s: string)
    requires Decode(s).Some?
    ensures Encode(Decode(s).value) == s
    decreases |s|
  {
    if |s| > 0 {
      var q, rest := s[..4], s[4..];
      var head := DecodeQuad(q).value;
      EncodeDecodeQuad(q);
      if |head| < 3 {
        assert rest == [] && Decode(s).value == head;
        if |head| == 1 {
          EncodeOne(head);
        } else {
          EncodeTwo(head);
        }
      } else {
        EncodeDecode(rest);
        EncodeDecodeLong(s, head, Decode(rest).value);
      }
    }
  }

  lemma EncodeDecodeLong(s: string, head: seq<byte>, tail: seq<byte>)
    requires |s| >= 4 && |head| == 3 && EncodeTriple(head[0], head[1], head[2]) == s[..4]
    requires Encode(tail) == s[4..]
    ensures Encode(head + tail) == s
  {
    var b := head + tail;
    EncodeFirstTriple(b);
    assert b[3..] == tail && b[0] == head[0] && b[1] == head[1] && b[2] == head[2];
  }

  /** Distinct strings never decode to the same bytes. */
  lemma DecodeInjective(s: string, t: string)
    requires Decode(s).Some? && Decode(s) == Decode(t)
    ensures s == t
  {
    EncodeDecode(s);
    EncodeDecode(t);
  }
}
