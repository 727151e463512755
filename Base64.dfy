/**
 * The Base64 alphabet and padding of section 4 of RFC 4648, as produced by
 * `Buffer.toString('base64')`: every 3 bytes become 4 characters of the
 * 64-character alphabet, and a final group of 1 or 2 bytes is completed with
 * `=` padding. The decoder accepts exactly the canonical encodings.
 *
 * The codec is built in two layers: bytes <-> digits (a 6-bit value or the
 * pad), which is all arithmetic, and digits <-> characters, which is all
 * alphabet; each layer has its own round trip.
 */
module Base64 {
  import opened Wrappers

  type Byte = x: int | 0 <= x < 256

  /** A 6-bit value, the index of one alphabet character. */
  type Sextet = x: int | 0 <= x < 64

  /** One character of Base64 text, before it is spelled out. */
  datatype Digit = Sym(v: Sextet) | Pad

  // ---------------------------------------------------------------------------
  // Digits <-> characters

  /** Table 1 of RFC 4648: A-Z, a-z, 0-9, '+', '/', and '=' for the pad. */
  function CharOf(d: Digit): char {
    match d
    case Pad => '='
    case Sym(i) =>
      if i < 26 then ('A' as int + i) as char
      else if i < 52 then ('a' as int + (i - 26)) as char
      else if i < 62 then ('0' as int + (i - 52)) as char
      else if i == 62 then '+'
      else '/'
  }

  /** The digit that character `c` spells, or None for characters outside the alphabet. */
  function DigitOf(c: char): (r: Option<Digit>)
    ensures r.Some? ==> CharOf(r.value) == c
  {
    if 'A' <= c <= 'Z' then Some(Sym(c as int - 'A' as int))
    else if 'a' <= c <= 'z' then Some(Sym(c as int - 'a' as int + 26))
    else if '0' <= c <= '9' then Some(Sym(c as int - '0' as int + 52))
    else if c == '+' then Some(Sym(62))
    else if c == '/' then Some(Sym(63))
    else if c == '=' then Some(Pad)
    else None
  }

  lemma DigitOfCharOf(d: Digit)
    ensures DigitOf(CharOf(d)) == Some(d)
  {
  }

  function ToChars(ds: seq<Digit>): (s: string)
    ensures |s| == |ds|
  {
    if ds == [] then "" else [CharOf(ds[0])] + ToChars(ds[1..])
  }

  function FromChars(s: string): Option<seq<Digit>> {
    if s == [] then Some([])
    else match (DigitOf(s[0]), FromChars(s[1..]))
      case (Some(d), Some(ds)) => Some([d] + ds)
      case _ => None
  }

  lemma {:induction false} FromCharsToChars(ds: seq<Digit>)
    ensures FromChars(ToChars(ds)) == Some(ds)
  {
    if ds != [] {
      var s := ToChars(ds);
      assert s[1..] == ToChars(ds[1..]);
      DigitOfCharOf(ds[0]);
      FromCharsToChars(ds[1..]);
      assert ds == [ds[0]] + ds[1..];
    }
  }

  lemma {:induction false} ToCharsFromChars(s: string)
    requires FromChars(s).Some?
    ensures ToChars(FromChars(s).value) == s
  {
    if s != [] {
      var ds := FromChars(s).value;
      ToCharsFromChars(s[1..]);
      assert ds[1..] == FromChars(s[1..]).value;
      assert s == [s[0]] + s[1..];
    }
  }

  // ---------------------------------------------------------------------------
  // Bytes <-> digits

  /** The high 6 bits of `b0`. */
  function First(b0: Byte): Sextet { b0 / 4 }

  /** The low 2 bits of `b0` followed by the high 4 bits of `b1`. */
  function Second(b0: Byte, b1: Byte): Sextet { (b0 % 4) * 16 + b1 / 16 }

  /** The low 4 bits of `b1` followed by the high 2 bits of `b2`. */
  function Third(b1: Byte, b2: Byte): Sextet { (b1 % 16) * 4 + b2 / 64 }

  /** The low 6 bits of `b2`. */
  function Fourth(b2: Byte): Sextet { b2 % 64 }

  /** The byte made of the 6 bits of `i0` and the high 2 bits of `i1`. */
  function High(i0: Sextet, i1: Sextet): Byte { i0 * 4 + i1 / 16 }

  /** The byte made of the low 4 bits of `i1` and the high 4 bits of `i2`. */
  function Middle(i1: Sextet, i2: Sextet): Byte { (i1 % 16) * 16 + i2 / 4 }

  /** The byte made of the low 2 bits of `i2` and the 6 bits of `i3`. */
  function Low(i2: Sextet, i3: Sextet): Byte { (i2 % 4) * 64 + i3 }

  lemma BytesSurviveSextets(b0: Byte, b1: Byte, b2: Byte)
    ensures High(First(b0), Second(b0, b1)) == b0
    ensures Middle(Second(b0, b1), Third(b1, b2)) == b1
    ensures Low(Third(b1, b2), Fourth(b2)) == b2
  {
  }

  lemma SextetsSurviveBytes(i0: Sextet, i1: Sextet, i2: Sextet, i3: Sextet)
    ensures First(High(i0, i1)) == i0
    ensures Second(High(i0, i1), Middle(i1, i2)) == i1
    ensures Third(Middle(i1, i2), Low(i2, i3)) == i2
    ensures Fourth(Low(i2, i3)) == i3
  {
  }

  /** The four digits of one group; a group of 1 or 2 bytes is padded, its missing bits zero. */
  function EncodeGroup(b: seq<Byte>): (g: seq<Digit>)
    requires 1 <= |b| <= 3
    ensures |g| == 4
  {
    if |b| == 1 then [Sym(First(b[0])), Sym(Second(b[0], 0)), Pad, Pad]
    else if |b| == 2 then [Sym(First(b[0])), Sym(Second(b[0], b[1])), Sym(Third(b[1], 0)), Pad]
    else [Sym(First(b[0])), Sym(Second(b[0], b[1])), Sym(Third(b[1], b[2])), Sym(Fourth(b[2]))]
  }

  function EncodeDigits(b: seq<Byte>): (ds: seq<Digit>)
    decreases |b|
  {
    if |b| == 0 then []
    else if |b| <= 3 then EncodeGroup(b)
    else EncodeGroup(b[..3]) + EncodeDigits(b[3..])
  }

  /**
   * The bytes of one group of four digits. Only the last group may be padded,
   * and the bits that the padding discards must be zero.
   */
  function DecodeGroup(g: seq<Digit>, last: bool): Option<seq<Byte>>
    requires |g| == 4
  {
    if !(g[0].Sym? && g[1].Sym?) then None
    else if g[2].Sym? && g[3].Sym? then Some([High(g[0].v, g[1].v), Middle(g[1].v, g[2].v), Low(g[2].v, g[3].v)])
    else if last && g[2].Sym? && g[3].Pad? && g[2].v % 4 == 0 then Some([High(g[0].v, g[1].v), Middle(g[1].v, g[2].v)])
    else if last && g[2].Pad? && g[3].Pad? && g[1].v % 16 == 0 then Some([High(g[0].v, g[1].v)])
    else None
  }

  function DecodeDigits(ds: seq<Digit>): Option<seq<Byte>>
    decreases |ds|
  {
    if |ds| == 0 then Some([])
    else if |ds| < 4 then None
    else if |ds| == 4 then DecodeGroup(ds, true)
    else match (DecodeGroup(ds[..4], false), DecodeDigits(ds[4..]))
      case (Some(g), Some(rest)) => Some(g + rest)
      case _ => None
  }

  // Decoding a group whose digits are given, so that the proofs below need
  // not unfold the arithmetic that produced them.

  lemma DecodeThreeOf(i0: Sextet, i1: Sextet, i2: Sextet, i3: Sextet, last: bool)
    ensures DecodeGroup([Sym(i0), Sym(i1), Sym(i2), Sym(i3)], last) == Some([High(i0, i1), Middle(i1, i2), Low(i2, i3)])
  {
  }

  lemma DecodeTwoOf(i0: Sextet, i1: Sextet, i2: Sextet)
    requires i2 % 4 == 0
    ensures DecodeGroup([Sym(i0), Sym(i1), Sym(i2), Pad], true) == Some([High(i0, i1), Middle(i1, i2)])
  {
  }

  lemma DecodeOneOf(i0: Sextet, i1: Sextet)
    requires i1 % 16 == 0
    ensures DecodeGroup([Sym(i0), Sym(i1), Pad, Pad], true) == Some([High(i0, i1)])
  {
  }

  lemma OneByteRoundTrip(b0: Byte)
    ensures DecodeGroup(EncodeGroup([b0]), true) == Some([b0])
  {
    var i0, i1 := First(b0), Second(b0, 0);
    assert i1 % 16 == 0;
    DecodeOneOf(i0, i1);
    BytesSurviveSextets(b0, 0, 0);
  }

  lemma TwoBytesRoundTrip(b0: Byte, b1: Byte)
    ensures DecodeGroup(EncodeGroup([b0, b1]), true) == Some([b0, b1])
  {
    var i0, i1, i2 := First(b0), Second(b0, b1), Third(b1, 0);
    assert i2 % 4 == 0;
    DecodeTwoOf(i0, i1, i2);
    BytesSurviveSextets(b0, b1, 0);
  }

  lemma ThreeBytesRoundTrip(b0: Byte, b1: Byte, b2: Byte, last: bool)
    ensures DecodeGroup(EncodeGroup([b0, b1, b2]), last) == Some([b0, b1, b2])
  {
    var i0, i1, i2, i3 := First(b0), Second(b0, b1), Third(b1, b2), Fourth(b2);
    DecodeThreeOf(i0, i1, i2, i3, last);
    BytesSurviveSextets(b0, b1, b2);
  }

  lemma GroupRoundTrip(b: seq<Byte>, last: bool)
    requires 1 <= |b| <= 3
    requires |b| < 3 ==> last
    ensures DecodeGroup(EncodeGroup(b), last) == Some(b)
  {
    if |b| == 1 {
      assert b == [b[0]];
      OneByteRoundTrip(b[0]);
    } else if |b| == 2 {
      assert b == [b[0], b[1]];
      TwoBytesRoundTrip(b[0], b[1]);
    } else {
      assert b == [b[0], b[1], b[2]];
      ThreeBytesRoundTrip(b[0], b[1], b[2], last);
    }
  }

  lemma {:induction false} DigitsRoundTrip(b: seq<Byte>)
    ensures DecodeDigits(EncodeDigits(b)) == Some(b)
    decreases |b|
  {
    if 1 <= |b| <= 3 {
      GroupRoundTrip(b, true);
    } else if |b| > 3 {
      var ds := EncodeDigits(b);
      var rest := EncodeDigits(b[3..]);
      DigitsRoundTrip(b[3..]);
      GroupRoundTrip(b[..3], false);
      assert ds[..4] == EncodeGroup(b[..3]) && ds[4..] == rest;
      assert b == b[..3] + b[3..];
    }
  }

  lemma ThreeBytesCanonical(i0: Sextet, i1: Sextet, i2: Sextet, i3: Sextet)
    ensures EncodeGroup([High(i0, i1), Middle(i1, i2), Low(i2, i3)]) == [Sym(i0), Sym(i1), Sym(i2), Sym(i3)]
  {
    SextetsSurviveBytes(i0, i1, i2, i3);
  }

  lemma TwoBytesCanonical(i0: Sextet, i1: Sextet, i2: Sextet)
    requires i2 % 4 == 0
    ensures EncodeGroup([High(i0, i1), Middle(i1, i2)]) == [Sym(i0), Sym(i1), Sym(i2), Pad]
  {
    SextetsSurviveBytes(i0, i1, i2, 0);
    assert Low(i2, 0) == 0;
  }

  lemma OneByteCanonical(i0: Sextet, i1: Sextet)
    requires i1 % 16 == 0
    ensures EncodeGroup([High(i0, i1)]) == [Sym(i0), Sym(i1), Pad, Pad]
  {
    var b0 := High(i0, i1);
    assert First(b0) == i0;
    assert b0 % 4 == i1 / 16;
    assert Second(b0, 0) == i1;
  }

  lemma GroupCanonical(g: seq<Digit>, last: bool)
    requires |g| == 4 && DecodeGroup(g, last).Some?
    ensures var b := DecodeGroup(g, last).value;
            1 <= |b| <= 3 && (|b| < 3 ==> last) && EncodeGroup(b) == g
  {
    if g[2].Sym? && g[3].Sym? {
      assert g == [Sym(g[0].v), Sym(g[1].v), Sym(g[2].v), Sym(g[3].v)];
      ThreeBytesCanonical(g[0].v, g[1].v, g[2].v, g[3].v);
    } else if g[2].Sym? {
      assert g == [Sym(g[0].v), Sym(g[1].v), Sym(g[2].v), Pad];
      TwoBytesCanonical(g[0].v, g[1].v, g[2].v);
    } else {
      assert g == [Sym(g[0].v), Sym(g[1].v), Pad, Pad];
      OneByteCanonical(g[0].v, g[1].v);
    }
  }

  lemma {:induction false} DigitsCanonical(ds: seq<Digit>)
    requires DecodeDigits(ds).Some?
    ensures EncodeDigits(DecodeDigits(ds).value) == ds
    decreases |ds|
  {
    if |ds| == 4 {
      GroupCanonical(ds, true);
    } else if |ds| > 4 {
      var g := DecodeGroup(ds[..4], false).value;
      var rest := DecodeDigits(ds[4..]).value;
      GroupCanonical(ds[..4], false);
      DigitsCanonical(ds[4..]);
      var b := g + rest;
      assert b[..3] == g && b[3..] == rest;
      assert ds == ds[..4] + ds[4..];
    }
  }

  lemma {:induction false} EncodeDigitsLength(b: seq<Byte>)
    ensures |EncodeDigits(b)| == 4 * ((|b| + 2) / 3)
    decreases |b|
  {
    if |b| > 3 {
      EncodeDigitsLength(b[3..]);
    }
  }

  // ---------------------------------------------------------------------------
  // The codec

  /** Base64 text of `b`, with `=` padding on the last group. */
  function Encode(b: seq<Byte>): string {
    ToChars(EncodeDigits(b))
  }

  /** The bytes whose Base64 text is `s`, or None when `s` is not canonical Base64. */
  function Decode(s: string): Option<seq<Byte>> {
    match FromChars(s)
    case None => None
    case Some(ds) => DecodeDigits(ds)
  }

  /** Decoding inverts encoding, for every byte sequence. */
  lemma DecodeEncode(b: seq<Byte>)
    ensures Decode(Encode(b)) == Some(b)
  {
    FromCharsToChars(EncodeDigits(b));
    DigitsRoundTrip(b);
  }

  /** Text that decodes is exactly the encoding of what it decodes to. */
  lemma EncodeDecode(s: string)
    requires Decode(s).Some?
    ensures Encode(Decode(s).value) == s
  {
    var ds := FromChars(s).value;
    ToCharsFromChars(s);
    DigitsCanonical(ds);
  }

  /** Round trip in both directions: `Decode(s) == Some(b)` exactly when `s` is `Encode(b)`. */
  lemma DecodeIffEncode(s: string, b: seq<Byte>)
    ensures Decode(s) == Some(b) <==> Encode(b) == s
  {
    DecodeEncode(b);
    if Decode(s) == Some(b) {
      EncodeDecode(s);
    }
  }

  /** Four characters of text for every started group of three bytes. */
  lemma EncodeLength(b: seq<Byte>)
    ensures |Encode(b)| == 4 * ((|b| + 2) / 3)
  {
    EncodeDigitsLength(b);
  }

  /** The only byte sequence whose encoding is the empty string is the empty one. */
  lemma EncodeEmptyIff(b: seq<Byte>)
    ensures Encode(b) == "" <==> b == []
  {
    EncodeLength(b);
  }
}
