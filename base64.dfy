/**
  Standard base64 with padding (section 4 of RFC 4648) as Go's
  `base64.StdEncoding.DecodeString` reads it: carriage returns and line feeds are
  skipped, the remaining text must consist of whole four-character quanta, only
  the last quantum may end in "=" or "==", and the unused bits of a padded
  quantum are not checked (the encoding is not in strict mode).
 */
module Base64 {
  import opened Wrappers

  type Byte = b: int | 0 <= b < 256
  type Sextet = x: int | 0 <= x < 64

  const Pad: char := '='

  predicate IsAlphabetChar(c: char)
  {
    'A' <= c <= 'Z' || 'a' <= c <= 'z' || '0' <= c <= '9' || c == '+' || c == '/'
  }

  /** The value of one character of the alphabet "A-Z a-z 0-9 + /". */
  function SextetOf(c: char): Sextet
    requires IsAlphabetChar(c)
  {
    if 'A' <= c <= 'Z' then c as int - 65
    else if 'a' <= c <= 'z' then c as int - 97 + 26
    else if '0' <= c <= '9' then c as int - 48 + 52
    else if c == '+' then 62
    else 63
  }

  /** The character that encodes a six-bit value. */
  function CharOf(x: Sextet): (c: char)
    ensures IsAlphabetChar(c) && SextetOf(c) == x
  {
    if x < 26 then (65 + x) as char
    else if x < 52 then (97 + x - 26) as char
    else if x < 62 then (48 + x - 52) as char
    else if x == 62 then '+'
    else '/'
  }

  predicate IsLineBreak(c: char)
  {
    c == '\n' || c == '\r'
  }

  /** The input with the characters the decoder skips removed. */
  function StripLineBreaks(s: string): (r: string)
    ensures forall k :: 0 <= k < |r| ==> !IsLineBreak(r[k])
  {
    if s == [] then []
    else (if IsLineBreak(s[0]) then [] else [s[0]]) + StripLineBreaks(s[1..])
  }

  /** Four six-bit values packed into three bytes, most significant bits first. */
  function Unpack(c0: Sextet, c1: Sextet, c2: Sextet, c3: Sextet): (b: seq<Byte>)
    ensures |b| == 3
  {
    [c0 * 4 + c1 / 16, (c1 % 16) * 16 + c2 / 4, (c2 % 4) * 64 + c3]
  }

  /** The last quantum: four characters, or two or three followed by padding. */
  function DecodeLastQuantum(q: string): (r: Option<seq<Byte>>)
    requires |q| == 4
    ensures r.Some? ==> 1 <= |r.value| <= 3
  {
    if !IsAlphabetChar(q[0]) || !IsAlphabetChar(q[1]) then None
    else if q[2] == Pad && q[3] == Pad then Some(Unpack(SextetOf(q[0]), SextetOf(q[1]), 0, 0)[..1])
    else if !IsAlphabetChar(q[2]) then None
    else if q[3] == Pad then Some(Unpack(SextetOf(q[0]), SextetOf(q[1]), SextetOf(q[2]), 0)[..2])
    else if IsAlphabetChar(q[3]) then Some(Unpack(SextetOf(q[0]), SextetOf(q[1]), SextetOf(q[2]), SextetOf(q[3])))
    else None
  }

  /**
    Decoding of text with no line breaks, one quantum at a time: only whole
    quanta decode, each to three bytes except a padded last one.
   */
  function DecodeQuanta(s: string): (r: Option<seq<Byte>>)
    ensures r.Some? ==> |s| % 4 == 0 && |s| / 4 * 3 - 2 <= |r.value| <= |s| / 4 * 3
    decreases |s|
  {
    if s == [] then Some([])
    else if |s| < 4 then None
    else if |s| == 4 then DecodeLastQuantum(s)
    else if IsAlphabetChar(s[0]) && IsAlphabetChar(s[1]) && IsAlphabetChar(s[2]) && IsAlphabetChar(s[3]) then
      match DecodeQuanta(s[4..])
      case None => None
      case Some(rest) => Some(Unpack(SextetOf(s[0]), SextetOf(s[1]), SextetOf(s[2]), SextetOf(s[3])) + rest)
    else None
  }

  /**
    `base64.StdEncoding.DecodeString(s)`: `None` exactly when Go reports an error.
    Without its line breaks, decodable text is whole quanta, and each quantum but a
    padded last one gives three bytes.
   */
  function DecodeString(s: string): (r: Option<seq<Byte>>)
    ensures s == "" ==> r == Some([])
    ensures var t := StripLineBreaks(s);
      r.Some? ==> |t| % 4 == 0 && |t| / 4 * 3 - 2 <= |r.value| <= |t| / 4 * 3
  {
    DecodeQuanta(StripLineBreaks(s))
  }

  /** The four characters that encode three bytes. */
  function EncodeQuantum(b0: Byte, b1: Byte, b2: Byte): (q: string)
    ensures |q| == 4 && forall k :: 0 <= k < 4 ==> IsAlphabetChar(q[k])
  {
    [CharOf(b0 / 4), CharOf((b0 % 4) * 16 + b1 / 16), CharOf((b1 % 16) * 4 + b2 / 64), CharOf(b2 % 64)]
  }

  /** `base64.StdEncoding.EncodeToString(b)`: a final group of one or two bytes is padded. */
  function EncodeToString(b: seq<Byte>): (s: string)
    ensures |s| % 4 == 0 && (s == [] <==> b == [])
    decreases |b|
  {
    if |b| == 0 then ""
    else if |b| == 1 then EncodeQuantum(b[0], 0, 0)[..2] + [Pad, Pad]
    else if |b| == 2 then EncodeQuantum(b[0], b[1], 0)[..3] + [Pad]
    else EncodeQuantum(b[0], b[1], b[2]) + EncodeToString(b[3..])
  }

  /** `string(decoded)`: Go keeps each byte as one character of the string. */
  function BytesToString(b: seq<Byte>): (s: string)
    ensures |s| == |b| && forall k :: 0 <= k < |b| ==> s[k] as int == b[k]
  {
    seq(|b|, k requires 0 <= k < |b| => b[k] as char)
  }

  /** The inverse of `BytesToString` on strings of byte-sized characters. */
  function StringToBytes(s: string): (b: seq<Byte>)
    requires forall k :: 0 <= k < |s| ==> s[k] as int < 256
    ensures BytesToString(b) == s
  {
    seq(|s|, k requires 0 <= k < |s| => s[k] as int)
  }

  /** Text without line breaks is left as it is by the decoder's skipping. */
  lemma {:induction false} StripLineBreaksNoop(s: string)
    requires forall k :: 0 <= k < |s| ==> !IsLineBreak(s[k])
    ensures StripLineBreaks(s) == s
  {
    if s != [] {
      StripLineBreaksNoop(s[1..]);
    }
  }

  /** Repacking the sextets of three bytes gives the bytes back. */
  lemma UnpackOfEncodeQuantum(b0: Byte, b1: Byte, b2: Byte)
    ensures var q := EncodeQuantum(b0, b1, b2);
      Unpack(SextetOf(q[0]), SextetOf(q[1]), SextetOf(q[2]), SextetOf(q[3])) == [b0, b1, b2]
  {
    var c1 := (b0 % 4) * 16 + b1 / 16;
    var c2 := (b1 % 16) * 4 + b2 / 64;
    assert c1 / 16 == b0 % 4 && c1 % 16 == b1 / 16;
    assert c2 / 4 == b1 % 16 && c2 % 4 == b2 / 64;
  }

  /** The encoding of one trailing byte decodes back to it. */
  lemma DecodeOneByte(b: seq<Byte>)
    requires |b| == 1
    ensures DecodeQuanta(EncodeToString(b)) == Some(b)
  {
    var b0 := b[0];
    assert b == [b0];
    var q := EncodeQuantum(b0, 0, 0);
    var s := EncodeToString([b0]);
    assert s == [q[0], q[1], Pad, Pad];
    UnpackOfEncodeQuantum(b0, 0, 0);
    var u := Unpack(SextetOf(q[0]), SextetOf(q[1]), 0, 0);
    assert u[0] == Unpack(SextetOf(q[0]), SextetOf(q[1]), SextetOf(q[2]), SextetOf(q[3]))[0];
    assert DecodeQuanta(s) == Some(u[..1]);
    assert u[..1] == [b0];
  }

  /** The encoding of two trailing bytes decodes back to them. */
  lemma DecodeTwoBytes(b: seq<Byte>)
    requires |b| == 2
    ensures DecodeQuanta(EncodeToString(b)) == Some(b)
  {
    var b0, b1 := b[0], b[1];
    assert b == [b0, b1];
    var q := EncodeQuantum(b0, b1, 0);
    var s := EncodeToString([b0, b1]);
    assert s == [q[0], q[1], q[2], Pad];
    UnpackOfEncodeQuantum(b0, b1, 0);
    var u := Unpack(SextetOf(q[0]), SextetOf(q[1]), SextetOf(q[2]), 0);
    var w := Unpack(SextetOf(q[0]), SextetOf(q[1]), SextetOf(q[2]), SextetOf(q[3]));
    assert u[0] == w[0] && u[1] == w[1];
    assert DecodeQuanta(s) == Some(u[..2]);
    assert u[..2] == [b0, b1];
  }

  /** The encoding of three or more bytes starts with the quantum of the first three. */
  lemma FirstQuantum(b: seq<Byte>)
    requires |b| >= 3
    ensures var s := EncodeToString(b);
      |s| >= 4 && s[..4] == EncodeQuantum(b[0], b[1], b[2]) && s[4..] == EncodeToString(b[3..])
  {
  }

  lemma SplitAfterThree(b: seq<Byte>)
    requires |b| >= 3
    ensures [b[0], b[1], b[2]] + b[3..] == b
  {
  }

  /** Decoding what was encoded gives back the original bytes. */
  lemma {:induction false} DecodeQuantaOfEncoding(b: seq<Byte>)
    ensures DecodeQuanta(EncodeToString(b)) == Some(b)
    decreases |b|
  {
    if |b| == 1 {
      DecodeOneByte(b);
    } else if |b| == 2 {
      DecodeTwoBytes(b);
    } else if |b| >= 3 {
      DecodeQuantaOfEncoding(b[3..]);
      DecodeLongEncoding(b);
    }
  }

  /** The step of the induction: three more bytes in front of an encoding that decodes. */
  lemma DecodeLongEncoding(b: seq<Byte>)
    requires |b| >= 3
    requires DecodeQuanta(EncodeToString(b[3..])) == Some(b[3..])
    ensures DecodeQuanta(EncodeToString(b)) == Some(b)
  {
    var s := EncodeToString(b);
    var q := EncodeQuantum(b[0], b[1], b[2]);
    FirstQuantum(b);
    assert s[0] == q[0] && s[1] == q[1] && s[2] == q[2] && s[3] == q[3];
    UnpackOfEncodeQuantum(b[0], b[1], b[2]);
    DecodeFirstQuantum(s, [b[0], b[1], b[2]], b[3..]);
    SplitAfterThree(b);
  }

  /** A whole first quantum decodes to its three bytes ahead of what the rest decodes to. */
  lemma DecodeFirstQuantum(s: string, first: seq<Byte>, rest: seq<Byte>)
    requires |s| >= 4
    requires IsAlphabetChar(s[0]) && IsAlphabetChar(s[1]) && IsAlphabetChar(s[2]) && IsAlphabetChar(s[3])
    requires Unpack(SextetOf(s[0]), SextetOf(s[1]), SextetOf(s[2]), SextetOf(s[3])) == first
    requires DecodeQuanta(s[4..]) == Some(rest)
    ensures DecodeQuanta(s) == Some(first + rest)
  {
    if |s| == 4 {
      assert rest == [];
      assert first + rest == first;
    }
  }

  /** Encoded text uses only the alphabet and the padding character. */
  lemma {:induction false} EncodingAlphabet(b: seq<Byte>)
    ensures var s := EncodeToString(b); forall k :: 0 <= k < |s| ==> IsAlphabetChar(s[k]) || s[k] == Pad
    decreases |b|
  {
    if |b| >= 3 {
      EncodingAlphabet(b[3..]);
      var s := EncodeToString(b);
      assert s == EncodeQuantum(b[0], b[1], b[2]) + EncodeToString(b[3..]);
    }
  }

  /** Encoded text holds no character the decoder would skip. */
  lemma EncodingHasNoLineBreaks(b: seq<Byte>)
    ensures forall k :: 0 <= k < |EncodeToString(b)| ==> !IsLineBreak(EncodeToString(b)[k])
  {
    EncodingAlphabet(b);
  }

  /** `base64.StdEncoding.DecodeString` inverts `EncodeToString`. */
  lemma DecodeOfEncode(b: seq<Byte>)
    ensures DecodeString(EncodeToString(b)) == Some(b)
  {
    EncodingHasNoLineBreaks(b);
    StripLineBreaksNoop(EncodeToString(b));
    DecodeQuantaOfEncoding(b);
  }
}
