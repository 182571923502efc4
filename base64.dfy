/**
 * Base 64 encoding as in section 4 of RFC 4648 (the alphabet A-Z a-z 0-9 + /,
 * with '=' padding), and the browser's `btoa`, which encodes the Latin-1 octets
 * of a string whose characters are all at most U+00FF.
 */
module Base64 {
  import opened Wrappers
  import opened Bytes

  type sextet = x: int | 0 <= x < 64

  /** The alphabet of section 4 of RFC 4648: value 0..63 to its character. */
  function Digit(n: sextet): char
  {
    if n < 26 then ('A' as int + n) as char
    else if n < 52 then ('a' as int + (n - 26)) as char
    else if n < 62 then ('0' as int + (n - 52)) as char
    else if n == 62 then '+'
    else '/'
  }

  /** The value of an alphabet character; `None` for any other character, '=' included. */
  function DigitValue(c: char): (r: Option<sextet>)
    ensures r.Some? ==> Digit(r.value) == c
  {
    if 'A' <= c <= 'Z' then Some(c as int - 'A' as int)
    else if 'a' <= c <= 'z' then Some(c as int - 'a' as int + 26)
    else if '0' <= c <= '9' then Some(c as int - '0' as int + 52)
    else if c == '+' then Some(62)
    else if c == '/' then Some(63)
    else None
  }

  lemma DigitValueOfDigit(n: sextet)
    ensures DigitValue(Digit(n)) == Some(n)
  {
  }

  /** The characters an encoding may contain. */
  predicate IsEncodingChar(c: char)
  {
    DigitValue(c).Some? || c == '='
  }

  /** Every alphabet character may appear in an encoding. */
  lemma DigitIsEncodingChar(n: sextet)
    ensures IsEncodingChar(Digit(n))
  {
    DigitValueOfDigit(n);
  }

  /** A final group of one octet: its 8 bits over two digits, then "==". */
  function EncodeOne(b0: byte): (q: string)
    ensures |q| == 4 && forall i :: 0 <= i < 4 ==> IsEncodingChar(q[i])
  {
    DigitIsEncodingChar(b0 / 4);
    DigitIsEncodingChar((b0 % 4) * 16);
    [Digit(b0 / 4), Digit((b0 % 4) * 16), '=', '=']
  }

  /** A final group of two octets: their 16 bits over three digits, then "=". */
  function EncodeTwo(b0: byte, b1: byte): (q: string)
    ensures |q| == 4 && forall i :: 0 <= i < 4 ==> IsEncodingChar(q[i])
  {
    DigitIsEncodingChar(b0 / 4);
    DigitIsEncodingChar((b0 % 4) * 16 + b1 / 16);
    DigitIsEncodingChar((b1 % 16) * 4);
    [Digit(b0 / 4), Digit((b0 % 4) * 16 + b1 / 16), Digit((b1 % 16) * 4), '=']
  }

  /** A full group: the 24 bits of three octets over four digits. */
  function EncodeThree(b0: byte, b1: byte, b2: byte): (q: string)
    ensures |q| == 4 && forall i :: 0 <= i < 4 ==> IsEncodingChar(q[i])
  {
    DigitIsEncodingChar(b0 / 4);
    DigitIsEncodingChar((b0 % 4) * 16 + b1 / 16);
    DigitIsEncodingChar((b1 % 16) * 4 + b2 / 64);
    DigitIsEncodingChar(b2 % 64);
    [Digit(b0 / 4), Digit((b0 % 4) * 16 + b1 / 16), Digit((b1 % 16) * 4 + b2 / 64), Digit(b2 % 64)]
  }

  /**
   * Encodes each group of three octets as four characters; a final group of one
   * or two octets is padded with "==" or "=".
   */
  function Encode(b: seq<byte>): (s: string)
    ensures |s| == 4 * ((|b| + 2) / 3)
    ensures forall i :: 0 <= i < |s| ==> IsEncodingChar(s[i])
    decreases |b|
  {
    if |b| == 0 then ""
    else if |b| == 1 then EncodeOne(b[0])
    else if |b| == 2 then EncodeTwo(b[0], b[1])
    else
      var head, rest := EncodeThree(b[0], b[1], b[2]), Encode(b[3..]);
      GroupLength(|b|);
      EncodingCharsJoin(head, rest);
      head + rest
  }

  /** Three more octets take four more characters. */
  lemma GroupLength(n: int)
    requires n >= 3
    ensures 4 + 4 * ((n - 3 + 2) / 3) == 4 * ((n + 2) / 3)
  {
  }

  /** Joining two encodings keeps every character an encoding character. */
  lemma EncodingCharsJoin(head: string, rest: string)
    requires forall i :: 0 <= i < |head| ==> IsEncodingChar(head[i])
    requires forall i :: 0 <= i < |rest| ==> IsEncodingChar(rest[i])
    ensures forall i :: 0 <= i < |head + rest| ==> IsEncodingChar((head + rest)[i])
  {
    forall i | 0 <= i < |head + rest|
      ensures IsEncodingChar((head + rest)[i])
    {
      if i >= |head| {
        assert (head + rest)[i] == rest[i - |head|];
      }
    }
  }

  /** Four alphabet characters: the three octets their 24 bits spell; `None` otherwise. */
  function DecodeQuad(a: char, b: char, c: char, d: char): (r: Option<seq<byte>>)
    ensures r.Some? ==> |r.value| == 3
  {
    var c0, c1, c2, c3 := DigitValue(a), DigitValue(b), DigitValue(c), DigitValue(d);
    if c0.None? || c1.None? || c2.None? || c3.None? then None
    else Some([c0.value * 4 + c1.value / 16, (c1.value % 16) * 16 + c2.value / 4,
               (c2.value % 4) * 64 + c3.value])
  }

  /** The last group of four: "xx==" is one octet, "xxx=" two, otherwise a full group. */
  function DecodeFinal(a: char, b: char, c: char, d: char): (r: Option<seq<byte>>)
    ensures r.Some? ==> 1 <= |r.value| <= 3
  {
    var c0, c1, c2 := DigitValue(a), DigitValue(b), DigitValue(c);
    if c0.None? || c1.None? then None
    else if c == '=' && d == '=' then Some([c0.value * 4 + c1.value / 16])
    else if c2.None? then None
    else if d == '=' then Some([c0.value * 4 + c1.value / 16, (c1.value % 16) * 16 + c2.value / 4])
    else DecodeQuad(a, b, c, d)
  }

  /**
   * Decodes groups of four characters, padding allowed only in the last group;
   * `None` when the text is not an encoding.
   */
  function Decode(s: string): (r: Option<seq<byte>>)
    decreases |s|
  {
    if |s| == 0 then Some([])
    else if |s| < 4 then None
    else if |s| == 4 then DecodeFinal(s[0], s[1], s[2], s[3])
    else
      match DecodeQuad(s[0], s[1], s[2], s[3])
      case None => None
      case Some(head) =>
        match Decode(s[4..])
        case None => None
        case Some(rest) => Some(head + rest)
  }

  /** A final group of one octet decodes back to that octet. */
  lemma DecodeOneOctet(b0: byte)
    ensures Decode(EncodeOne(b0)) == Some([b0])
  {
    DigitValueOfDigit(b0 / 4);
    DigitValueOfDigit((b0 % 4) * 16);
  }

  /** A final group of two octets decodes back to those octets. */
  lemma DecodeTwoOctets(b0: byte, b1: byte)
    ensures Decode(EncodeTwo(b0, b1)) == Some([b0, b1])
  {
    var c0, c1, c2 := b0 / 4, (b0 % 4) * 16 + b1 / 16, (b1 % 16) * 4;
    DigitValueOfDigit(c0);
    DigitValueOfDigit(c1);
    DigitValueOfDigit(c2);
    assert c1 / 16 == b0 % 4 && c1 % 16 == b1 / 16;
  }

  /** A full group of four digits decodes to its three octets ahead of what the rest decodes to. */
  lemma DecodeFullGroup(s: string, tail: seq<byte>)
    requires |s| >= 4 && DecodeQuad(s[0], s[1], s[2], s[3]).Some?
    requires Decode(s[4..]) == Some(tail)
    ensures Decode(s) == Some(DecodeQuad(s[0], s[1], s[2], s[3]).value + tail)
  {
    if |s| == 4 {
      assert s[4..] == [] && tail == [];
      FinalOfQuad(s[0], s[1], s[2], s[3]);
      var group := DecodeQuad(s[0], s[1], s[2], s[3]).value;
      assert group + tail == group;
    }
  }

  /** Four alphabet characters in the last group decode as a full group. */
  lemma FinalOfQuad(a: char, b: char, c: char, d: char)
    requires DecodeQuad(a, b, c, d).Some?
    ensures DecodeFinal(a, b, c, d) == DecodeQuad(a, b, c, d)
  {
    assert DigitValue(c).Some? && DigitValue(d).Some?;
    assert c != '=' && d != '=';
  }

  /** The sextets of a full group carry the three octets' bits unchanged. */
  lemma ThreeOctetsSextets(b0: byte, b1: byte, b2: byte)
    ensures (b0 / 4) * 4 + ((b0 % 4) * 16 + b1 / 16) / 16 == b0 as int
    ensures (((b0 % 4) * 16 + b1 / 16) % 16) * 16 + ((b1 % 16) * 4 + b2 / 64) / 4 == b1 as int
    ensures (((b1 % 16) * 4 + b2 / 64) % 4) * 64 + b2 % 64 == b2 as int
  {
    var c1, c2 := (b0 % 4) * 16 + b1 / 16, (b1 % 16) * 4 + b2 / 64;
    assert c1 / 16 == b0 % 4 && c1 % 16 == b1 / 16;
    assert c2 / 4 == b1 % 16 && c2 % 4 == b2 / 64;
  }

  /** A full group of three octets decodes back to them, ahead of whatever follows. */
  lemma DecodeThreeOctets(b0: byte, b1: byte, b2: byte, rest: string, tail: seq<byte>)
    requires Decode(rest) == Some(tail)
    ensures Decode(EncodeThree(b0, b1, b2) + rest) == Some([b0, b1, b2] + tail)
  {
    var c0, c1, c2, c3 := b0 / 4, (b0 % 4) * 16 + b1 / 16, (b1 % 16) * 4 + b2 / 64, b2 % 64;
    DigitValueOfDigit(c0);
    DigitValueOfDigit(c1);
    DigitValueOfDigit(c2);
    DigitValueOfDigit(c3);
    ThreeOctetsSextets(b0, b1, b2);
    assert DecodeQuad(Digit(c0), Digit(c1), Digit(c2), Digit(c3)) == Some([b0, b1, b2]);
    var s := EncodeThree(b0, b1, b2) + rest;
    assert s[4..] == rest;
    DecodeFullGroup(s, tail);
  }

  /** Decoding an encoding gives back the octets: the encoding loses nothing. */
  lemma {:induction false} DecodeEncode(b: seq<byte>)
    ensures Decode(Encode(b)) == Some(b)
    decreases |b|
  {
    if |b| == 1 {
      DecodeEncodeShort(b);
    } else if |b| == 2 {
      DecodeEncodeShort(b);
    } else if |b| >= 3 {
      DecodeEncode(b[3..]);
      DecodeEncodeGroup(b, Encode(b[3..]), b[3..]);
    }
  }

  /** The final group, one or two octets. */
  lemma DecodeEncodeShort(b: seq<byte>)
    requires |b| == 1 || |b| == 2
    ensures Decode(Encode(b)) == Some(b)
  {
    if |b| == 1 {
      DecodeOneOctet(b[0]);
      assert b == [b[0]];
    } else {
      DecodeTwoOctets(b[0], b[1]);
      assert b == [b[0], b[1]];
    }
  }

  /** A leading group of three octets, given that the rest round-trips. */
  lemma DecodeEncodeGroup(b: seq<byte>, rest: string, tail: seq<byte>)
    requires |b| >= 3 && rest == Encode(b[3..]) && tail == b[3..]
    requires Decode(rest) == Some(tail)
    ensures Decode(Encode(b)) == Some(b)
  {
    assert b == [b[0], b[1], b[2]] + tail;
    assert Encode(b) == EncodeThree(b[0], b[1], b[2]) + rest;
    DecodeThreeOctets(b[0], b[1], b[2], rest, tail);
  }

  /** The encoding is injective: distinct octet strings never share an encoding. */
  lemma EncodeInjective(a: seq<byte>, b: seq<byte>)
    requires Encode(a) == Encode(b)
    ensures a == b
  {
    DecodeEncode(a);
    DecodeEncode(b);
  }

  /** Every character is at most U+00FF, as `btoa` demands. */
  predicate IsLatin1(s: string)
  {
    forall i :: 0 <= i < |s| ==> s[i] as int < 0x100
  }

  /** The octets of a Latin-1 string, one per character. */
  function Latin1Bytes(s: string): (b: seq<byte>)
    requires IsLatin1(s)
    ensures |b| == |s| && forall i :: 0 <= i < |s| ==> b[i] == s[i] as int
  {
    seq(|s|, i requires 0 <= i < |s| => s[i] as int as byte)
  }

  /** `String.fromCharCode(...octets)`: one character per octet. */
  function FromCharCodes(b: seq<byte>): (s: string)
    ensures IsLatin1(s)
    ensures Latin1Bytes(s) == b
  {
    seq(|b|, i requires 0 <= i < |b| => b[i] as char)
  }

  /** `btoa(s)`: the encoding of the string's Latin-1 octets, which `Atob` recovers. */
  function Btoa(s: string): (r: string)
    requires IsLatin1(s)
    ensures Atob(r) == Some(s)
    ensures |r| == 4 * ((|s| + 2) / 3)
  {
    DecodeEncode(Latin1Bytes(s));
    assert FromCharCodes(Latin1Bytes(s)) == s;
    Encode(Latin1Bytes(s))
  }

  /** `atob(r)`: the Latin-1 string whose octets `r` encodes. */
  function Atob(r: string): Option<string>
  {
    match Decode(r)
    case None => None
    case Some(b) => Some(FromCharCodes(b))
  }

  /** `btoa` applied to `String.fromCharCode(...octets)` is the encoding of the octets. */
  lemma BtoaOfCharCodes(b: seq<byte>)
    ensures Btoa(FromCharCodes(b)) == Encode(b)
  {
  }
}
