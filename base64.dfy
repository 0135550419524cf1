/** Base64 as in section 4 of RFC 4648 (the alphabet `A`–`Z`, `a`–`z`,
    `0`–`9`, `+`, `/`, with `=` padding), which `Convert.ToBase64String`
    produces. */
module Base64 {
  type Byte = x: int | 0 <= x < 256

  /** The character for a six-bit value. */
  function Sextet(i: nat): char
    requires i < 64
  {
    if i < 26 then ('A' as int + i) as char
    else if i < 52 then ('a' as int + (i - 26)) as char
    else if i < 62 then ('0' as int + (i - 52)) as char
    else if i == 62 then '+'
    else '/'
  }

  /** The six-bit value of an alphabet character (0 for any other). */
  function SextetValue(c: char): (i: nat)
    ensures i < 64
  {
    if 'A' <= c <= 'Z' then c as int - 'A' as int
    else if 'a' <= c <= 'z' then c as int - 'a' as int + 26
    else if '0' <= c <= '9' then c as int - '0' as int + 52
    else if c == '+' then 62
    else if c == '/' then 63
    else 0
  }

  predicate InAlphabet(c: char) {
    ('A' <= c <= 'Z') || ('a' <= c <= 'z') || ('0' <= c <= '9') || c == '+' || c == '/'
  }

  lemma SextetRoundTrip(i: nat)
    requires i < 64
    ensures InAlphabet(Sextet(i)) && SextetValue(Sextet(i)) == i
  {
  }

  /** Three bytes as four characters. */
  function EncodeGroup(b0: Byte, b1: Byte, b2: Byte): string {
    [Sextet(b0 / 4), Sextet((b0 % 4) * 16 + b1 / 16), Sextet((b1 % 16) * 4 + b2 / 64), Sextet(b2 % 64)]
  }

  /** `Convert.ToBase64String`. */
  function Encode(bytes: seq<Byte>): (r: string)
    ensures |r| == 4 * ((|bytes| + 2) / 3)
    decreases |bytes|
  {
    if |bytes| == 0 then ""
    else if |bytes| == 1 then [Sextet(bytes[0] / 4), Sextet((bytes[0] % 4) * 16), '=', '=']
    else if |bytes| == 2 then [Sextet(bytes[0] / 4), Sextet((bytes[0] % 4) * 16 + bytes[1] / 16), Sextet((bytes[1] % 16) * 4), '=']
    else EncodeGroup(bytes[0], bytes[1], bytes[2]) + Encode(bytes[3..])
  }

  /** The inverse: four characters at a time, a padded group giving one or
      two bytes. */
  function Decode(s: string): seq<Byte>
    decreases |s|
  {
    if |s| < 4 then []
    else
      var c0, c1, c2, c3 := SextetValue(s[0]), SextetValue(s[1]), SextetValue(s[2]), SextetValue(s[3]);
      var b0: Byte := c0 * 4 + c1 / 16;
      var b1: Byte := (c1 % 16) * 16 + c2 / 4;
      var b2: Byte := (c2 % 4) * 64 + c3;
      if s[2] == '=' then [b0]
      else if s[3] == '=' then [b0, b1]
      else [b0, b1, b2] + Decode(s[4..])
  }

  lemma GroupRoundTrip(b0: Byte, b1: Byte, b2: Byte)
    ensures var c0, c1, c2, c3 := b0 / 4, (b0 % 4) * 16 + b1 / 16, (b1 % 16) * 4 + b2 / 64, b2 % 64;
            && c0 * 4 + c1 / 16 == b0
            && (c1 % 16) * 16 + c2 / 4 == b1
            && (c2 % 4) * 64 + c3 == b2
  {
  }

  /** Every character is from the alphabet, except the padding at the end. */
  lemma {:induction false} EncodeAlphabet(bytes: seq<Byte>)
    ensures forall i :: 0 <= i < |Encode(bytes)| ==> InAlphabet(Encode(bytes)[i]) || Encode(bytes)[i] == '='
    ensures forall i :: 0 <= i < |Encode(bytes)| && Encode(bytes)[i] == '=' ==> i >= |Encode(bytes)| - 2
    decreases |bytes|
  {
    if |bytes| >= 3 {
      EncodeAlphabet(bytes[3..]);
      var g := EncodeGroup(bytes[0], bytes[1], bytes[2]);
      SextetRoundTrip(bytes[0] / 4);
      SextetRoundTrip((bytes[0] % 4) * 16 + bytes[1] / 16);
      SextetRoundTrip((bytes[1] % 16) * 4 + bytes[2] / 64);
      SextetRoundTrip(bytes[2] % 64);
      forall i | 0 <= i < |Encode(bytes)|
        ensures InAlphabet(Encode(bytes)[i]) || Encode(bytes)[i] == '='
        ensures Encode(bytes)[i] == '=' ==> i >= |Encode(bytes)| - 2
      {
        if i >= 4 {
          assert Encode(bytes)[i] == Encode(bytes[3..])[i - 4];
        }
      }
    } else if |bytes| == 2 {
      SextetRoundTrip(bytes[0] / 4);
      SextetRoundTrip((bytes[0] % 4) * 16 + bytes[1] / 16);
      SextetRoundTrip((bytes[1] % 16) * 4);
    } else if |bytes| == 1 {
      SextetRoundTrip(bytes[0] / 4);
      SextetRoundTrip((bytes[0] % 4) * 16);
    }
  }

  /** A full group decodes to its three bytes, followed by the rest. */
  lemma DecodeGroup(b0: Byte, b1: Byte, b2: Byte, rest: string)
    ensures Decode(EncodeGroup(b0, b1, b2) + rest) == [b0, b1, b2] + Decode(rest)
  {
    var g := EncodeGroup(b0, b1, b2);
    SextetRoundTrip(b0 / 4);
    SextetRoundTrip((b0 % 4) * 16 + b1 / 16);
    SextetRoundTrip((b1 % 16) * 4 + b2 / 64);
    SextetRoundTrip(b2 % 64);
    GroupRoundTrip(b0, b1, b2);
    assert (g + rest)[4..] == rest;
  }

  /** A group padded twice decodes to its one byte. */
  lemma DecodeOne(b0: Byte)
    ensures Decode(Encode([b0])) == [b0]
  {
    var s := Encode([b0]);
    SextetRoundTrip(b0 / 4);
    SextetRoundTrip((b0 % 4) * 16);
    assert SextetValue(s[0]) == b0 / 4 && SextetValue(s[1]) == (b0 % 4) * 16;
    assert (b0 / 4) * 4 + ((b0 % 4) * 16) / 16 == b0;
  }

  /** A group padded once decodes to its two bytes. */
  lemma DecodeTwo(b0: Byte, b1: Byte)
    ensures Decode(Encode([b0, b1])) == [b0, b1]
  {
    var s := Encode([b0, b1]);
    var c0, c1, c2 := b0 / 4, (b0 % 4) * 16 + b1 / 16, (b1 % 16) * 4;
    SextetRoundTrip(c0);
    SextetRoundTrip(c1);
    SextetRoundTrip(c2);
    assert SextetValue(s[0]) == c0 && SextetValue(s[1]) == c1 && SextetValue(s[2]) == c2;
    GroupRoundTrip(b0, b1, 0);
  }

  /** Decoding undoes encoding. */
  lemma {:induction false} DecodeEncode(bytes: seq<Byte>)
    ensures Decode(Encode(bytes)) == bytes
    decreases |bytes|
  {
    if |bytes| < 3 {
      DecodeEncodeShort(bytes);
    } else {
      DecodeEncode(bytes[3..]);
      DecodeEncodeStep(bytes);
    }
  }

  lemma DecodeEncodeShort(bytes: seq<Byte>)
    requires |bytes| < 3
    ensures Decode(Encode(bytes)) == bytes
  {
    if |bytes| == 1 {
      DecodeOne(bytes[0]);
      assert bytes == [bytes[0]];
    } else if |bytes| == 2 {
      DecodeTwo(bytes[0], bytes[1]);
      assert bytes == [bytes[0], bytes[1]];
    }
  }

  lemma DecodeEncodeStep(bytes: seq<Byte>)
    requires |bytes| >= 3 && Decode(Encode(bytes[3..])) == bytes[3..]
    ensures Decode(Encode(bytes)) == bytes
  {
    EncodeStep(bytes);
    DecodeGroup(bytes[0], bytes[1], bytes[2], Encode(bytes[3..]));
    SplitGroup(bytes);
  }

  lemma EncodeStep(bytes: seq<Byte>)
    requires |bytes| >= 3
    ensures Encode(bytes) == EncodeGroup(bytes[0], bytes[1], bytes[2]) + Encode(bytes[3..])
  {
  }

  lemma SplitGroup(bytes: seq<Byte>)
    requires |bytes| >= 3
    ensures bytes == [bytes[0], bytes[1], bytes[2]] + bytes[3..]
  {
  }
}
