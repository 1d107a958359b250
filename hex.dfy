/** Lowercase hexadecimal text of a byte string, as produced by Go's
    `hex.EncodeToString` and by `fmt.Sprintf("%x", …)` on a byte array,
    together with the decoder that inverts it. SHA-256 itself is not
    modelled: it appears as a parameter of type `Sha256`. */
module Hex {
  import opened Common

  /** A SHA-256 sum: exactly 32 octets. */
  type Digest32 = s: seq<byte> | |s| == 32 witness seq(32, i => 0)

  /** The hash function, left uninterpreted. */
  type Sha256 = seq<byte> -> Digest32

  const Digits: string := "0123456789abcdef"

  predicate IsHexChar(c: char) {
    '0' <= c <= '9' || 'a' <= c <= 'f'
  }

  predicate IsHexString(s: string) {
    forall i :: 0 <= i < |s| ==> IsHexChar(s[i])
  }

  function DigitChar(n: int): (c: char)
    requires 0 <= n < 16
    ensures IsHexChar(c)
  {
    Digits[n]
  }

  /** The value of one lowercase hex digit, if it is one. */
  function DigitValue(c: char): (r: Option<int>)
    ensures r.Some? <==> IsHexChar(c)
    ensures r.Some? ==> 0 <= r.value < 16
  {
    if '0' <= c <= '9' then Some(c as int - '0' as int)
    else if 'a' <= c <= 'f' then Some(c as int - 'a' as int + 10)
    else None
  }

  /** Two characters per byte, high nibble first. */
  function Encode(bs: seq<byte>): (s: string)
    ensures |s| == 2 * |bs|
    ensures IsHexString(s)
  {
    if bs == [] then []
    else [DigitChar(bs[0] / 16), DigitChar(bs[0] % 16)] + Encode(bs[1..])
  }

  /** Inverse of `Encode`: fails on odd length or a non-lowercase-hex character. */
  function Decode(s: string): (r: Option<seq<byte>>)
    decreases |s|
  {
    if s == [] then Some([])
    else if |s| == 1 then None
    else match (DigitValue(s[0]), DigitValue(s[1]), Decode(s[2..]))
      case (Some(hi), Some(lo), Some(rest)) => Some([hi * 16 + lo] + rest)
      case _ => None
  }

  lemma DigitRoundTrip(n: int)
    requires 0 <= n < 16
    ensures DigitValue(DigitChar(n)) == Some(n)
  {
  }

  lemma DigitCharOfValue(c: char)
    requires IsHexChar(c)
    ensures DigitChar(DigitValue(c).value) == c
  {
  }

  lemma Nibbles(hi: int, lo: int)
    requires 0 <= hi < 16 && 0 <= lo < 16
    ensures 0 <= hi * 16 + lo < 256
    ensures (hi * 16 + lo) / 16 == hi && (hi * 16 + lo) % 16 == lo
  {
  }

  lemma Split(b: byte)
    ensures 0 <= b / 16 < 16 && 0 <= b % 16 < 16
    ensures b / 16 * 16 + b % 16 == b
  {
  }

  /** Decoding one leading pair of digits. */
  lemma DecodeCons(c0: char, c1: char, t: string)
    requires IsHexChar(c0) && IsHexChar(c1) && Decode(t).Some?
    ensures Decode([c0, c1] + t) == Some([DigitValue(c0).value * 16 + DigitValue(c1).value] + Decode(t).value)
  {
    assert ([c0, c1] + t)[2..] == t;
  }

  /** Decoding the encoding gives back the bytes. */
  lemma {:induction false} EncodeDecode(bs: seq<byte>)
    ensures Decode(Encode(bs)) == Some(bs)
  {
    if bs != [] {
      EncodeDecode(bs[1..]);
      EncodeDecodeStep(bs[0], bs[1..]);
      assert [bs[0]] + bs[1..] == bs;
    }
  }

  /** One byte more in front keeps the round trip. */
  lemma EncodeDecodeStep(b: byte, rest: seq<byte>)
    requires Decode(Encode(rest)) == Some(rest)
    ensures Decode(Encode([b] + rest)) == Some([b] + rest)
  {
    var hi, lo := b / 16, b % 16;
    Split(b);
    EncodeCons(b, rest);
    DecodeCons(DigitChar(hi), DigitChar(lo), Encode(rest));
    DigitRoundTrip(hi);
    DigitRoundTrip(lo);
  }

  lemma EncodeCons(b: byte, rest: seq<byte>)
    ensures Encode([b] + rest) == [DigitChar(b / 16), DigitChar(b % 16)] + Encode(rest)
  {
    assert ([b] + rest)[1..] == rest;
  }

  /** Every even-length lowercase hex string is the encoding of what it decodes to. */
  lemma {:induction false} DecodeEncode(s: string)
    requires IsHexString(s) && |s| % 2 == 0
    ensures Decode(s).Some? && Encode(Decode(s).value) == s
  {
    if s != [] {
      var tail := s[2..];
      assert IsHexString(tail);
      DecodeEncode(tail);
      var rest := Decode(tail).value;
      var hi, lo := DigitValue(s[0]).value, DigitValue(s[1]).value;
      Nibbles(hi, lo);
      var b: byte := hi * 16 + lo;
      assert Decode(s) == Some([b] + rest) by {
        assert DigitValue(s[0]) == Some(hi) && DigitValue(s[1]) == Some(lo);
        assert Decode(tail) == Some(rest);
      }
      assert Encode([b] + rest) == s by {
        EncodeCons(b, rest);
        DigitCharOfValue(s[0]);
        DigitCharOfValue(s[1]);
        assert s == [s[0], s[1]] + tail;
      }
    }
  }

  /** `Decode` accepts exactly the even-length lowercase hex strings. */
  lemma {:induction false} DecodeDefined(s: string)
    ensures Decode(s).Some? <==> IsHexString(s) && |s| % 2 == 0
    decreases |s|
  {
    if IsHexString(s) && |s| % 2 == 0 {
      DecodeEncode(s);
    }
    if Decode(s).Some? && s != [] {
      var tail := s[2..];
      DecodeDefined(tail);
      assert IsHexChar(s[0]) && IsHexChar(s[1]);
      forall i | 0 <= i < |s| ensures IsHexChar(s[i]) {
        if i >= 2 {
          assert s[i] == tail[i - 2];
        }
      }
    }
  }

  /** Whatever decodes is the encoding of what it decodes to. */
  lemma DecodeSomeIsEncoding(s: string)
    requires Decode(s).Some?
    ensures Encode(Decode(s).value) == s
  {
    DecodeDefined(s);
    DecodeEncode(s);
  }

  /** The encoding is injective, so equal hex text means equal bytes. */
  lemma EncodeInjective(a: seq<byte>, b: seq<byte>)
    ensures Encode(a) == Encode(b) <==> a == b
  {
    if Encode(a) == Encode(b) {
      EncodeDecode(a);
      EncodeDecode(b);
    }
  }
}
