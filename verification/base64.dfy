/**
 Base 64 encoding with the standard alphabet and `=` padding, as section 4
 of RFC 4648 defines it. Decoding rejects characters outside the alphabet
 and misplaced padding: the input must be whole four-character groups with
 `=` only at the end. Like `b64decode`, it ignores the leftover low bits of
 the last character before the padding, so `YR==` decodes as `YQ==` does.
 */
module Base64 {
  import opened Errors

  type Byte = b: int | 0 <= b < 256

  /** The character for a six-bit value: `A`-`Z`, `a`-`z`, `0`-`9`, `+`, `/`. */
  function Sextet(v: nat): (c: char)
    requires v < 64
    ensures c != '='
  {
    if v < 26 then ('A' as int + v) as char
    else if v < 52 then ('a' as int + (v - 26)) as char
    else if v < 62 then ('0' as int + (v - 52)) as char
    else if v == 62 then '+'
    else '/'
  }

  /** The six-bit value of an alphabet character; `None` for anything else, the pad included. */
  function SextetValue(c: char): (r: Option<nat>)
    ensures r.Some? ==> r.value < 64
    ensures c == '=' ==> r.None?
  {
    if 'A' <= c <= 'Z' then Some(c as int - 'A' as int)
    else if 'a' <= c <= 'z' then Some(c as int - 'a' as int + 26)
    else if '0' <= c <= '9' then Some(c as int - '0' as int + 52)
    else if c == '+' then Some(62)
    else if c == '/' then Some(63)
    else None
  }

  /** `/` is the character of the largest value only. */
  lemma SextetSlash(v: nat)
    requires v < 64
    ensures Sextet(v) == '/' <==> v == 63
  {
  }

  lemma SextetRoundTrip(v: nat)
    requires v < 64
    ensures SextetValue(Sextet(v)) == Some(v)
  {
  }

  /** Encode: each three bytes become four characters; a final one or two bytes are padded with `==` or `=`. */
  function Encode(bs: seq<Byte>): (s: string)
    ensures |s| % 4 == 0
    ensures |bs| > 0 ==> |s| >= 4 && s[0] == Sextet(bs[0] / 4)
    decreases |bs|
  {
    if |bs| == 0 then ""
    else if |bs| == 1 then [Sextet(bs[0] / 4), Sextet((bs[0] % 4) * 16)] + "=="
    else if |bs| == 2 then [Sextet(bs[0] / 4), Sextet((bs[0] % 4) * 16 + bs[1] / 16), Sextet((bs[1] % 16) * 4)] + "="
    else Group(bs[0], bs[1], bs[2]) + Encode(bs[3..])
  }

  /** The four characters for three bytes. */
  function Group(b0: Byte, b1: Byte, b2: Byte): (s: string)
    ensures |s| == 4
  {
    [Sextet(b0 / 4), Sextet((b0 % 4) * 16 + b1 / 16), Sextet((b1 % 16) * 4 + b2 / 64), Sextet(b2 % 64)]
  }

  /** `binascii.Error`, which is a `ValueError`. */
  function Value(c: char): Result<nat> {
    match SextetValue(c)
    case Some(v) => Ok(v)
    case None => Err(ValueError("Invalid base64-encoded string"))
  }

  /** One group of four characters; only the last group may end in `=` or `==`. */
  function DecodeQuad(q: string, last: bool): (r: Result<seq<Byte>>)
    requires |q| == 4
    ensures r.Ok? ==> 1 <= |r.value| <= 3
  {
    var v0 :- Value(q[0]);
    var v1 :- Value(q[1]);
    var b0: Byte := (v0 * 4 + v1 / 16) as Byte;
    if last && q[2] == '=' && q[3] == '=' then Ok([b0])
    else
      var v2 :- Value(q[2]);
      var b1: Byte := ((v1 % 16) * 16 + v2 / 4) as Byte;
      if last && q[3] == '=' then Ok([b0, b1])
      else
        var v3 :- Value(q[3]);
        Ok([b0, b1, ((v2 % 4) * 64 + v3) as Byte])
  }

  function DecodeQuads(s: string): Result<seq<Byte>>
    requires |s| % 4 == 0
    decreases |s|
  {
    if |s| == 0 then Ok([])
    else
      var head :- DecodeQuad(s[..4], |s| == 4);
      var rest :- DecodeQuads(s[4..]);
      Ok(head + rest)
  }

  /** `b64decode`: a length that is not a multiple of four is bad padding. */
  function Decode(s: string): (r: Result<seq<Byte>>)
    ensures |s| % 4 != 0 ==> r.Err?
    ensures |s| == 0 ==> r == Ok([])
  {
    if |s| % 4 != 0 then Err(ValueError("Incorrect padding"))
    else DecodeQuads(s)
  }

  /** The bit arithmetic of one full group undoes itself. */
  lemma GroupArithmetic(b0: Byte, b1: Byte, b2: Byte)
    ensures (b0 / 4) * 4 + ((b0 % 4) * 16 + b1 / 16) / 16 == b0
    ensures (((b0 % 4) * 16 + b1 / 16) % 16) * 16 + ((b1 % 16) * 4 + b2 / 64) / 4 == b1
    ensures (((b1 % 16) * 4 + b2 / 64) % 4) * 64 + b2 % 64 == b2
  {
  }

  lemma DecodeQuadsCons(q: string, tail: string)
    requires |q| == 4 && |tail| % 4 == 0
    ensures DecodeQuads(q + tail) ==
            (match DecodeQuad(q, |tail| == 0)
             case Err(e) => Err(e)
             case Ok(head) => match DecodeQuads(tail) case Err(e) => Err(e) case Ok(rest) => Ok(head + rest))
  {
    assert (q + tail)[..4] == q;
    assert (q + tail)[4..] == tail;
  }

  /** The quad that encodes three bytes decodes to them, last or not. */
  lemma DecodeFullQuad(b0: Byte, b1: Byte, b2: Byte, last: bool)
    ensures DecodeQuad(Group(b0, b1, b2), last) == Ok([b0, b1, b2])
  {
    var q := Group(b0, b1, b2);
    GroupArithmetic(b0, b1, b2);
    SextetRoundTrip(b0 / 4);
    SextetRoundTrip((b0 % 4) * 16 + b1 / 16);
    SextetRoundTrip((b1 % 16) * 4 + b2 / 64);
    SextetRoundTrip(b2 % 64);
    assert q[2] != '=' && q[3] != '=';
  }

  /** The quad that encodes two bytes (one pad) decodes to them. */
  lemma DecodeTwoByteQuad(b0: Byte, b1: Byte)
    ensures DecodeQuad([Sextet(b0 / 4), Sextet((b0 % 4) * 16 + b1 / 16), Sextet((b1 % 16) * 4)] + "=", true) == Ok([b0, b1])
  {
    var q := [Sextet(b0 / 4), Sextet((b0 % 4) * 16 + b1 / 16), Sextet((b1 % 16) * 4)] + "=";
    GroupArithmetic(b0, b1, 0);
    SextetRoundTrip(b0 / 4);
    SextetRoundTrip((b0 % 4) * 16 + b1 / 16);
    SextetRoundTrip((b1 % 16) * 4);
    assert q[2] != '=' && q[3] == '=';
  }

  /** The quad that encodes one byte (two pads) decodes to it. */
  lemma DecodeOneByteQuad(b0: Byte)
    ensures DecodeQuad([Sextet(b0 / 4), Sextet((b0 % 4) * 16)] + "==", true) == Ok([b0])
  {
    var q := [Sextet(b0 / 4), Sextet((b0 % 4) * 16)] + "==";
    GroupArithmetic(b0, 0, 0);
    SextetRoundTrip(b0 / 4);
    SextetRoundTrip((b0 % 4) * 16);
    assert q[2] == '=' && q[3] == '=';
  }

  /** A quad that is the whole input decodes as the last one. */
  lemma DecodeLastQuad(s: string, bs: seq<Byte>)
    requires |s| == 4 && DecodeQuad(s, true) == Ok(bs)
    ensures DecodeQuads(s) == Ok(bs)
  {
    assert s[..4] == s && s[4..] == [];
    assert DecodeQuads(s[4..]) == Ok([]);
    assert bs + [] == bs;
  }

  lemma DecodeOneByte(bs: seq<Byte>)
    requires |bs| == 1
    ensures DecodeQuads(Encode(bs)) == Ok(bs)
  {
    var q := [Sextet(bs[0] / 4), Sextet((bs[0] % 4) * 16)] + "==";
    assert Encode(bs) == q;
    DecodeOneByteQuad(bs[0]);
    assert [bs[0]] == bs;
    DecodeLastQuad(q, bs);
  }

  lemma DecodeTwoBytes(bs: seq<Byte>)
    requires |bs| == 2
    ensures DecodeQuads(Encode(bs)) == Ok(bs)
  {
    var q := [Sextet(bs[0] / 4), Sextet((bs[0] % 4) * 16 + bs[1] / 16), Sextet((bs[1] % 16) * 4)] + "=";
    assert Encode(bs) == q;
    DecodeTwoByteQuad(bs[0], bs[1]);
    assert [bs[0], bs[1]] == bs;
    DecodeLastQuad(q, bs);
  }

  /** Decoding the groups of an encoding gives back the bytes. */
  lemma {:induction false} DecodeQuadsEncode(bs: seq<Byte>)
    ensures DecodeQuads(Encode(bs)) == Ok(bs)
    decreases |bs|
  {
    if |bs| == 1 {
      DecodeOneByte(bs);
    } else if |bs| == 2 {
      DecodeTwoBytes(bs);
    } else if |bs| >= 3 {
      var q := Group(bs[0], bs[1], bs[2]);
      var tail := Encode(bs[3..]);
      assert Encode(bs) == q + tail;
      DecodeQuadsEncode(bs[3..]);
      DecodeFullQuad(bs[0], bs[1], bs[2], |tail| == 0);
      DecodeQuadsCons(q, tail);
      assert [bs[0], bs[1], bs[2]] + bs[3..] == bs;
    }
  }

  /** Decoding an encoding gives back the bytes. */
  lemma DecodeEncode(bs: seq<Byte>)
    ensures Decode(Encode(bs)) == Ok(bs)
  {
    DecodeQuadsEncode(bs);
  }
}
