/** Base64 with the standard alphabet and '=' padding, as in section 4 of RFC 4648. */
module Base64 {
  import opened Wrappers
  import opened Numbers

  /** The character for a 6-bit value: A-Z, a-z, 0-9, '+', '/'. */
  function Char(i: nat): (c: char)
    requires i < 64
  {
    if i < 26 then ('A' as int + i) as char
    else if i < 52 then ('a' as int + i - 26) as char
    else if i < 62 then ('0' as int + i - 52) as char
    else if i == 62 then '+'
    else '/'
  }

  lemma CharIndex(i: nat)
    requires i < 64
    ensures Index(Char(i)) == Some(i)
  {
  }

  /** The 6-bit value of an alphabet character. */
  function Index(c: char): (r: Option<nat>)
    ensures r.Some? ==> r.value < 64
  {
    if 'A' <= c <= 'Z' then Some(c as int - 'A' as int)
    else if 'a' <= c <= 'z' then Some(c as int - 'a' as int + 26)
    else if '0' <= c <= '9' then Some(c as int - '0' as int + 52)
    else if c == '+' then Some(62)
    else if c == '/' then Some(63)
    else None
  }

  /** Each group of three bytes becomes four characters; a final group of one or two is padded. */
  function Encode(b: seq<U8>): (r: string)
  {
    EncodeFrom(b, 0)
  }

  /** The encoding of `b[i..]`, for `i` at a group boundary. */
  function EncodeFrom(b: seq<U8>, i: nat): (r: string)
    requires i <= |b|
    decreases |b| - i
  {
    if |b| - i == 0 then ""
    else if |b| - i < 3 then Final(b[i..])
    else Quad(b[i], b[i + 1], b[i + 2]) + EncodeFrom(b, i + 3)
  }

  /** The padded group for the last one or two bytes. */
  function Final(b: seq<U8>): (r: string)
    requires 1 <= |b| <= 2
    ensures |r| == 4
  {
    if |b| == 1 then [Char(b[0] / 4), Char((b[0] % 4) * 16), '=', '=']
    else [Char(b[0] / 4), Char((b[0] % 4) * 16 + b[1] / 16), Char((b[1] % 16) * 4), '=']
  }

  function Quad(b0: U8, b1: U8, b2: U8): (r: string)
    ensures |r| == 4
  {
    [Char(b0 / 4), Char((b0 % 4) * 16 + b1 / 16), Char((b1 % 16) * 4 + b2 / 64), Char(b2 % 64)]
  }

  /** Four characters for every started group of three bytes. */
  lemma EncodeLength(b: seq<U8>)
    ensures |Encode(b)| == 4 * ((|b| + 2) / 3)
  {
    EncodeFromLength(b, 0);
  }

  lemma {:induction false} EncodeFromLength(b: seq<U8>, i: nat)
    requires i <= |b|
    ensures |EncodeFrom(b, i)| == 4 * ((|b| - i + 2) / 3)
    decreases |b| - i
  {
    if |b| - i >= 3 {
      EncodeFromLength(b, i + 3);
      assert (|b| - i + 2) / 3 == 1 + (|b| - (i + 3) + 2) / 3;
    }
  }

  /** The bytes a group of four characters stands for, honouring padding only in the last group. */
  function DecodeQuad(q: string, last: bool): (r: Option<seq<U8>>)
    requires |q| == 4
  {
    match (Index(q[0]), Index(q[1]), Index(q[2]), Index(q[3]))
    case (Some(c0), Some(c1), Some(c2), Some(c3)) =>
      Some([c0 * 4 + c1 / 16, (c1 % 16) * 16 + c2 / 4, (c2 % 4) * 64 + c3])
    case (Some(c0), Some(c1), Some(c2), None) =>
      if last && q[3] == '=' then Some([c0 * 4 + c1 / 16, (c1 % 16) * 16 + c2 / 4]) else None
    case (Some(c0), Some(c1), None, None) =>
      if last && q[2] == '=' && q[3] == '=' then Some([c0 * 4 + c1 / 16]) else None
    case _ => None
  }

  /** Inverse of Encode: `None` on a length that is not a multiple of four or a stray character. */
  function Decode(s: string): (r: Option<seq<U8>>)
    decreases |s|
  {
    if |s| == 0 then Some([])
    else if |s| < 4 then None
    else
      match DecodeQuad(s[..4], |s| == 4)
      case None => None
      case Some(head) =>
        match Decode(s[4..])
        case None => None
        case Some(tail) => Some(head + tail)
  }

  lemma QuadRoundTrip(b0: U8, b1: U8, b2: U8, last: bool)
    ensures DecodeQuad(Quad(b0, b1, b2), last) == Some([b0, b1, b2])
  {
    var c0, c1, c2, c3 := b0 / 4, (b0 % 4) * 16 + b1 / 16, (b1 % 16) * 4 + b2 / 64, b2 % 64;
    assert c1 / 16 == b0 % 4 && c1 % 16 == b1 / 16;
    assert c2 / 4 == b1 % 16 && c2 % 4 == b2 / 64;
    var q := Quad(b0, b1, b2);
    CharIndex(c0); CharIndex(c1); CharIndex(c2); CharIndex(c3);
    assert Index(q[0]) == Some(c0) && Index(q[1]) == Some(c1);
    assert Index(q[2]) == Some(c2) && Index(q[3]) == Some(c3);
  }

  lemma PairRoundTrip(b0: U8, b1: U8)
    ensures DecodeQuad(Final([b0, b1]), true) == Some([b0, b1])
  {
    var c0, c1, c2 := b0 / 4, (b0 % 4) * 16 + b1 / 16, (b1 % 16) * 4;
    assert c1 / 16 == b0 % 4 && c1 % 16 == b1 / 16;
    assert c2 / 4 == b1 % 16;
    var q := Final([b0, b1]);
    CharIndex(c0); CharIndex(c1); CharIndex(c2);
    assert Index(q[0]) == Some(c0) && Index(q[1]) == Some(c1) && Index(q[2]) == Some(c2);
    assert Index(q[3]) == None;
  }

  lemma SingleRoundTrip(b0: U8)
    ensures DecodeQuad(Final([b0]), true) == Some([b0])
  {
    var c0, c1 := b0 / 4, (b0 % 4) * 16;
    assert c1 / 16 == b0 % 4;
    var q := Final([b0]);
    CharIndex(c0); CharIndex(c1);
    assert Index(q[0]) == Some(c0) && Index(q[1]) == Some(c1);
    assert Index(q[2]) == None && Index(q[3]) == None;
  }

  lemma DecodeLastQuad(s: string)
    requires |s| == 4
    ensures Decode(s) == DecodeQuad(s, true)
  {
    assert s[..4] == s && s[4..] == "";
    match DecodeQuad(s, true)
    case None =>
    case Some(head) => assert head + [] == head;
  }

  lemma DecodeStep(s: string, head: seq<U8>, tail: seq<U8>)
    requires |s| > 4
    requires DecodeQuad(s[..4], false) == Some(head) && Decode(s[4..]) == Some(tail)
    ensures Decode(s) == Some(head + tail)
  {
  }

  lemma DecodeEncodeShort(b: seq<U8>)
    requires 1 <= |b| <= 2
    ensures Decode(Final(b)) == Some(b)
  {
    if |b| == 1 {
      assert b == [b[0]];
      SingleRoundTrip(b[0]);
    } else {
      assert b == [b[0], b[1]];
      PairRoundTrip(b[0], b[1]);
    }
    DecodeLastQuad(Final(b));
  }

  lemma EncodeFromGroup(b: seq<U8>, i: nat)
    requires i + 3 <= |b|
    ensures EncodeFrom(b, i) == Quad(b[i], b[i + 1], b[i + 2]) + EncodeFrom(b, i + 3)
  {
  }

  lemma DecodeEncodeGroup(b: seq<U8>, i: nat)
    requires i + 3 <= |b|
    requires Decode(EncodeFrom(b, i + 3)) == Some(b[i + 3..])
    ensures Decode(EncodeFrom(b, i)) == Some(b[i..])
  {
    var head := [b[i], b[i + 1], b[i + 2]];
    assert b[i..] == head + b[i + 3..];
    EncodeFromGroup(b, i);
    if |b| - i == 3 {
      DecodeLastGroup(b[i], b[i + 1], b[i + 2]);
      assert b[i + 3..] == [];
    } else {
      DecodeInnerGroup(b[i], b[i + 1], b[i + 2], EncodeFrom(b, i + 3), b[i + 3..]);
    }
  }

  lemma DecodeLastGroup(b0: U8, b1: U8, b2: U8)
    ensures Decode(Quad(b0, b1, b2) + "") == Some([b0, b1, b2] + [])
  {
    var q := Quad(b0, b1, b2);
    assert q + "" == q;
    QuadRoundTrip(b0, b1, b2, true);
    DecodeLastQuad(q);
  }

  lemma DecodeInnerGroup(b0: U8, b1: U8, b2: U8, rest: string, tail: seq<U8>)
    requires |rest| > 0 && Decode(rest) == Some(tail)
    ensures Decode(Quad(b0, b1, b2) + rest) == Some([b0, b1, b2] + tail)
  {
    var q := Quad(b0, b1, b2);
    var s := q + rest;
    assert s[..4] == q && s[4..] == rest;
    QuadRoundTrip(b0, b1, b2, false);
    DecodeStep(s, [b0, b1, b2], tail);
  }

  lemma {:induction false} DecodeEncodeFrom(b: seq<U8>, i: nat)
    requires i <= |b|
    ensures Decode(EncodeFrom(b, i)) == Some(b[i..])
    decreases |b| - i
  {
    if |b| == i {
      assert b[i..] == [];
    } else if |b| - i <= 2 {
      DecodeEncodeShort(b[i..]);
    } else {
      DecodeEncodeFrom(b, i + 3);
      DecodeEncodeGroup(b, i);
    }
  }

  /** Decoding what was encoded gives the bytes back. */
  lemma DecodeEncode(b: seq<U8>)
    ensures Decode(Encode(b)) == Some(b)
  {
    DecodeEncodeFrom(b, 0);
    assert b[0..] == b;
  }

  // ---- byte blobs as data URLs (RFC 2397 section 2) --------------------------------------

  const DATA_URL_PREFIX: string := "data:application/octet-stream;base64,"

  /** The text the log serialisers write for a byte blob: the prefix, then the encoding. */
  function DataUrl(b: seq<U8>): (r: string)
    ensures |r| >= |DATA_URL_PREFIX| && r[..|DATA_URL_PREFIX|] == DATA_URL_PREFIX
  {
    DATA_URL_PREFIX + Encode(b)
  }

  /** A data URL carries exactly the bytes it was written from. */
  lemma DataUrlRoundTrip(b: seq<U8>)
    ensures DataUrlBytes(DataUrl(b)) == Some(b)
  {
    var r := DataUrl(b);
    assert r[|DATA_URL_PREFIX|..] == Encode(b);
    DecodeEncode(b);
  }

  /** The bytes a data-URL text carries; `None` for any other text. */
  function DataUrlBytes(s: string): Option<seq<U8>>
  {
    if |s| >= |DATA_URL_PREFIX| && s[..|DATA_URL_PREFIX|] == DATA_URL_PREFIX
    then Decode(s[|DATA_URL_PREFIX|..])
    else None
  }

  // ---- the test vector the log serialisers share ----------------------------------------

  /** The bytes of "Hello, world!". */
  function HelloWorld(): (b: seq<U8>)
    ensures |b| == 13
  {
    [72, 101, 108, 108, 111, 44, 32, 119, 111, 114, 108, 100, 33]
  }

  lemma HelloWorldFrom12()
    ensures EncodeFrom(HelloWorld(), 12) == "IQ=="
  {
    assert HelloWorld()[12..] == [33];
  }

  lemma HelloWorldFrom9()
    ensures EncodeFrom(HelloWorld(), 9) == "cmxkIQ=="
  {
    HelloWorldFrom12();
    assert Quad(114, 108, 100) == "cmxk";
  }

  lemma HelloWorldFrom6()
    ensures EncodeFrom(HelloWorld(), 6) == "IHdvcmxkIQ=="
  {
    HelloWorldFrom9();
    assert Quad(32, 119, 111) == "IHdv";
  }

  lemma HelloWorldFrom3()
    ensures EncodeFrom(HelloWorld(), 3) == "bG8sIHdvcmxkIQ=="
  {
    HelloWorldFrom6();
    assert Quad(108, 111, 44) == "bG8s";
  }

  /** "Hello, world!" encodes to SGVsbG8sIHdvcmxkIQ== (two bytes short of a group: "=="). */
  lemma HelloWorldEncoding()
    ensures Encode(HelloWorld()) == "SGVsbG8sIHdvcmxkIQ=="
  {
    HelloWorldFrom3();
    assert Quad(72, 101, 108) == "SGVs";
  }

  lemma HelloWorldDataUrl()
    ensures DataUrl(HelloWorld()) == DATA_URL_PREFIX + "SGVsbG8sIHdvcmxkIQ=="
  {
    HelloWorldEncoding();
  }
}
