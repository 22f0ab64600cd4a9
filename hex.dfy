/** Hexadecimal text of identifiers: Rust's `{:x}` and `{:0Nx}`, Rust `from_str_radix(_, 16)`, Go `encoding/hex`. */
module Hex {
  import opened Wrappers
  import opened Numbers

  function HexDigit(d: nat): (c: char)
    requires d < 16
    ensures DigitValue(c) == Some(d)
  {
    if d < 10 then ('0' as int + d) as char else ('a' as int + d - 10) as char
  }

  /** Value of one hexadecimal digit of either case. */
  function DigitValue(c: char): (r: Option<nat>)
    ensures r.Some? ==> r.value < 16
  {
    if '0' <= c <= '9' then Some(c as int - '0' as int)
    else if 'a' <= c <= 'f' then Some(c as int - 'a' as int + 10)
    else if 'A' <= c <= 'F' then Some(c as int - 'A' as int + 10)
    else None
  }

  predicate AllDigits(s: string)
  {
    forall i :: 0 <= i < |s| ==> DigitValue(s[i]).Some?
  }

  /** The number a string of hexadecimal digits denotes, most significant digit first. */
  function DigitsValue(s: string): nat
    requires AllDigits(s)
  {
    if |s| == 0 then 0 else DigitsValue(s[..|s| - 1]) * 16 + DigitValue(s[|s| - 1]).value
  }

  function Pow16(n: nat): (r: nat)
    ensures r >= 1
  {
    if n == 0 then 1 else 16 * Pow16(n - 1)
  }

  /** Lower-case hexadecimal with no leading zeros; zero is "0" (Rust `format!("{:x}", n)`). */
  function LowerHex(n: nat): (r: string)
    ensures 1 <= |r|
    decreases n
  {
    if n < 16 then [HexDigit(n)] else LowerHex(n / 16) + [HexDigit(n % 16)]
  }

  /** Every character of LowerHex is a digit, and a longer-than-one text does not start with '0'. */
  lemma {:induction false} LowerHexDigits(n: nat)
    ensures AllDigits(LowerHex(n))
    ensures |LowerHex(n)| > 1 ==> LowerHex(n)[0] != '0'
    decreases n
  {
    if n >= 16 {
      LowerHexDigits(n / 16);
      var s := LowerHex(n);
      assert s == LowerHex(n / 16) + [HexDigit(n % 16)];
      assert s[0] == LowerHex(n / 16)[0];
      if |LowerHex(n / 16)| == 1 {
        assert n / 16 >= 1;
        assert LowerHex(n / 16) == [HexDigit(n / 16)];
      }
    }
  }

  function Zeros(n: nat): (r: string)
    ensures |r| == n
  {
    seq(n, _ => '0')
  }

  /** Lower-case hexadecimal left-padded with zeros to `width` (Rust `format!("{:016x}", n)`). */
  function PaddedHex(n: nat, width: nat): (r: string)
    ensures |r| >= width
  {
    var digits := LowerHex(n);
    if |digits| >= width then digits else Zeros(width - |digits|) + digits
  }

  /**
   * Rust `u128::from_str_radix(s, 16)` / `u64::from_str_radix(s, 16)`: an optional leading '+',
   * then at least one digit of either case; `None` on anything else or when the value does not
   * fit below `bound`.
   */
  function ParseRadix16(s: string, bound: nat): (r: Option<nat>)
    ensures r.Some? ==> r.value < bound
  {
    var body := if |s| > 0 && s[0] == '+' then s[1..] else s;
    if |body| == 0 || !AllDigits(body) then None
    else if DigitsValue(body) < bound then Some(DigitsValue(body))
    else None
  }

  /** The widths of W3C trace and span ids: 32 and 16 digits hold exactly 128 and 64 bits. */
  lemma Pow16Widths()
    ensures Pow16(16) == TWO_64 && Pow16(32) == TWO_128
  {
    assert Pow16(8) == 0x1_0000_0000;
    assert Pow16(16) == Pow16(8) * Pow16(8) by { Pow16Add(8, 8); }
    assert Pow16(32) == Pow16(16) * Pow16(16) by { Pow16Add(16, 16); }
  }

  lemma {:induction false} Pow16Add(a: nat, b: nat)
    ensures Pow16(a + b) == Pow16(a) * Pow16(b)
    decreases a
  {
    if a > 0 {
      Pow16Add(a - 1, b);
    }
  }

  /** Appending a byte to a non-zero number appends its two digits to the hexadecimal text. */
  lemma AppendByte(q: nat, b: nat, s: string)
    requires q >= 1 && b < 256 && LowerHex(q) == s
    ensures LowerHex(256 * q + b) == s + [HexDigit(b / 16), HexDigit(b % 16)]
  {
    var m := 16 * q + b / 16;
    DivModUnique(m, q, b / 16, 16);
    assert LowerHex(m) == s + [HexDigit(b / 16)];
    DivModUnique(256 * q + b, m, b % 16, 16);
  }

  lemma {:induction false} DigitsValueLowerHex(n: nat)
    ensures AllDigits(LowerHex(n))
    ensures DigitsValue(LowerHex(n)) == n
    decreases n
  {
    LowerHexDigits(n);
    if n >= 16 {
      var s := LowerHex(n);
      assert s[..|s| - 1] == LowerHex(n / 16);
      DigitsValueLowerHex(n / 16);
    }
  }

  lemma {:induction false} DigitsValueZeros(z: nat, s: string)
    requires AllDigits(s)
    ensures AllDigits(Zeros(z) + s)
    ensures DigitsValue(Zeros(z) + s) == DigitsValue(s)
    decreases |s|
  {
    var t := Zeros(z) + s;
    assert AllDigits(t) by {
      forall i | 0 <= i < |t| ensures DigitValue(t[i]).Some? {
        if i < z { assert t[i] == '0'; } else { assert t[i] == s[i - z]; }
      }
    }
    if |s| == 0 {
      assert t == Zeros(z);
      ZerosValue(z);
    } else {
      assert t[..|t| - 1] == Zeros(z) + s[..|s| - 1];
      DigitsValueZeros(z, s[..|s| - 1]);
    }
  }

  lemma {:induction false} ZerosValue(z: nat)
    ensures AllDigits(Zeros(z)) && DigitsValue(Zeros(z)) == 0
  {
    if z > 0 {
      assert Zeros(z)[..z - 1] == Zeros(z - 1);
      ZerosValue(z - 1);
    }
  }

  /** Unpadded text parses back to the identifier it was printed from. */
  lemma ParseLowerHex(n: nat, bound: nat)
    requires n < bound
    ensures ParseRadix16(LowerHex(n), bound) == Some(n)
  {
    var s := LowerHex(n);
    DigitsValueLowerHex(n);
    assert s[0] != '+' by {
      assert DigitValue(s[0]).Some?;
    }
    assert |s| > 0 && AllDigits(s) && DigitsValue(s) == n;
  }

  /** Padded text parses back as well: leading zeros do not change the value. */
  lemma ParsePaddedHex(n: nat, width: nat, bound: nat)
    requires n < bound
    ensures ParseRadix16(PaddedHex(n, width), bound) == Some(n)
  {
    var digits := LowerHex(n);
    DigitsValueLowerHex(n);
    if |digits| < width {
      DigitsValueZeros(width - |digits|, digits);
    }
  }

  /** Values below 16^w print in at most w digits, so padding to w gives exactly w digits. */
  lemma {:induction false} LowerHexFits(n: nat, w: nat)
    requires 1 <= w && n < Pow16(w)
    ensures |LowerHex(n)| <= w
    ensures |PaddedHex(n, w)| == w
    decreases w
  {
    if n >= 16 {
      assert w > 1;
      assert n / 16 < Pow16(w - 1);
      LowerHexFits(n / 16, w - 1);
    }
  }

  // ---- Go encoding/hex on byte strings --------------------------------------------------

  /** Go `hex.EncodeToString`: two lower-case digits per byte, high nibble first. */
  function EncodeBytes(b: seq<U8>): (r: string)
    ensures |r| == 2 * |b|
    ensures AllDigits(r)
  {
    if |b| == 0 then "" else [HexDigit(b[0] / 16), HexDigit(b[0] % 16)] + EncodeBytes(b[1..])
  }

  /** Go `hex.DecodeString`: digits of either case in pairs; `None` on odd length or a non-digit. */
  function DecodeBytes(s: string): (r: Option<seq<U8>>)
    ensures r.Some? ==> 2 * |r.value| == |s|
    decreases |s|
  {
    if |s| == 0 then Some([])
    else if |s| == 1 then None
    else
      match (DigitValue(s[0]), DigitValue(s[1]))
      case (Some(hi), Some(lo)) =>
        (match DecodeBytes(s[2..])
         case Some(rest) => Some([hi * 16 + lo] + rest)
         case None => None)
      case _ => None
  }

  lemma DecodeStep(s: string, hi: nat, lo: nat)
    requires |s| >= 2 && DigitValue(s[0]) == Some(hi) && DigitValue(s[1]) == Some(lo)
    ensures DecodeBytes(s) == (match DecodeBytes(s[2..])
                               case Some(rest) => Some([hi * 16 + lo] + rest)
                               case None => None)
  {
  }

  lemma {:induction false} DecodeEncodeBytes(b: seq<U8>)
    ensures DecodeBytes(EncodeBytes(b)) == Some(b)
  {
    if |b| > 0 {
      var s := EncodeBytes(b);
      var hi, lo := b[0] / 16, b[0] % 16;
      assert s[2..] == EncodeBytes(b[1..]);
      DecodeEncodeBytes(b[1..]);
      DecodeStep(s, hi, lo);
      assert b == [hi * 16 + lo] + b[1..];
    }
  }

  /** The characters a byte string spells, byte by byte. */
  function AsText(b: seq<U8>): (s: string)
    ensures |s| == |b|
  {
    seq(|b|, i requires 0 <= i < |b| => b[i] as char)
  }

  lemma DigitIsAscii(c: char)
    requires DigitValue(c).Some?
    ensures c as int < 0x80
  {
  }

  /** The bytes of `EncodeBytes`' text: ASCII digits, two per byte, that decode back to the bytes. */
  function EncodeBytesAscii(b: seq<U8>): (r: seq<U8>)
    ensures |r| == 2 * |b|
    ensures forall i :: 0 <= i < |r| ==> r[i] < 0x80
    ensures AsText(r) == EncodeBytes(b)
    ensures DecodeBytes(AsText(r)) == Some(b)
  {
    var t := EncodeBytes(b);
    forall i | 0 <= i < |t| ensures t[i] as int < 0x80 {
      DigitIsAscii(t[i]);
    }
    var r: seq<U8> := seq(|t|, i requires 0 <= i < |t| => t[i] as int);
    assert AsText(r) == t;
    DecodeEncodeBytes(b);
    r
  }

}
