/**
 * JSON text (RFC 8259): the value tree the serialisers build, the string escaping of the three
 * libraries involved (serde_json, Go encoding/json, JavaScript JSON.stringify) and the writer.
 */
module Json {
  import opened Wrappers
  import opened Numbers
  import opened Seqs
  import Hex

  datatype Json =
    | Null
    | Bool(b: bool)
    | Int(i: int)
    | Float(f: F64Bits)
    | Str(s: string)
    | Array(items: seq<Json>)
    | Object(members: seq<(string, Json)>)

  /**
   * `Standard` is what serde_json and JSON.stringify escape; `HtmlSafe` is Go's encoding/json,
   * which also escapes '<', '>', '&', U+2028 and U+2029.
   */
  datatype Escaping = Standard | HtmlSafe

  /** The text of a float is decided by the library's number formatter, outside this model. */
  type FloatFormatter = F64Bits -> string

  const BACKSPACE: char := '\U{8}'
  const FORM_FEED: char := '\U{C}'
  const LINE_SEPARATOR: char := '\U{2028}'
  const PARAGRAPH_SEPARATOR: char := '\U{2029}'

  /** Characters with a two-character escape of their own. */
  predicate HasShortEscape(c: char)
  {
    c == '"' || c == '\\' || c == BACKSPACE || c == FORM_FEED || c == '\n' || c == '\r' || c == '\t'
  }

  predicate NeedsUnicodeEscape(c: char, e: Escaping)
  {
    (c as int < 0x20 && !HasShortEscape(c))
    || (e == HtmlSafe && (c == '<' || c == '>' || c == '&' || c == LINE_SEPARATOR || c == PARAGRAPH_SEPARATOR))
  }

  function EscapeChar(c: char, e: Escaping): (r: string)
    ensures |r| >= 1
    ensures r[0] == '\\' || (|r| == 1 && r[0] == c && c != '"' && c as int >= 0x20)
  {
    if c == '"' then "\\\""
    else if c == '\\' then "\\\\"
    else if c == BACKSPACE then "\\b"
    else if c == FORM_FEED then "\\f"
    else if c == '\n' then "\\n"
    else if c == '\r' then "\\r"
    else if c == '\t' then "\\t"
    else if NeedsUnicodeEscape(c, e) then "\\u" + Hex.PaddedHex(c as int, 4)
    else [c]
  }

  function Escape(s: string, e: Escaping): string
  {
    if |s| == 0 then "" else EscapeChar(s[0], e) + Escape(s[1..], e)
  }

  /** A JSON string literal. */
  function Quote(s: string, e: Escaping): (r: string)
    ensures |r| >= 2 && r[0] == '"' && r[|r| - 1] == '"'
  {
    "\"" + Escape(s, e) + "\""
  }

  function NatDigits(n: nat): (r: string)
    ensures |r| >= 1
    decreases n
  {
    if n < 10 then [('0' as int + n) as char] else NatDigits(n / 10) + [('0' as int + n % 10) as char]
  }

  /** Decimal text of an integer, with a leading '-' when negative. */
  function Decimal(i: int): (r: string)
    ensures |r| >= 1
  {
    if i < 0 then "-" + NatDigits(-i) else NatDigits(i)
  }

  predicate AllDecimal(s: string)
  {
    forall k :: 0 <= k < |s| ==> '0' <= s[k] <= '9'
  }

  /** The value of a run of decimal digits, most significant first. */
  function DigitsValue(s: string): nat
    requires AllDecimal(s)
  {
    if |s| == 0 then 0 else DigitsValue(s[..|s| - 1]) * 10 + (s[|s| - 1] as int - '0' as int)
  }

  /** A JSON integer read back: an optional minus sign and then digits. */
  function ReadInteger(s: string): Option<int>
  {
    if |s| > 1 && s[0] == '-' && AllDecimal(s[1..]) then Some(-(DigitsValue(s[1..]) as int))
    else if |s| > 0 && AllDecimal(s) then Some(DigitsValue(s))
    else None
  }

  lemma {:induction false} NatDigitsValue(n: nat)
    ensures AllDecimal(NatDigits(n)) && DigitsValue(NatDigits(n)) == n
  {
    if n >= 10 {
      NatDigitsValue(n / 10);
      var s := NatDigits(n);
      assert s[..|s| - 1] == NatDigits(n / 10);
    }
  }

  /** The decimal text of an integer reads back as that integer. */
  lemma ReadDecimal(i: int)
    ensures ReadInteger(Decimal(i)) == Some(i)
  {
    if i < 0 {
      var digits := NatDigits(-i);
      NatDigitsValue(-i);
      assert Decimal(i) == "-" + digits;
      assert ("-" + digits)[1..] == digits;
    } else {
      var digits := NatDigits(i);
      NatDigitsValue(i);
      assert '0' <= digits[0] <= '9';
    }
  }

  /** The JSON text of a value: no whitespace, members in the order the tree lists them. */
  function Render(j: Json, e: Escaping, ft: FloatFormatter): (r: string)
    ensures |r| >= 1
  {
    match j
    case Null => "null"
    case Bool(b) => if b then "true" else "false"
    case Int(i) => Decimal(i)
    case Float(f) => if |ft(f)| == 0 then "0" else ft(f)
    case Str(s) => Quote(s, e)
    case Array(items) =>
      "[" + Join(seq(|items|, k requires 0 <= k < |items| => Render(items[k], e, ft)), ',') + "]"
    case Object(members) =>
      "{" + Join(seq(|members|, k requires 0 <= k < |members| =>
                   Quote(members[k].0, e) + ":" + Render(members[k].1, e, ft)), ',') + "}"
  }

  // ---- reading a string literal back ----------------------------------------------------

  /** The character an escape letter stands for (RFC 8259 section 7), other than `u`. */
  function ShortEscape(c: char): Option<char>
  {
    if c == '"' then Some('"')
    else if c == '\\' then Some('\\')
    else if c == '/' then Some('/')
    else if c == 'b' then Some(BACKSPACE)
    else if c == 'f' then Some(FORM_FEED)
    else if c == 'n' then Some('\n')
    else if c == 'r' then Some('\r')
    else if c == 't' then Some('\t')
    else None
  }

  /**
   * Decodes the body of a string literal. Surrogate-pair escapes are not decoded: the writers
   * above never produce them, since they write every non-control character as itself.
   */
  function Unescape(t: string): Option<string>
    decreases |t|
  {
    if |t| == 0 then Some("")
    else if t[0] == '\\' then
      if |t| < 2 then None
      else if t[1] == 'u' then
        if |t| < 6 then None
        else
          match Hex.ParseRadix16(t[2..6], 0x10000)
          case None => None
          case Some(v) =>
            if 0xD800 <= v < 0xE000 || t[2] == '+' then None
            else
              match Unescape(t[6..])
              case None => None
              case Some(rest) => Some([v as char] + rest)
      else
        match ShortEscape(t[1])
        case None => None
        case Some(c) =>
          match Unescape(t[2..])
          case None => None
          case Some(rest) => Some([c] + rest)
    else if t[0] == '"' || t[0] as int < 0x20 then None
    else
      match Unescape(t[1..])
      case None => None
      case Some(rest) => Some([t[0]] + rest)
  }

  /** Reads a whole string literal. */
  function Unquote(q: string): Option<string>
  {
    if |q| >= 2 && q[0] == '"' && q[|q| - 1] == '"' then Unescape(q[1..|q| - 1]) else None
  }

  function Prepend(c: char, r: Option<string>): Option<string>
  {
    match r case None => None case Some(t) => Some([c] + t)
  }

  lemma UnescapeUnicode(c: char, rest: string)
    requires c as int < 0x10000
    ensures Unescape("\\u" + Hex.PaddedHex(c as int, 4) + rest) == Prepend(c, Unescape(rest))
  {
    var t := "\\u" + Hex.PaddedHex(c as int, 4) + rest;
    var digits := Hex.PaddedHex(c as int, 4);
    Hex.LowerHexFits(c as int, 4);
    Hex.ParsePaddedHex(c as int, 4, 0x10000);
    assert t[2..6] == digits && t[6..] == rest;
    assert t[2] != '+' by {
      Hex.LowerHexDigits(c as int);
      if |Hex.LowerHex(c as int)| < 4 {
        assert t[2] == '0';
      } else {
        assert t[2] == Hex.LowerHex(c as int)[0];
      }
    }
  }

  lemma UnescapeShort(c: char, e: Escaping, rest: string)
    requires HasShortEscape(c)
    ensures Unescape(EscapeChar(c, e) + rest) == Prepend(c, Unescape(rest))
  {
    var t := EscapeChar(c, e) + rest;
    assert t[2..] == rest;
  }

  lemma UnescapePlain(c: char, rest: string)
    requires c != '"' && c != '\\' && c as int >= 0x20
    ensures Unescape([c] + rest) == Prepend(c, Unescape(rest))
  {
    assert ([c] + rest)[1..] == rest;
  }

  lemma UnescapeChar(c: char, e: Escaping, rest: string)
    ensures Unescape(EscapeChar(c, e) + rest) == Prepend(c, Unescape(rest))
  {
    if HasShortEscape(c) {
      UnescapeShort(c, e, rest);
    } else if NeedsUnicodeEscape(c, e) {
      UnescapeUnicode(c, rest);
    } else {
      UnescapePlain(c, rest);
    }
  }

  /** Escaping loses nothing: the body decodes back to the original text. */
  lemma {:induction false} UnescapeEscape(s: string, e: Escaping)
    ensures Unescape(Escape(s, e)) == Some(s)
  {
    if |s| > 0 {
      UnescapeChar(s[0], e, Escape(s[1..], e));
      UnescapeEscape(s[1..], e);
      assert s == [s[0]] + s[1..];
    }
  }

  /** A string literal reads back as the string it was written from. */
  lemma UnquoteQuote(s: string, e: Escaping)
    ensures Unquote(Quote(s, e)) == Some(s)
  {
    var q := Quote(s, e);
    assert q[1..|q| - 1] == Escape(s, e);
    UnescapeEscape(s, e);
  }
}
