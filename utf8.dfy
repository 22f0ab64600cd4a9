/** Well-formed UTF-8 byte strings, as defined by the syntax in section 4 of RFC 3629. */
module Utf8 {
  import opened Numbers

  predicate Continuation(x: U8)
  {
    0x80 <= x <= 0xBF
  }

  /** Length of the well-formed character starting at `b[i]`, or 0 when none starts there. */
  function CharWidth(b: seq<U8>, i: nat): (w: nat)
    requires i < |b|
    ensures w <= 4 && i + w <= |b|
    ensures w > 0 ==> forall k :: i < k < i + w ==> Continuation(b[k])
    ensures w > 1 ==> 0xC2 <= b[i] <= 0xF4
    ensures w == 1 <==> b[i] <= 0x7F
  {
    var b0 := b[i];
    if b0 <= 0x7F then 1
    else if 0xC2 <= b0 <= 0xDF then
      if i + 1 < |b| && Continuation(b[i + 1]) then 2 else 0
    else if 0xE0 <= b0 <= 0xEF then
      var lo := if b0 == 0xE0 then 0xA0 else 0x80;
      var hi := if b0 == 0xED then 0x9F else 0xBF;
      if i + 2 < |b| && lo <= b[i + 1] <= hi && Continuation(b[i + 2]) then 3 else 0
    else if 0xF0 <= b0 <= 0xF4 then
      var lo := if b0 == 0xF0 then 0x90 else 0x80;
      var hi := if b0 == 0xF4 then 0x8F else 0xBF;
      if i + 3 < |b| && lo <= b[i + 1] <= hi && Continuation(b[i + 2]) && Continuation(b[i + 3]) then 4
      else 0
    else 0
  }

  /** `b[i..]` is a sequence of well-formed characters. */
  predicate ValidFrom(b: seq<U8>, i: nat)
    requires i <= |b|
    decreases |b| - i
  {
    i == |b| || (CharWidth(b, i) > 0 && ValidFrom(b, i + CharWidth(b, i)))
  }

  /** Rust `String::from_utf8(bytes)` succeeds exactly on these byte strings. */
  predicate Valid(b: seq<U8>)
  {
    ValidFrom(b, 0)
  }

  /** Bytes that occur nowhere in well-formed UTF-8: 0xC0, 0xC1 and 0xF5 to 0xFF. */
  predicate NeverOccurs(x: U8)
  {
    x == 0xC0 || x == 0xC1 || x >= 0xF5
  }

  lemma {:induction false} NeverOccursFrom(b: seq<U8>, i: nat, j: nat)
    requires i <= j < |b| && NeverOccurs(b[j])
    ensures !ValidFrom(b, i)
    decreases |b| - i
  {
    var w := CharWidth(b, i);
    if w > 0 && j >= i + w {
      NeverOccursFrom(b, i + w, j);
    }
  }

  /** One byte that never occurs in UTF-8 makes the whole string ill-formed. */
  lemma NeverOccursInvalid(b: seq<U8>, j: nat)
    requires j < |b| && NeverOccurs(b[j])
    ensures !Valid(b)
  {
    NeverOccursFrom(b, 0, j);
  }

  lemma {:induction false} AsciiFrom(b: seq<U8>, i: nat)
    requires i <= |b|
    requires forall k :: i <= k < |b| ==> b[k] <= 0x7F
    ensures ValidFrom(b, i)
    decreases |b| - i
  {
    if i < |b| {
      AsciiFrom(b, i + 1);
    }
  }

  /** Seven-bit bytes are always well-formed. */
  lemma AsciiValid(b: seq<U8>)
    requires forall k :: 0 <= k < |b| ==> b[k] <= 0x7F
    ensures Valid(b)
  {
    AsciiFrom(b, 0);
  }
}
