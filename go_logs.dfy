/**
 * Log conversion of the Go guest for the `0.2.0-draft` world (go/logs/conversions.go): an SDK
 * record becomes the all-optional boundary record, and every `log.Value` (body and attribute
 * values) travels as the JSON text `OtelLogValueToJson` writes with `encoding/json`.
 *
 * The slice and map arms write each item, read its text back into an `any` and marshal the
 * collection of those. Reading back keeps strings, booleans and (finite) floats as they were,
 * since Go writes the shortest text that reads back as the same float64, and sorts object
 * members, which are already sorted; but every number becomes a float64, so a nested integer
 * is rounded to the binary64 grid.
 */
module GoLogs {
  import opened Wrappers
  import opened Numbers
  import Seqs
  import Hex
  import Base64
  import J = Json
  import Go = GoSdk
  import GoTypes
  import W = Schema

  /** `json.Marshal` refuses a NaN or an infinity, and the serialiser panics with the error. */
  const UNSUPPORTED_VALUE: string := "json: unsupported value"

  // ---- the order `json.Marshal` writes map keys in -------------------------------------------

  /**
   * `strings.Compare(a, b) < 0`: byte order of the UTF-8 encodings, which is the order of the
   * code points; a proper prefix comes first.
   */
  predicate Below(a: string, b: string)
    decreases |a|
  {
    |b| > 0 && (|a| == 0 || a[0] < b[0] || (a[0] == b[0] && Below(a[1..], b[1..])))
  }

  lemma {:induction false} BelowIrreflexive(a: string)
    ensures !Below(a, a)
    decreases |a|
  {
    if |a| > 0 {
      BelowIrreflexive(a[1..]);
    }
  }

  lemma {:induction false} BelowTotal(a: string, b: string)
    requires a != b
    ensures Below(a, b) || Below(b, a)
    decreases |a|
  {
    if |a| > 0 && |b| > 0 && a[0] == b[0] {
      assert a == [a[0]] + a[1..] && b == [b[0]] + b[1..];
      BelowTotal(a[1..], b[1..]);
    }
  }

  lemma {:induction false} BelowTransitive(a: string, b: string, c: string)
    requires Below(a, b) && Below(b, c)
    ensures Below(a, c)
    decreases |a|
  {
    if |a| > 0 && a[0] == b[0] && b[0] == c[0] {
      BelowTransitive(a[1..], b[1..], c[1..]);
    }
  }

  predicate StrictlySorted(ks: seq<string>)
  {
    forall i, j :: 0 <= i < j < |ks| ==> Below(ks[i], ks[j])
  }

  predicate IsMinimum(k: string, s: set<string>)
  {
    k in s && forall x :: x in s ==> x == k || Below(k, x)
  }

  lemma {:induction false} MinimumExists(s: set<string>)
    requires s != {}
    ensures exists k :: IsMinimum(k, s)
    decreases |s|
  {
    var y :| y in s;
    var rest := s - {y};
    if rest == {} {
      assert s == {y};
      assert IsMinimum(y, s);
    } else {
      MinimumExists(rest);
      var k :| IsMinimum(k, rest);
      if Below(y, k) {
        forall x | x in s && x != y
          ensures Below(y, x)
        {
          if x != k {
            BelowTransitive(y, k, x);
          }
        }
        assert IsMinimum(y, s);
      } else {
        BelowTotal(y, k);
        assert IsMinimum(k, s);
      }
    }
  }

  lemma MinimumUnique(s: set<string>)
    ensures forall a, b :: IsMinimum(a, s) && IsMinimum(b, s) ==> a == b
  {
    forall a, b | IsMinimum(a, s) && IsMinimum(b, s)
      ensures a == b
    {
      if a != b {
        BelowTransitive(a, b, a);
        BelowIrreflexive(a);
      }
    }
  }

  /** The members of a set of keys in the order `json.Marshal` sorts them: ascending, each once. */
  function SortedSet(s: set<string>): (r: seq<string>)
    ensures StrictlySorted(r)
    ensures forall x :: x in r <==> x in s
    ensures |r| == |s|
    decreases |s|
  {
    if s == {} then []
    else
      MinimumExists(s);
      MinimumUnique(s);
      var k :| IsMinimum(k, s);
      var rest := SortedSet(s - {k});
      assert forall j :: 0 <= j < |rest| ==> rest[j] in s - {k};
      [k] + rest
  }

  /** `json.Marshal` of a `map[string]any`: one member per key, keys ascending. */
  function MapMembers(m: map<string, J.Json>): (r: seq<(string, J.Json)>)
    ensures |r| == |m.Keys|
    ensures forall i :: 0 <= i < |r| ==> r[i].0 in m && r[i].1 == m[r[i].0]
    ensures StrictlySorted(seq(|r|, i requires 0 <= i < |r| => r[i].0))
    ensures forall key :: key in m ==> exists i :: 0 <= i < |r| && r[i].0 == key
  {
    var ks := SortedSet(m.Keys);
    var r := seq(|ks|, i requires 0 <= i < |ks| => (ks[i], m[ks[i]]));
    assert seq(|r|, i requires 0 <= i < |r| => r[i].0) == ks;
    forall key | key in m
      ensures exists i :: 0 <= i < |r| && r[i].0 == key
    {
      var i :| 0 <= i < |ks| && ks[i] == key;
      assert r[i].0 == key;
    }
    r
  }

  // ---- the serialiser ------------------------------------------------------------------------

  /** Values `json.Marshal` accepts at every level: no NaN and no infinity. */
  predicate Marshalable(v: Go.LogValue)
    decreases v
  {
    match v
    case Float64(f) => !NonFinite(f)
    case Slice(items) => forall k :: 0 <= k < |items| ==> Marshalable(items[k])
    case Map(pairs) => forall k :: 0 <= k < |pairs| ==> Marshalable(pairs[k].1)
    case _ => true
  }

  /**
   * How an item's JSON text is read back: `IntoAny` is `json.Unmarshal` into an `any`, which
   * makes every number a float64; `Exact` keeps integers as written (a `json.RawMessage` or a
   * decoder with `UseNumber`).
   */
  datatype Reading = IntoAny | Exact

  /**
   * The tree of a value written as an item of a slice or a map and read back. The empty kind
   * is the empty string, a byte blob its data URL; a slice keeps its order; a map keeps the
   * last value given for each key, members sorted by key.
   */
  function ReadBack(v: Go.LogValue, reading: Reading): (r: J.Json)
    ensures v.Int64? ==> r == (if reading == IntoAny then J.Float(IntegerBits(v.i)) else J.Int(v.i))
    decreases v
  {
    match v
    case Empty => J.Str("")
    case Bool(b) => J.Bool(b)
    case Float64(f) => J.Float(f)
    case Int64(i) => if reading == IntoAny then J.Float(IntegerBits(i)) else J.Int(i)
    case String(s) => J.Str(s)
    case Bytes(b) => J.Str(Base64.DataUrl(b))
    case Slice(items) => J.Array(seq(|items|, k requires 0 <= k < |items| => ReadBack(items[k], reading)))
    case Map(pairs) =>
      J.Object(MapMembers(Seqs.LastWins(seq(|pairs|, k requires 0 <= k < |pairs| => (pairs[k].0, ReadBack(pairs[k].1, reading))))))
  }

  /** An item written and read back; the first item holding a NaN or an infinity panics. */
  function Nested(v: Go.LogValue, reading: Reading): (r: Outcome<J.Json>)
    ensures r.Ok? <==> Marshalable(v)
    ensures r.Abort? ==> r.reason == UNSUPPORTED_VALUE
    ensures r.Ok? ==> r.value == ReadBack(v, reading)
  {
    if Marshalable(v) then Ok(ReadBack(v, reading)) else Abort(UNSUPPORTED_VALUE)
  }

  /** The members a map value's items are read back into, in the map's order. */
  function ReadBackPairs(pairs: seq<(string, Go.LogValue)>, reading: Reading): (r: seq<(string, J.Json)>)
    ensures |r| == |pairs| && forall k :: 0 <= k < |pairs| ==> r[k] == (pairs[k].0, ReadBack(pairs[k].1, reading))
  {
    seq(|pairs|, k requires 0 <= k < |pairs| => (pairs[k].0, ReadBack(pairs[k].1, reading)))
  }

  /**
   * The tree `OtelLogValueToJson` marshals: a top-level integer is written as it is; every
   * other kind is what its items read back into.
   */
  function Tree(v: Go.LogValue): (r: Outcome<J.Json>)
    ensures r.Ok? <==> Marshalable(v)
    ensures r.Abort? ==> r.reason == UNSUPPORTED_VALUE
    ensures v.Int64? ==> r == Ok(J.Int(v.i))
    ensures v.Empty? ==> r == Ok(J.Str(""))
    ensures v.Bytes? ==> r == Ok(J.Str(Base64.DataUrl(v.bytes)))
    ensures v.String? ==> r == Ok(J.Str(v.s))
  {
    if v.Int64? then Ok(J.Int(v.i)) else Nested(v, IntoAny)
  }

  /**
   * `OtelLogValueToJson`: the scalar arms marshal the value itself; the slice and map arms
   * collect their items' read-back values first.
   */
  method MarshalTree(v: Go.LogValue) returns (r: Outcome<J.Json>)
    ensures r == Tree(v)
  {
    match v {
      case Slice(items) => r := MarshalSlice(items);
      case Map(pairs) => r := MarshalMap(pairs);
      case _ => r := Tree(v);
    }
  }

  /** The slice arm: each item's read-back value stored at its index. */
  method MarshalSlice(items: seq<Go.LogValue>) returns (r: Outcome<J.Json>)
    ensures r == Tree(Go.LogValue.Slice(items))
  {
    var result: seq<J.Json> := [];
    for i := 0 to |items|
      invariant |result| == i
      invariant forall k :: 0 <= k < i ==> Marshalable(items[k]) && result[k] == ReadBack(items[k], IntoAny)
    {
      var temp := Nested(items[i], IntoAny);
      if temp.Abort? {
        return Abort(temp.reason);
      }
      result := result + [temp.value];
    }
    assert Marshalable(Go.LogValue.Slice(items));
    assert result == ReadBack(Go.LogValue.Slice(items), IntoAny).items;
    r := Ok(J.Array(result));
  }

  /** The map arm: the items assigned to their keys, then the map marshalled. */
  method MarshalMap(pairs: seq<(string, Go.LogValue)>) returns (r: Outcome<J.Json>)
    ensures r == Tree(Go.LogValue.Map(pairs))
  {
    var result := AssignItems(pairs);
    if result.Abort? {
      return Abort(result.reason);
    }
    r := Ok(J.Object(MapMembers(result.value)));
  }

  /** The map arm's loop: each item's read-back value assigned to its key, in the map's order. */
  method AssignItems(pairs: seq<(string, Go.LogValue)>) returns (r: Outcome<map<string, J.Json>>)
    ensures r.Ok? <==> Marshalable(Go.LogValue.Map(pairs))
    ensures r.Abort? ==> r.reason == UNSUPPORTED_VALUE
    ensures r.Ok? ==> r.value == Seqs.LastWins(ReadBackPairs(pairs, IntoAny))
  {
    var result: map<string, J.Json> := map[];
    for i := 0 to |pairs|
      invariant Marshalable(Go.LogValue.Map(pairs[..i]))
      invariant result == Seqs.LastWins(ReadBackPairs(pairs[..i], IntoAny))
    {
      var temp := Nested(pairs[i].1, IntoAny);
      if temp.Abort? {
        ItemUnmarshalable(pairs, i);
        return Abort(temp.reason);
      }
      MarshalablePrefix(pairs, i);
      ReadBackSnoc(pairs, i);
      result := result[pairs[i].0 := temp.value];
    }
    assert pairs[..|pairs|] == pairs;
    r := Ok(result);
  }

  /** One unmarshalable item makes the whole map unmarshalable. */
  lemma ItemUnmarshalable(pairs: seq<(string, Go.LogValue)>, i: nat)
    requires i < |pairs| && !Marshalable(pairs[i].1)
    ensures !Marshalable(Go.LogValue.Map(pairs))
  {
  }

  /** A marshalable prefix extended by a marshalable item stays marshalable. */
  lemma MarshalablePrefix(pairs: seq<(string, Go.LogValue)>, i: nat)
    requires i < |pairs| && Marshalable(Go.LogValue.Map(pairs[..i])) && Marshalable(pairs[i].1)
    ensures Marshalable(Go.LogValue.Map(pairs[..i + 1]))
  {
    assert forall k :: 0 <= k < i ==> pairs[..i][k] == pairs[k];
    assert forall k :: 0 <= k < i + 1 ==> pairs[..i + 1][k] == pairs[k];
  }

  /** Reading back one more pair extends the map by that pair's assignment. */
  lemma ReadBackSnoc(pairs: seq<(string, Go.LogValue)>, i: nat)
    requires i < |pairs|
    ensures Seqs.LastWins(ReadBackPairs(pairs[..i + 1], IntoAny))
         == Seqs.LastWins(ReadBackPairs(pairs[..i], IntoAny))[pairs[i].0 := ReadBack(pairs[i].1, IntoAny)]
  {
    var longer := ReadBackPairs(pairs[..i + 1], IntoAny);
    assert longer[..i] == ReadBackPairs(pairs[..i], IntoAny);
  }

  /** The text `OtelLogValueToJson` returns: the tree written with Go's HTML-safe escaping. */
  function ValueToJson(v: Go.LogValue, ft: J.FloatFormatter): (r: Outcome<string>)
    ensures r.Ok? <==> Marshalable(v)
    ensures r.Ok? ==> |r.value| >= 1
  {
    var tree :- Tree(v);
    Ok(J.Render(tree, J.HtmlSafe, ft))
  }

  // ---- what the texts read back as -----------------------------------------------------------

  /** A string is a JSON string literal that reads back as the string; the empty kind as the empty string. */
  lemma StringText(s: string, ft: J.FloatFormatter)
    ensures J.Unquote(ValueToJson(Go.LogValue.String(s), ft).value) == Some(s)
    ensures ValueToJson(Go.LogValue.Empty, ft) == Ok("\"\"")
  {
    J.UnquoteQuote(s, J.HtmlSafe);
    assert J.Escape("", J.HtmlSafe) == "";
    assert J.Quote("", J.HtmlSafe) == "\"\"";
  }

  /** A byte blob is a string literal holding its data URL, which carries exactly its bytes. */
  lemma BytesText(b: seq<U8>, ft: J.FloatFormatter)
    ensures J.Unquote(ValueToJson(Go.LogValue.Bytes(b), ft).value) == Some(Base64.DataUrl(b))
    ensures Base64.DataUrlBytes(Base64.DataUrl(b)) == Some(b)
  {
    J.UnquoteQuote(Base64.DataUrl(b), J.HtmlSafe);
    Base64.DataUrlRoundTrip(b);
  }

  /** Booleans and top-level integers are JSON literals and decimal numbers. */
  lemma ScalarTexts(b: bool, i: I64, ft: J.FloatFormatter)
    ensures ValueToJson(Go.LogValue.Bool(b), ft) == Ok(if b then "true" else "false")
    ensures ValueToJson(Go.LogValue.Int64(i), ft) == Ok(J.Decimal(i))
  {
  }

  /** A NaN or an infinity at any depth makes the serialiser panic. */
  lemma NonFinitePanics(f: F64Bits, prefix: seq<Go.LogValue>, ft: J.FloatFormatter)
    requires NonFinite(f)
    ensures ValueToJson(Go.LogValue.Float64(f), ft) == Abort(UNSUPPORTED_VALUE)
    ensures ValueToJson(Go.LogValue.Slice(prefix + [Go.LogValue.Float64(f)]), ft) == Abort(UNSUPPORTED_VALUE)
  {
    var items := prefix + [Go.LogValue.Float64(f)];
    assert !Marshalable(items[|prefix|]);
  }

  /**
   * A map is written as the members of the map its pairs build: one per distinct key, keys
   * ascending (`MapMembers`), each with the tree of the last value given for it.
   */
  lemma MapMembersOf(pairs: seq<(string, Go.LogValue)>, reading: Reading)
    requires Marshalable(Go.LogValue.Map(pairs))
    ensures Nested(Go.LogValue.Map(pairs), reading) == Ok(J.Object(MapMembers(Seqs.LastWins(ReadBackPairs(pairs, reading)))))
    ensures Seqs.LastWins(ReadBackPairs(pairs, reading)).Keys == set k | 0 <= k < |pairs| :: pairs[k].0
    ensures forall k :: 0 <= k < |pairs| && (forall j :: k < j < |pairs| ==> pairs[j].0 != pairs[k].0) ==>
      Seqs.LastWins(ReadBackPairs(pairs, reading))[pairs[k].0] == ReadBack(pairs[k].1, reading)
  {
    var read := ReadBackPairs(pairs, reading);
    assert (set k | 0 <= k < |read| :: read[k].0) == set k | 0 <= k < |pairs| :: pairs[k].0 by {
      forall k | 0 <= k < |pairs|
        ensures read[k].0 == pairs[k].0
      {
      }
    }
    forall k | 0 <= k < |pairs| && (forall j :: k < j < |pairs| ==> pairs[j].0 != pairs[k].0)
      ensures Seqs.LastWins(read)[pairs[k].0] == ReadBack(pairs[k].1, reading)
    {
      assert forall j :: k < j < |read| ==> read[j].0 != read[k].0;
    }
  }

  // ---- findings on the serialiser ------------------------------------------------------------

  /**
   * Reading an item back into an `any` rounds a nested integer to the binary64 grid: 2^53 + 1
   * inside a slice is written as 2^53, where at the top level it is written exactly.
   */
  lemma NestedIntegerRounds()
    ensures Tree(Go.LogValue.Slice([Go.LogValue.Int64(TWO_53 + 1)])) == Ok(J.Array([J.Float(IntegerBits(TWO_53 + 1))]))
    ensures IntegralValue(IntegerBits(TWO_53 + 1)) == TWO_53
    ensures Tree(Go.LogValue.Int64(TWO_53 + 1)) == Ok(J.Int(TWO_53 + 1))
  {
    var items := [Go.LogValue.Int64(TWO_53 + 1)];
    assert Marshalable(Go.LogValue.Slice(items));
    assert Tree(Go.LogValue.Slice(items)).value.items == [ReadBack(items[0], IntoAny)];
    assert UlpExp((TWO_53 + 1) / 2) == 0;
    assert RoundToF64(TWO_53 + 1) == TWO_53;
  }

  /** Up to 2^53 in magnitude a nested integer survives the float64 reading. */
  lemma SmallIntegersExact(i: I64)
    requires -TWO_53 <= i <= TWO_53
    ensures IntegralValue(IntegerBits(i)) == i
  {
  }

  /** The corrected serialiser: items read back with their integers kept. */
  function ExactTree(v: Go.LogValue): (r: Outcome<J.Json>)
    ensures r.Ok? <==> Marshalable(v)
    ensures v.Int64? ==> r == Ok(J.Int(v.i))
  {
    Nested(v, Exact)
  }

  /** With integers kept, a slice of integers is written with every one of them exact, at any magnitude. */
  lemma ExactIntegers(ns: seq<I64>)
    ensures ExactTree(Go.LogValue.Slice(Seqs.Map(ns, (i: I64) => Go.LogValue.Int64(i))))
         == Ok(J.Array(Seqs.Map(ns, (i: I64) => J.Int(i))))
  {
    var items := Seqs.Map(ns, (i: I64) => Go.LogValue.Int64(i));
    assert Marshalable(Go.LogValue.Slice(items));
    forall k | 0 <= k < |ns|
      ensures ReadBack(items[k], Exact) == J.Int(ns[k])
    {
    }
    assert ExactTree(Go.LogValue.Slice(items)).value.items == Seqs.Map(ns, (i: I64) => J.Int(i));
  }

  /**
   * The unit test expects a byte blob to read back as "{base64}:" and the payload; the
   * serialiser writes the data URL, so the test's expectation is never met.
   */
  function TestExpectedBytes(): (r: string)
    ensures |r| > 9 && r[..9] == "{base64}:"
  {
    "{base64}:SGVsbG8sIHdvcmxkIQ=="
  }

  lemma TestBytesDisagree(ft: J.FloatFormatter)
    ensures J.Unquote(ValueToJson(Go.LogValue.Bytes(Base64.HelloWorld()), ft).value)
         == Some(Base64.DATA_URL_PREFIX + "SGVsbG8sIHdvcmxkIQ==")
    ensures Base64.DATA_URL_PREFIX + "SGVsbG8sIHdvcmxkIQ==" != TestExpectedBytes()
  {
    BytesText(Base64.HelloWorld(), ft);
    Base64.HelloWorldDataUrl();
    assert (Base64.DATA_URL_PREFIX + "SGVsbG8sIHdvcmxkIQ==")[0] != TestExpectedBytes()[0];
  }

  // ---- the log record ------------------------------------------------------------------------

  /** One attribute: the key and the value's JSON text. */
  function KeyValueToWasi(kv: (string, Go.LogValue), ft: J.FloatFormatter): (r: Outcome<W.KeyValue<string>>)
    ensures r.Ok? <==> Marshalable(kv.1)
    ensures r.Ok? ==> r.value == W.KeyValue(kv.0, ValueToJson(kv.1, ft).value)
  {
    var text :- ValueToJson(kv.1, ft);
    Ok(W.KeyValue(kv.0, text))
  }

  predicate AttributesMarshalable(attrs: seq<(string, Go.LogValue)>)
  {
    forall i :: 0 <= i < |attrs| ==> Marshalable(attrs[i].1)
  }

  function AttributesOf(attrs: seq<(string, Go.LogValue)>, ft: J.FloatFormatter): (r: Outcome<seq<W.KeyValue<string>>>)
    ensures r.Ok? <==> AttributesMarshalable(attrs)
    ensures r.Ok? ==> |r.value| == |attrs| && forall i :: 0 <= i < |attrs| ==>
      r.value[i] == W.KeyValue(attrs[i].0, ValueToJson(attrs[i].1, ft).value)
  {
    Seqs.MapAll(attrs, kv => KeyValueToWasi(kv, ft))
  }

  /** The `WalkAttributes` callback: each attribute appended, in walk order. */
  method WalkAttributes(attrs: seq<(string, Go.LogValue)>, ft: J.FloatFormatter) returns (r: Outcome<seq<W.KeyValue<string>>>)
    ensures r.Ok? <==> AttributesMarshalable(attrs)
    ensures r.Ok? ==> r == AttributesOf(attrs, ft)
  {
    var attrList: seq<W.KeyValue<string>> := [];
    for i := 0 to |attrs|
      invariant |attrList| == i
      invariant forall k :: 0 <= k < i ==> Marshalable(attrs[k].1)
      invariant forall k :: 0 <= k < i ==> attrList[k] == W.KeyValue(attrs[k].0, ValueToJson(attrs[k].1, ft).value)
    {
      var text := ValueToJson(attrs[i].1, ft);
      if text.Abort? {
        return Abort(text.reason);
      }
      attrList := attrList + [W.KeyValue(attrs[i].0, text.value)];
    }
    assert attrList == AttributesOf(attrs, ft).value;
    r := Ok(attrList);
  }

  /** Everything the record conversion serialises or converts without a panic. */
  predicate RecordConvertible(rec: Go.Record)
  {
    AttributesMarshalable(rec.attributes)
    && (rec.resource.Some? ==> GoTypes.AllValid(rec.resource.value.attributes))
    && (rec.scope.name != "" ==> GoTypes.AllValid(rec.scope.attributes))
    && Marshalable(rec.body)
  }

  function OptionalTime(t: Go.Time): (r: Option<W.Datetime>)
    ensures r.None? <==> t.IsZero()
    ensures r.Some? ==> r.value == GoTypes.ToWasiTime(t)
  {
    if t.IsZero() then None else Some(GoTypes.ToWasiTime(t))
  }

  /** `TraceFlags.IsSampled`: the low bit. */
  predicate Sampled(flags: U8)
  {
    flags % 2 == 1
  }

  /**
   * `toWasiLogRecord`. The ids are `ToWasiOptStr` of their hex text, which is never empty, so
   * both are always present, also for the all-zero ids of a record without a span.
   */
  function LogRecordToWasi(rec: Go.Record, ft: J.FloatFormatter): (r: Outcome<W.LogRecord>)
    ensures r.Ok? <==> RecordConvertible(rec)
    ensures r.Ok? ==> r.value.timestamp == OptionalTime(rec.timestamp)
    ensures r.Ok? ==> r.value.observedTimestamp == OptionalTime(rec.observedTimestamp)
    ensures r.Ok? ==> r.value.traceId == Some(Hex.EncodeBytes(rec.traceId))
    ensures r.Ok? ==> r.value.spanId == Some(Hex.EncodeBytes(rec.spanId))
  {
    var attrs :-
      if |rec.attributes| == 0 then Ok(None)
      else var list :- AttributesOf(rec.attributes, ft); Ok(Some(list));
    var res :-
      match rec.resource
      case None => Ok(None)
      case Some(res) => var w :- GoTypes.ToWasiResource(res, ft); Ok(Some(w));
    var scope :-
      if rec.scope.name == "" then Ok(None)
      else var w :- GoTypes.ToWasiInstrumentationScope(rec.scope, ft); Ok(Some(w));
    var body :- ValueToJson(rec.body, ft);
    Ok(W.LogRecord(
      OptionalTime(rec.timestamp),
      OptionalTime(rec.observedTimestamp),
      GoTypes.ToWasiOptStr(rec.severityText),
      if rec.severity == Go.SEVERITY_UNDEFINED then None else Some(WrapU8(rec.severity)),
      GoTypes.ToWasiOptStr(body),
      attrs,
      GoTypes.ToWasiOptStr(rec.eventName),
      res,
      scope,
      GoTypes.ToWasiOptStr(Hex.EncodeBytes(rec.traceId)),
      GoTypes.ToWasiOptStr(Hex.EncodeBytes(rec.spanId)),
      if Sampled(rec.traceFlags) then Some(W.SAMPLED) else None))
  }

  /**
   * The severity is absent exactly when undefined, and otherwise its `uint8`; the severity
   * text and event name are absent exactly when empty; the body is always present.
   */
  lemma LogRecordHeader(rec: Go.Record, ft: J.FloatFormatter, r: W.LogRecord)
    requires LogRecordToWasi(rec, ft) == Ok(r)
    ensures r.severityNumber.None? <==> rec.severity == Go.SEVERITY_UNDEFINED
    ensures r.severityNumber.Some? ==> r.severityNumber.value == WrapU8(rec.severity)
    ensures 0 < rec.severity < TWO_8 ==> r.severityNumber == Some(rec.severity)
    ensures GoTypes.OrEmpty(r.severityText) == rec.severityText && (r.severityText.None? <==> rec.severityText == "")
    ensures GoTypes.OrEmpty(r.eventName) == rec.eventName && (r.eventName.None? <==> rec.eventName == "")
    ensures r.body == Some(ValueToJson(rec.body, ft).value)
  {
    var body := ValueToJson(rec.body, ft).value;
    assert r.severityText == GoTypes.ToWasiOptStr(rec.severityText);
    assert r.eventName == GoTypes.ToWasiOptStr(rec.eventName);
    assert r.severityNumber == if rec.severity == Go.SEVERITY_UNDEFINED then None else Some(WrapU8(rec.severity));
    assert r.body == GoTypes.ToWasiOptStr(body) && body != "";
    GoTypes.OptStrRoundTrip(rec.severityText);
    GoTypes.OptStrRoundTrip(rec.eventName);
  }

  /** Attributes are absent exactly when there are none, and otherwise all there, in walk order. */
  lemma LogRecordAttributes(rec: Go.Record, ft: J.FloatFormatter, r: W.LogRecord)
    requires LogRecordToWasi(rec, ft) == Ok(r)
    ensures r.attributes.None? <==> |rec.attributes| == 0
    ensures r.attributes.Some? ==> |r.attributes.value| == |rec.attributes|
    ensures r.attributes.Some? ==> forall i :: 0 <= i < |rec.attributes| ==>
      r.attributes.value[i] == W.KeyValue(rec.attributes[i].0, ValueToJson(rec.attributes[i].1, ft).value)
  {
  }

  /**
   * The resource is absent exactly when the record has none, the scope exactly when its name is
   * empty, and the flags are `sampled` exactly when the record is sampled.
   */
  lemma LogRecordContext(rec: Go.Record, ft: J.FloatFormatter, r: W.LogRecord)
    requires LogRecordToWasi(rec, ft) == Ok(r)
    ensures r.resource.None? <==> rec.resource.None?
    ensures r.resource.Some? ==> Ok(r.resource.value) == GoTypes.ToWasiResource(rec.resource.value, ft)
    ensures r.instrumentationScope.None? <==> rec.scope.name == ""
    ensures r.instrumentationScope.Some? ==> Ok(r.instrumentationScope.value) == GoTypes.ToWasiInstrumentationScope(rec.scope, ft)
    ensures r.traceFlags.Some? <==> Sampled(rec.traceFlags)
    ensures r.traceFlags.Some? ==> r.traceFlags.value == W.SAMPLED
  {
  }

  /** The zero time is absent; any other time is present with its epoch split. */
  lemma LogRecordTimes(rec: Go.Record, ft: J.FloatFormatter, r: W.LogRecord)
    requires LogRecordToWasi(rec, ft) == Ok(r)
    ensures r.timestamp.None? <==> rec.timestamp.IsZero()
    ensures r.observedTimestamp.None? <==> rec.observedTimestamp.IsZero()
    ensures r.timestamp.Some? && rec.timestamp.unix >= 0 ==> r.timestamp.value.seconds == rec.timestamp.unix
    ensures r.timestamp.Some? ==> r.timestamp.value.nanoseconds == rec.timestamp.nanosecond
  {
  }

  // ---- finding on the trace ids --------------------------------------------------------------

  /** A record outside any span carries all-zero ids, and they cross as present zero digits. */
  lemma ZeroIdsPresent(rec: Go.Record, ft: J.FloatFormatter)
    requires RecordConvertible(rec)
    requires rec.traceId == seq(16, _ => 0) && rec.spanId == seq(8, _ => 0)
    ensures LogRecordToWasi(rec, ft).value.traceId.Some? && LogRecordToWasi(rec, ft).value.spanId.Some?
    ensures |LogRecordToWasi(rec, ft).value.traceId.value| == 32
    ensures IdIfValid(rec.traceId).None? && IdIfValid(rec.spanId).None?
  {
  }

  /** `TraceID.IsValid`: not all zero. */
  predicate ValidId(id: seq<U8>)
  {
    exists i :: 0 <= i < |id| && id[i] != 0
  }

  /** An id as the optional trace and span id fields evidently intend: absent for the invalid all-zero id. */
  function IdIfValid(id: seq<U8>): (r: Option<string>)
    ensures r.Some? <==> ValidId(id)
    ensures r.Some? ==> Hex.DecodeBytes(r.value) == Some(id)
  {
    if ValidId(id) then
      Hex.DecodeEncodeBytes(id);
      Some(Hex.EncodeBytes(id))
    else None
  }
}
