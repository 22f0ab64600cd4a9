/** Sequence helpers: fallible mapping and the string splitting the sources use. */
module Seqs {
  import opened Wrappers

  /**
   * `iter().map(f).collect()` where `f` may abort: all elements convert, in order, or the
   * first element that aborts decides the abort.
   */
  function MapAll<A, B>(s: seq<A>, f: A -> Outcome<B>): (r: Outcome<seq<B>>)
    ensures r.Ok? <==> (forall i :: 0 <= i < |s| ==> f(s[i]).Ok?)
    ensures r.Ok? ==> |r.value| == |s| && forall i :: 0 <= i < |s| ==> r.value[i] == f(s[i]).value
    ensures r.Abort? ==>
      exists i :: 0 <= i < |s| && f(s[i]) == Abort(r.reason) && forall j :: 0 <= j < i ==> f(s[j]).Ok?
    decreases |s|
  {
    if |s| == 0 then Ok([])
    else
      match f(s[0])
      case Abort(m) => Abort(m)
      case Ok(b) =>
        match MapAll(s[1..], f)
        case Abort(m) =>
          assert forall j :: 1 <= j < |s| ==> s[j] == s[1..][j - 1];
          Abort(m)
        case Ok(rest) =>
          assert forall j :: 1 <= j < |s| ==> s[j] == s[1..][j - 1];
          Ok([b] + rest)
  }

  /** `iter().map(f).collect()` for a conversion that cannot fail. */
  function Map<A, B>(s: seq<A>, f: A -> B): (r: seq<B>)
    ensures |r| == |s| && forall i :: 0 <= i < |s| ==> r[i] == f(s[i])
  {
    seq(|s|, i requires 0 <= i < |s| => f(s[i]))
  }

  /** The map key-value pairs build when assigned in order: a later pair overwrites an earlier one. */
  function LastWins<K, V>(pairs: seq<(K, V)>): (m: map<K, V>)
    ensures m.Keys == set i | 0 <= i < |pairs| :: pairs[i].0
    ensures forall i :: 0 <= i < |pairs| && (forall j :: i < j < |pairs| ==> pairs[j].0 != pairs[i].0) ==>
      m[pairs[i].0] == pairs[i].1
    decreases |pairs|
  {
    if |pairs| == 0 then map[]
    else
      var init := pairs[..|pairs| - 1];
      var last := pairs[|pairs| - 1];
      var m := LastWins(init)[last.0 := last.1];
      assert forall i :: 0 <= i < |init| ==> init[i] == pairs[i];
      assert (set i | 0 <= i < |pairs| :: pairs[i].0) == (set i | 0 <= i < |init| :: init[i].0) + {last.0};
      m
  }

  /** First position of `c` in `s`. */
  function IndexOf(s: string, c: char): (r: Option<nat>)
    ensures r.Some? ==> r.value < |s| && s[r.value] == c && c !in s[..r.value]
    ensures r.None? ==> c !in s
  {
    if |s| == 0 then None
    else if s[0] == c then Some(0)
    else
      match IndexOf(s[1..], c)
      case None => None
      case Some(i) =>
        assert s[..i + 1] == [s[0]] + s[1..][..i];
        Some(i + 1)
  }

  /** Rust `str::split(c)`: the pieces between separators; the empty string gives one piece. */
  function Split(s: string, c: char): (r: seq<string>)
    ensures |r| >= 1
    ensures forall i :: 0 <= i < |r| ==> c !in r[i]
    decreases |s|
  {
    match IndexOf(s, c)
    case None => [s]
    case Some(i) => [s[..i]] + Split(s[i + 1..], c)
  }

  /** Rust `str::split_once(c)`: the text before and after the first `c`. */
  function SplitOnce(s: string, c: char): (r: Option<(string, string)>)
    ensures r.Some? <==> c in s
    ensures r.Some? ==> c !in r.value.0 && s == r.value.0 + [c] + r.value.1
  {
    match IndexOf(s, c)
    case None => None
    case Some(i) =>
      assert s == s[..i] + [c] + s[i + 1..];
      Some((s[..i], s[i + 1..]))
  }

  /** The pieces glued with one separator between neighbours. */
  function Join(parts: seq<string>, c: char): (r: string)
    ensures |parts| == 1 ==> r == parts[0]
  {
    if |parts| == 0 then ""
    else if |parts| == 1 then parts[0]
    else parts[0] + [c] + Join(parts[1..], c)
  }

  lemma IndexOfPrefix(p: string, c: char, rest: string)
    requires c !in p
    ensures IndexOf(p + [c] + rest, c) == Some(|p|)
  {
    var s := p + [c] + rest;
    assert s[|p|] == c;
    assert s[..|p|] == p;
  }

  lemma IndexOfAbsent(p: string, c: char)
    requires c !in p
    ensures IndexOf(p, c) == None
  {
  }

  /** Splitting a join on a separator that no piece contains gives the pieces back. */
  lemma {:induction false} SplitJoin(parts: seq<string>, c: char)
    requires |parts| >= 1
    requires forall i :: 0 <= i < |parts| ==> c !in parts[i]
    ensures Split(Join(parts, c), c) == parts
    decreases |parts|
  {
    if |parts| == 1 {
      IndexOfAbsent(parts[0], c);
    } else {
      var rest := Join(parts[1..], c);
      var s := parts[0] + [c] + rest;
      IndexOfPrefix(parts[0], c, rest);
      assert s[..|parts[0]|] == parts[0];
      assert s[|parts[0]| + 1..] == rest;
      SplitJoin(parts[1..], c);
      assert parts == [parts[0]] + parts[1..];
    }
  }
}
