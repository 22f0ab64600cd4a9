/**
 * The `tracestate` list of W3C Trace Context, section 3.3: list members `key=value` joined
 * by ',', with the key and value grammar of section 3.3.1.3. The SDK's `TraceState` is the
 * list of members in order; `Header` is its rendering and `FromKeyValue` its validating
 * constructor, which refuses the whole list when one member is malformed.
 */
module TraceState {
  import opened Wrappers
  import opened Seqs

  type Member = (string, string)

  predicate IsLcAlpha(c: char) { 'a' <= c <= 'z' }
  predicate IsDigit(c: char) { '0' <= c <= '9' }

  /** Characters allowed after the first one of a key part: lcalpha, DIGIT, '_', '-', '*', '/'. */
  predicate KeyChar(c: char)
  {
    IsLcAlpha(c) || IsDigit(c) || c == '_' || c == '-' || c == '*' || c == '/'
  }

  predicate AllKeyChars(s: string)
  {
    forall i :: 0 <= i < |s| ==> KeyChar(s[i])
  }

  /** simple-key = lcalpha 0*255( lcalpha / DIGIT / "_" / "-"/ "*" / "/" ) */
  predicate SimpleKey(k: string)
  {
    1 <= |k| <= 256 && IsLcAlpha(k[0]) && AllKeyChars(k)
  }

  /** multi-tenant-key = tenant-id "@" system-id, a tenant of at most 241 and a system of at most 14 characters. */
  predicate MultiTenantKey(k: string)
  {
    exists i :: 1 <= i <= 241 && i < |k| && k[i] == '@' && 1 <= |k| - i - 1 <= 14
      && (IsLcAlpha(k[0]) || IsDigit(k[0])) && AllKeyChars(k[..i])
      && IsLcAlpha(k[i + 1]) && AllKeyChars(k[i + 1..])
  }

  predicate ValidKey(k: string)
  {
    SimpleKey(k) || MultiTenantKey(k)
  }

  /** value = 0*255(chr) nblk-chr: printable ASCII other than ',' and '=', not ending in a space. */
  predicate ValidValue(v: string)
  {
    1 <= |v| <= 256 && v[|v| - 1] != ' '
    && forall i :: 0 <= i < |v| ==> ' ' <= v[i] <= '~' && v[i] != ',' && v[i] != '='
  }

  predicate ValidMember(m: Member)
  {
    ValidKey(m.0) && ValidValue(m.1)
  }

  predicate Valid(ts: seq<Member>)
  {
    forall i :: 0 <= i < |ts| ==> ValidMember(ts[i])
  }

  /** A well-formed key or value never holds a list or member separator. */
  lemma ValidKeySeparators(k: string)
    requires ValidKey(k)
    ensures ',' !in k && '=' !in k && |k| >= 1
  {
    if !SimpleKey(k) {
      var i :| 1 <= i <= 241 && i < |k| && k[i] == '@' && 1 <= |k| - i - 1 <= 14
        && AllKeyChars(k[..i]) && AllKeyChars(k[i + 1..]);
      forall j | 0 <= j < |k|
        ensures k[j] != ',' && k[j] != '='
      {
        if j < i {
          assert k[j] == k[..i][j];
        } else if j > i {
          assert k[j] == k[i + 1..][j - i - 1];
        }
      }
    }
  }

  /** The `key=value` text of one member. */
  function MemberText(m: Member): string
  {
    m.0 + "=" + m.1
  }

  /** `TraceState::header`: the members' texts joined by ','; the empty list gives "". */
  function Header(ts: seq<Member>): (h: string)
    ensures |ts| == 0 ==> h == ""
  {
    Join(Map(ts, MemberText), ',')
  }

  /** Keeps, in order, the pieces that hold a '=' split at their first '=', and drops the rest. */
  function PairsOf(segments: seq<string>): (r: seq<Member>)
    ensures |r| <= |segments|
    ensures forall i :: 0 <= i < |r| ==> '=' !in r[i].0
  {
    if |segments| == 0 then []
    else
      match SplitOnce(segments[0], '=')
      case None => PairsOf(segments[1..])
      case Some(p) => [p] + PairsOf(segments[1..])
  }

  /**
   * What the header round trip needs of a member: no ',' in its key or value, and no '=' in
   * its key.
   */
  predicate SeparatorFreeMember(m: Member)
  {
    ',' !in m.0 && '=' !in m.0 && ',' !in m.1
  }

  predicate SeparatorFree(ts: seq<Member>)
  {
    forall i :: 0 <= i < |ts| ==> SeparatorFreeMember(ts[i])
  }

  /** Every well-formed list is separator free. */
  lemma ValidSeparatorFree(ts: seq<Member>)
    requires Valid(ts)
    ensures SeparatorFree(ts)
  {
    forall i | 0 <= i < |ts|
      ensures SeparatorFreeMember(ts[i])
    {
      ValidKeySeparators(ts[i].0);
    }
  }

  /**
   * `TraceState::from_key_value`, taken to accept exactly the lists whose members are well
   * formed, and to keep them unchanged; what it accepts can be rendered and read back.
   */
  function FromKeyValue(ts: seq<Member>): (r: Option<seq<Member>>)
    ensures r.Some? <==> Valid(ts)
    ensures r.Some? ==> r.value == ts && SeparatorFree(r.value)
  {
    if Valid(ts) then
      ValidSeparatorFree(ts);
      Some(ts)
    else None
  }

  /** Pieces that all hold a '=' are kept one for one. */
  lemma {:induction false} PairsOfAllKept(segments: seq<string>)
    requires forall i :: 0 <= i < |segments| ==> '=' in segments[i]
    ensures |PairsOf(segments)| == |segments|
    ensures forall i :: 0 <= i < |segments| ==> PairsOf(segments)[i] == SplitOnce(segments[i], '=').value
  {
    if |segments| > 0 {
      PairsOfAllKept(segments[1..]);
    }
  }

  /** A piece with no '=' contributes nothing wherever it stands. */
  lemma {:induction false} PairsOfDrops(before: seq<string>, s: string, after: seq<string>)
    requires '=' !in s
    ensures PairsOf(before + [s] + after) == PairsOf(before + after)
    decreases |before|
  {
    if |before| == 0 {
      assert before + [s] + after == [s] + after;
      assert before + after == after;
      assert ([s] + after)[1..] == after;
    } else {
      PairsOfDrops(before[1..], s, after);
      assert (before + [s] + after)[1..] == before[1..] + [s] + after;
      assert (before + after)[1..] == before[1..] + after;
    }
  }

  /** A member's `key=value` text holds no ',' and splits at its first '=' back into the member. */
  lemma MemberRoundTrip(m: Member)
    requires SeparatorFreeMember(m)
    ensures ',' !in MemberText(m)
    ensures SplitOnce(MemberText(m), '=') == Some(m)
  {
    IndexOfPrefix(m.0, '=', m.1);
    assert MemberText(m) == m.0 + ['='] + m.1;
    assert MemberText(m)[..|m.0|] == m.0;
    assert MemberText(m)[|m.0| + 1..] == m.1;
  }

  /** Reading back a header the SDK rendered gives its members, in order. */
  lemma HeaderRoundTrip(ts: seq<Member>)
    requires SeparatorFree(ts)
    ensures PairsOf(Split(Header(ts), ',')) == ts
  {
    if |ts| == 0 {
      assert Split("", ',') == [""];
    } else {
      var texts := Map(ts, MemberText);
      forall i | 0 <= i < |texts|
        ensures ',' !in texts[i] && '=' in texts[i] && SplitOnce(texts[i], '=') == Some(ts[i])
      {
        MemberRoundTrip(ts[i]);
      }
      SplitJoin(texts, ',');
      PairsOfAllKept(texts);
    }
  }
}
