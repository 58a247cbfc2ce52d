/** The pieces of Python's `str` behaviour the model relies on: `strip()`, substring search,
    replacement of a placeholder, `join`, `str(int)` / `int(str)` and the ordering `<`. */
module Text {
  import opened Wrappers

  // ---------------------------------------------------------------------------
  // Whitespace and strip()
  // ---------------------------------------------------------------------------

  /** The characters for which Python's `str.isspace()` holds. */
  predicate IsSpace(c: char)
  {
    c == ' ' || ('\t' <= c <= '\r') || ('\U{1C}' <= c <= '\U{1F}')
    || c == '\U{85}' || c == '\U{A0}' || c == '\U{1680}'
    || ('\U{2000}' <= c <= '\U{200A}') || c == '\U{2028}' || c == '\U{2029}'
    || c == '\U{202F}' || c == '\U{205F}' || c == '\U{3000}'
  }

  /** Everything before index `i` and from index `j` on is whitespace. */
  predicate SpaceOutside(s: string, i: int, j: int)
  {
    0 <= i <= j <= |s|
    && (forall k :: 0 <= k < i ==> IsSpace(s[k]))
    && (forall k :: j <= k < |s| ==> IsSpace(s[k]))
  }

  /** Neither the first nor the last character is whitespace. */
  predicate NoEdgeSpace(s: string)
  {
    s == [] || (!IsSpace(s[0]) && !IsSpace(s[|s| - 1]))
  }

  /** Python's `s.lstrip()`. */
  function TrimLeft(s: string): string
  {
    if s != [] && IsSpace(s[0]) then TrimLeft(s[1..]) else s
  }

  /** Python's `s.rstrip()`. */
  function TrimRight(s: string): string
  {
    if s != [] && IsSpace(s[|s| - 1]) then TrimRight(s[..|s| - 1]) else s
  }

  /** `lstrip()` cuts a run of whitespace off the front and stops at the first other character. */
  lemma {:induction false} TrimLeftCuts(s: string)
    ensures var r := TrimLeft(s);
      |r| <= |s| && r == s[|s| - |r|..]
      && (forall k :: 0 <= k < |s| - |r| ==> IsSpace(s[k]))
      && (r == [] || !IsSpace(r[0]))
    decreases |s|
  {
    if s != [] && IsSpace(s[0]) {
      var t := s[1..];
      TrimLeftCuts(t);
      assert forall k :: 1 <= k < |s| ==> s[k] == t[k - 1];
    }
  }

  /** `rstrip()` cuts a run of whitespace off the end and stops at the last other character. */
  lemma {:induction false} TrimRightCuts(s: string)
    ensures var r := TrimRight(s);
      |r| <= |s| && r == s[..|r|]
      && (forall k :: |r| <= k < |s| ==> IsSpace(s[k]))
      && (r == [] || !IsSpace(r[|r| - 1]))
    decreases |s|
  {
    if s != [] && IsSpace(s[|s| - 1]) {
      var t := s[..|s| - 1];
      TrimRightCuts(t);
      assert forall k :: 0 <= k < |t| ==> s[k] == t[k];
    }
  }

  /** Python's `s.strip()`. */
  function Strip(s: string): string
  {
    TrimRight(TrimLeft(s))
  }

  /** The result of `strip()` is a slice of `s` that neither starts nor ends with whitespace,
      and everything cut away on either side is whitespace. */
  lemma StripSpec(s: string)
    ensures NoEdgeSpace(Strip(s))
    ensures exists i, j :: SpaceOutside(s, i, j) && Strip(s) == s[i..j]
  {
    var t := TrimLeft(s);
    var r := TrimRight(t);
    TrimLeftCuts(s);
    var i := |s| - |t|;
    assert r == t[..|r|] && (forall k :: |r| <= k < |t| ==> IsSpace(t[k]))
           && (r == [] || (r[0] == t[0] && !IsSpace(r[|r| - 1]))) by {
      TrimRightCuts(t);
    }
    var j := i + |r|;
    assert r == s[i..j];
    forall k | j <= k < |s|
      ensures IsSpace(s[k])
    {
      assert s[k] == t[k - i];
    }
  }

  /** A text without whitespace at either end is its own `strip()`. */
  lemma StripNoEdgeSpace(s: string)
    requires NoEdgeSpace(s)
    ensures Strip(s) == s
  {
  }

  /** Taking a prefix no longer than the first part ignores the second. */
  lemma PrefixKept(a: string, b: string, k: nat)
    requires k <= |a|
    ensures (a + b)[..k] == a[..k]
  {
  }

  /** The middle part of a concatenation is the slice between the other two parts. */
  lemma SliceOfConcat(a: string, b: string, c: string)
    ensures (a + b + c)[|a|..|a| + |b|] == b
  {
  }

  // ---------------------------------------------------------------------------
  // Substring search
  // ---------------------------------------------------------------------------

  /** `pat` occurs in `s` starting at index `i`. */
  predicate OccursAt(s: string, pat: string, i: int)
  {
    0 <= i && i + |pat| <= |s| && s[i..i + |pat|] == pat
  }

  /** The characters of `pat` from index `k` on equal those of `s` from index `i + k` on,
      compared one at a time. */
  predicate MatchesFrom(s: string, pat: string, i: nat, k: nat)
    requires i + |pat| <= |s| && k <= |pat|
    decreases |pat| - k
  {
    k == |pat| || (s[i + k] == pat[k] && MatchesFrom(s, pat, i, k + 1))
  }

  lemma {:induction false} MatchesFromSlices(s: string, pat: string, i: nat, k: nat)
    requires i + |pat| <= |s| && k <= |pat|
    ensures MatchesFrom(s, pat, i, k) <==> s[i + k..i + |pat|] == pat[k..]
    decreases |pat| - k
  {
    if k < |pat| {
      MatchesFromSlices(s, pat, i, k + 1);
      var a, b := s[i + k..i + |pat|], pat[k..];
      assert a[0] == s[i + k] && b[0] == pat[k];
      assert a[1..] == s[i + k + 1..i + |pat|] && b[1..] == pat[k + 1..];
      if a[0] == b[0] && a[1..] == b[1..] {
        assert a == [a[0]] + a[1..] && b == [b[0]] + b[1..];
      }
    }
  }

  /** The character-by-character comparison decides `OccursAt`. */
  lemma OccursAtMatches(s: string, pat: string, i: nat)
    requires i + |pat| <= |s|
    ensures OccursAt(s, pat, i) <==> MatchesFrom(s, pat, i, 0)
  {
    MatchesFromSlices(s, pat, i, 0);
    assert pat[0..] == pat;
  }

  /** Python's `s.find(pat, from)`: the first occurrence of `pat` at or after `from`. */
  function FindFrom(s: string, pat: string, from: nat): (r: Option<nat>)
    requires from <= |s|
    ensures r.Some? ==> from <= r.value && r.value + |pat| <= |s|
    decreases |s| - from
  {
    if from + |pat| > |s| then None
    else if MatchesFrom(s, pat, from, 0) then Some(from)
    else FindFrom(s, pat, from + 1)
  }

  /** What `find` returns is an occurrence. */
  lemma {:induction false} FindFromFound(s: string, pat: string, from: nat)
    requires from <= |s|
    ensures FindFrom(s, pat, from).Some? ==> OccursAt(s, pat, FindFrom(s, pat, from).value)
    decreases |s| - from
  {
    if from + |pat| <= |s| {
      OccursAtMatches(s, pat, from);
      if !MatchesFrom(s, pat, from, 0) {
        FindFromFound(s, pat, from + 1);
      }
    }
  }

  /** `find` returns the first occurrence: none lies between `from` and the index it returns,
      and when it finds nothing there is no occurrence at or after `from`. */
  lemma {:induction false} FindFromFirst(s: string, pat: string, from: nat)
    requires from <= |s|
    ensures FindFrom(s, pat, from).Some? ==>
              forall k :: from <= k < FindFrom(s, pat, from).value ==> !OccursAt(s, pat, k)
    ensures FindFrom(s, pat, from).None? ==> forall k :: from <= k ==> !OccursAt(s, pat, k)
    decreases |s| - from
  {
    if from + |pat| <= |s| {
      OccursAtMatches(s, pat, from);
      if !MatchesFrom(s, pat, from, 0) {
        FindFromFirst(s, pat, from + 1);
      }
    }
  }

  /** An index `find` returns is an occurrence with none before it. */
  lemma FindFromSome(s: string, pat: string, from: nat, i: nat)
    requires from <= |s|
    requires FindFrom(s, pat, from) == Some(i)
    ensures from <= i && OccursAt(s, pat, i)
    ensures forall k :: from <= k < i ==> !OccursAt(s, pat, k)
  {
    FindFromFound(s, pat, from);
    FindFromFirst(s, pat, from);
  }

  /** When `find` finds nothing there is no occurrence at or after `from`. */
  lemma FindFromNone(s: string, pat: string, from: nat)
    requires from <= |s|
    requires FindFrom(s, pat, from).None?
    ensures forall k :: from <= k ==> !OccursAt(s, pat, k)
  {
    FindFromFirst(s, pat, from);
  }

  /** An occurrence at or after `from` means `find` finds one, no later than it. */
  lemma FindFromReaches(s: string, pat: string, from: nat, k: nat)
    requires from <= k && OccursAt(s, pat, k)
    ensures from <= |s|
    ensures FindFrom(s, pat, from).Some? && FindFrom(s, pat, from).value <= k
  {
    FindFromFirst(s, pat, from);
  }

  // ---------------------------------------------------------------------------
  // Placeholder replacement (the part of str.format the model uses)
  // ---------------------------------------------------------------------------

  /** Every occurrence of `pat` in `s`, scanned left to right without overlap, replaced by
      `v`; the inserted text is not scanned again. */
  function ReplaceAll(s: string, pat: string, v: string): (r: string)
    requires pat != []
    decreases |s|
  {
    if |s| < |pat| then s
    else if MatchesFrom(s, pat, 0, 0) then v + ReplaceAll(s[|pat|..], pat, v)
    else [s[0]] + ReplaceAll(s[1..], pat, v)
  }

  /** A text in which the placeholder does not occur is left unchanged. */
  lemma {:induction false} ReplaceAllAbsent(s: string, pat: string, v: string)
    requires pat != []
    requires forall k :: !OccursAt(s, pat, k)
    ensures ReplaceAll(s, pat, v) == s
    decreases |s|
  {
    if |s| >= |pat| {
      assert !MatchesFrom(s, pat, 0, 0) by {
        OccursAtMatches(s, pat, 0);
      }
      assert forall k :: OccursAt(s[1..], pat, k) ==> OccursAt(s, pat, k + 1);
      ReplaceAllAbsent(s[1..], pat, v);
    }
  }

  /** Text free of the placeholder's first character passes through unchanged. */
  lemma {:induction false} ReplaceAllSkipsPrefix(pre: string, rest: string, pat: string, v: string)
    requires pat != []
    requires forall k :: 0 <= k < |pre| ==> pre[k] != pat[0]
    ensures ReplaceAll(pre + rest, pat, v) == pre + ReplaceAll(rest, pat, v)
    decreases |pre|
  {
    if pre == [] {
      assert pre + rest == rest;
    } else {
      var s := pre + rest;
      var tail := pre[1..];
      assert s[0] == pre[0];
      assert s[1..] == tail + rest;
      assert forall k :: 0 <= k < |tail| ==> tail[k] == pre[k + 1];
      ReplaceAllSkipsPrefix(tail, rest, pat, v);
      if |s| < |pat| {
        assert ReplaceAll(s, pat, v) == s;
        assert ReplaceAll(rest, pat, v) == rest;
      } else {
        assert !MatchesFrom(s, pat, 0, 0);
        assert ReplaceAll(s, pat, v) == [pre[0]] + ReplaceAll(tail + rest, pat, v);
        assert pre == [pre[0]] + tail;
      }
    }
  }

  /** A template holding the placeholder once, with no other occurrence of its first
      character, gets the value substituted at that one place. */
  lemma ReplaceAllSingle(pre: string, post: string, pat: string, v: string)
    requires pat != []
    requires forall k :: 0 <= k < |pre| ==> pre[k] != pat[0]
    requires forall k :: 0 <= k < |post| ==> post[k] != pat[0]
    ensures ReplaceAll(pre + pat + post, pat, v) == pre + v + post
  {
    var t := pat + post;
    assert pre + pat + post == pre + t;
    ReplaceAllSkipsPrefix(pre, t, pat, v);
    assert MatchesFrom(t, pat, 0, 0) by {
      assert t[0..|pat|] == pat;
      OccursAtMatches(t, pat, 0);
    }
    assert t[|pat|..] == post;
    assert ReplaceAll(t, pat, v) == v + ReplaceAll(post, pat, v);
    forall k | 0 <= k && k + |pat| <= |post|
      ensures !OccursAt(post, pat, k)
    {
      assert post[k..k + |pat|][0] == post[k];
    }
    ReplaceAllAbsent(post, pat, v);
  }

  // ---------------------------------------------------------------------------
  // join
  // ---------------------------------------------------------------------------

  /** Python's `sep.join(parts)`. */
  function Join(parts: seq<string>, sep: string): string
  {
    if |parts| == 0 then ""
    else if |parts| == 1 then parts[0]
    else parts[0] + sep + Join(parts[1..], sep)
  }

  /** Joining a first part onto a non-empty rest puts one separator between them. */
  lemma JoinCons(first: string, rest: seq<string>, sep: string)
    requires rest != []
    ensures Join([first] + rest, sep) == first + sep + Join(rest, sep)
  {
    assert ([first] + rest)[1..] == rest;
  }

  // ---------------------------------------------------------------------------
  // str(int) and int(str)
  // ---------------------------------------------------------------------------

  predicate IsDigit(c: char)
  {
    '0' <= c <= '9'
  }

  predicate AllDigits(s: string)
  {
    forall i :: 0 <= i < |s| ==> IsDigit(s[i])
  }

  function DigitChar(d: nat): (c: char)
    requires d < 10
  {
    (48 + d) as char
  }

  /** Decimal digits of `n`, most significant first, without leading zeros. */
  function NatToString(n: nat): (r: string)
    ensures r != [] && AllDigits(r)
  {
    if n < 10 then [DigitChar(n)] else NatToString(n / 10) + [DigitChar(n % 10)]
  }

  /** Python's `str(n)` for an integer. */
  function IntToString(n: int): (r: string)
    ensures r != [] && NoEdgeSpace(r)
  {
    if n < 0 then "-" + NatToString(-n) else NatToString(n)
  }

  /** The value of a string of decimal digits (leading zeros allowed). */
  function DigitsValue(s: string): nat
    requires AllDigits(s)
  {
    if s == [] then 0 else DigitsValue(s[..|s| - 1]) * 10 + (s[|s| - 1] as int - 48)
  }

  /** Python's `int(s)` for a decimal string: surrounding whitespace is ignored, one optional
      sign, then at least one digit; anything else is a `ValueError` (here `None`). */
  function ParseInt(s: string): (r: Option<int>)
    ensures Strip(s) == [] ==> r.None?
  {
    var t := Strip(s);
    if t != [] && (t[0] == '-' || t[0] == '+') then
      var d := t[1..];
      if d != [] && AllDigits(d) then
        assert IsDigit(t[1]);
        var n: int := DigitsValue(d);
        Some(if t[0] == '-' then -n else n)
      else None
    else if t != [] && AllDigits(t) then
      assert IsDigit(t[0]);
      Some(DigitsValue(t))
    else None
  }

  /** `int(s)` succeeds only on a text holding at least one digit. */
  lemma ParseIntNeedsDigit(s: string)
    ensures ParseInt(s).Some? ==> exists k :: 0 <= k < |s| && IsDigit(s[k])
  {
    StripSpec(s);
    var t := Strip(s);
    if ParseInt(s).Some? {
      var i, j :| SpaceOutside(s, i, j) && t == s[i..j];
      var d := if t[0] == '-' || t[0] == '+' then 1 else 0;
      assert IsDigit(t[d]) && t[d] == s[i + d];
    }
  }

  lemma {:induction false} DigitsValueOfNatToString(n: nat)
    ensures DigitsValue(NatToString(n)) == n
  {
    if n >= 10 {
      var s := NatToString(n);
      assert s[..|s| - 1] == NatToString(n / 10);
      DigitsValueOfNatToString(n / 10);
    }
  }

  /** `int(str(n)) == n`: what `str` writes into a text field, `int` reads back. */
  lemma ParseIntOfIntToString(n: int)
    ensures ParseInt(IntToString(n)) == Some(n)
  {
    var s := IntToString(n);
    StripNoEdgeSpace(s);
    if n < 0 {
      assert s[1..] == NatToString(-n);
      DigitsValueOfNatToString(-n);
    } else {
      DigitsValueOfNatToString(n);
    }
  }

  // ---------------------------------------------------------------------------
  // String ordering
  // ---------------------------------------------------------------------------

  /** Python's `a < b` on strings: lexicographic by code point. */
  predicate Less(a: string, b: string)
  {
    if a == [] then b != []
    else if b == [] then false
    else if a[0] != b[0] then a[0] < b[0]
    else Less(a[1..], b[1..])
  }

  predicate LessEq(a: string, b: string)
  {
    a == b || Less(a, b)
  }

  lemma {:induction false} LessIrreflexive(a: string)
    ensures !Less(a, a)
  {
    if a != [] {
      LessIrreflexive(a[1..]);
    }
  }

  lemma {:induction false} LessTotal(a: string, b: string)
    ensures Less(a, b) || a == b || Less(b, a)
  {
    if a != [] && b != [] && a[0] == b[0] {
      LessTotal(a[1..], b[1..]);
      if a[1..] == b[1..] {
        assert a == [a[0]] + a[1..] && b == [b[0]] + b[1..];
      }
    }
  }

  lemma {:induction false} LessTransitive(a: string, b: string, c: string)
    requires Less(a, b) && Less(b, c)
    ensures Less(a, c)
  {
    if a != [] && a[0] == b[0] && b[0] == c[0] {
      LessTransitive(a[1..], b[1..], c[1..]);
    }
  }
}
