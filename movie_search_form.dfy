/** The search form: a submit trims the input and emits a search event
    carrying the trimmed text only when that text is non-empty. */
module MovieSearchForm {
  import opened Wrappers

  /** The code points `String.prototype.trim` removes: the WhiteSpace and
      LineTerminator productions of the ECMAScript language specification
      (tab, vertical tab, form feed, space, no-break space, byte-order mark,
      the other space separators, line feed, carriage return, and the line
      and paragraph separators). */
  const Whitespace: set<char> := {
    '\t', '\n', '\U{000B}', '\U{000C}', '\r', ' ', '\U{00A0}', '\U{1680}',
    '\U{2000}', '\U{2001}', '\U{2002}', '\U{2003}', '\U{2004}', '\U{2005}',
    '\U{2006}', '\U{2007}', '\U{2008}', '\U{2009}', '\U{200A}',
    '\U{2028}', '\U{2029}', '\U{202F}', '\U{205F}', '\U{3000}', '\U{FEFF}'
  }

  predicate IsWhitespace(c: char) {
    c in Whitespace
  }

  predicate AllWhitespace(s: string) {
    forall k :: 0 <= k < |s| ==> IsWhitespace(s[k])
  }

  /** Neither end of `s` is whitespace. */
  predicate Trimmed(s: string) {
    s == [] || (!IsWhitespace(s[0]) && !IsWhitespace(s[|s| - 1]))
  }

  /** `s` is `r` with whitespace-only padding on both sides. */
  ghost predicate PaddingOf(s: string, r: string) {
    exists i :: 0 <= i <= |s| - |r| && PaddedAt(s, r, i)
  }

  /** `r` occurs in `s` at offset `i` with only whitespace around it. */
  predicate PaddedAt(s: string, r: string, i: nat)
    requires i <= |s| - |r|
  {
    s[i..i + |r|] == r && WhitespaceOutside(s, i, i + |r|)
  }

  /** Every character of `s` before `lo` or from `hi` on is whitespace. */
  predicate WhitespaceOutside(s: string, lo: int, hi: int) {
    forall k :: 0 <= k < |s| && (k < lo || hi <= k) ==> IsWhitespace(s[k])
  }

  /** `s` without its leading whitespace. */
  function TrimStart(s: string): (r: string)
    ensures |r| <= |s| && r == s[|s| - |r|..]
    ensures WhitespaceOutside(s, |s| - |r|, |s|)
    ensures r == [] || !IsWhitespace(r[0])
  {
    if |s| > 0 && IsWhitespace(s[0]) then
      var r := TrimStart(s[1..]);
      assert forall k :: 1 <= k < |s| ==> s[k] == s[1..][k - 1];
      r
    else s
  }

  /** `s` without its trailing whitespace. */
  function TrimEnd(s: string): (r: string)
    ensures |r| <= |s| && r == s[..|r|]
    ensures WhitespaceOutside(s, 0, |r|)
    ensures r == [] || !IsWhitespace(r[|r| - 1])
  {
    if |s| > 0 && IsWhitespace(s[|s| - 1]) then
      var r := TrimEnd(s[..|s| - 1]);
      assert forall k :: 0 <= k < |s| - 1 ==> s[k] == s[..|s| - 1][k];
      r
    else s
  }

  /** `String.prototype.trim`: the input with whitespace removed from both ends. */
  function Trim(s: string): (r: string)
    ensures Trimmed(r)
    ensures PaddingOf(s, r)
    ensures r == [] <==> AllWhitespace(s)
  {
    TrimSplit(s);
    TrimEnd(TrimStart(s))
  }

  /** The facts behind `Trim`'s contract, from those of its two halves. */
  lemma TrimSplit(s: string)
    ensures var r := TrimEnd(TrimStart(s));
      Trimmed(r) && PaddingOf(s, r) && (r == [] <==> AllWhitespace(s))
  {
    var t := TrimStart(s);
    var r := TrimEnd(t);
    PaddingOfHalves(s, t, r);
  }

  /** Stripping a whitespace prefix and then a whitespace suffix leaves
      the string with whitespace padding around it. */
  lemma PaddingOfHalves(s: string, t: string, r: string)
    requires |t| <= |s| && t == s[|s| - |t|..] && WhitespaceOutside(s, |s| - |t|, |s|)
    requires |r| <= |t| && r == t[..|r|] && WhitespaceOutside(t, 0, |r|)
    requires r == [] || (!IsWhitespace(r[0]) && !IsWhitespace(r[|r| - 1]))
    ensures Trimmed(r) && PaddingOf(s, r) && (r == [] <==> AllWhitespace(s))
  {
    var i := |s| - |t|;
    assert s[i..i + |r|] == r by {
      assert t == s[i..] && r == t[..|r|];
    }
    forall k | 0 <= k < |s| && (k < i || i + |r| <= k)
      ensures IsWhitespace(s[k])
    {
      if k >= i + |r| {
        assert s[k] == t[k - i];
      }
    }
    assert PaddedAt(s, r, i);
    if r != [] {
      assert s[i] == r[0];
    }
  }

  /** Whitespace before a string that starts with a non-whitespace
      character is exactly what `TrimStart` removes. */
  lemma {:induction false} TrimStartPadded(a: string, t: string)
    requires AllWhitespace(a)
    requires t == [] || !IsWhitespace(t[0])
    ensures TrimStart(a + t) == t
  {
    if a != [] {
      assert (a + t)[1..] == a[1..] + t;
      TrimStartPadded(a[1..], t);
    } else {
      assert a + t == t;
    }
  }

  /** Whitespace after a string that ends with a non-whitespace
      character is exactly what `TrimEnd` removes. */
  lemma {:induction false} TrimEndPadded(t: string, b: string)
    requires AllWhitespace(b)
    requires t == [] || !IsWhitespace(t[|t| - 1])
    ensures TrimEnd(t + b) == t
  {
    if b != [] {
      assert (t + b)[..|t + b| - 1] == t + b[..|b| - 1];
      TrimEndPadded(t, b[..|b| - 1]);
    } else {
      assert t + b == t;
    }
  }

  /** `Trim` is determined by its contract: any split of a string into
      whitespace, a core with no whitespace at either end, and whitespace,
      has that core as its trim. */
  lemma TrimOfPadded(a: string, m: string, b: string)
    requires AllWhitespace(a) && AllWhitespace(b) && Trimmed(m)
    ensures Trim(a + m + b) == m
  {
    if m == [] {
      assert a + m + b == a + b;
      assert AllWhitespace(a + b) by {
        forall k | 0 <= k < |a + b| ensures IsWhitespace((a + b)[k]) {
          if k >= |a| { assert (a + b)[k] == b[k - |a|]; }
        }
      }
    } else {
      assert a + m + b == a + (m + b);
      TrimStartPadded(a, m + b);
      TrimEndPadded(m, b);
    }
  }

  /** A string with no whitespace at either end is its own trim. */
  lemma TrimOfTrimmed(m: string)
    requires Trimmed(m)
    ensures Trim(m) == m
  {
    assert TrimStart(m) == m;
    assert TrimEnd(m) == m;
  }

  /** Trimming is idempotent. */
  lemma TrimIdempotent(s: string)
    ensures Trim(Trim(s)) == Trim(s)
  {
    TrimOfTrimmed(Trim(s));
  }

  /** The submit handler: the query the emitted search event carries, or
      `None` when no event is emitted. */
  function Submit(input: string): (query: Option<string>)
    ensures query.Some? <==> !AllWhitespace(input)
    ensures query.Some? ==> query.value == Trim(input)
    ensures query.Some? ==> query.value != [] && Trimmed(query.value) && PaddingOf(input, query.value)
  {
    var q := Trim(input);
    if q != [] then Some(q) else None
  }

  /** Submitting an emitted query again emits the same query. */
  lemma ResubmitIsStable(input: string)
    requires Submit(input).Some?
    ensures Submit(Submit(input).value) == Submit(input)
  {
    TrimIdempotent(input);
  }
}
