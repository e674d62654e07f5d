/** Column-name trimming: `df.columns.str.strip()` applies Python's
    `str.strip()` with no argument to every header name. */
module Header {

  /** The characters Python's `str.isspace()` accepts, which are the ones
      `str.strip()` removes by default. */
  predicate IsWhitespace(c: char)
  {
    '\t' <= c <= '\r' || '\U{1c}' <= c <= ' ' ||
    c == '\U{85}' || c == '\U{a0}' || c == '\U{1680}' ||
    '\U{2000}' <= c <= '\U{200a}' || c == '\U{2028}' || c == '\U{2029}' ||
    c == '\U{202f}' || c == '\U{205f}' || c == '\U{3000}'
  }

  /** Every character of `s` before position `i` is whitespace. */
  predicate WhitespaceBefore(s: string, i: nat)
    requires i <= |s|
  {
    forall k :: 0 <= k < i ==> IsWhitespace(s[k])
  }

  /** Every character of `s` from position `j` on is whitespace. */
  predicate WhitespaceFrom(s: string, j: nat)
  {
    forall k :: j <= k < |s| ==> IsWhitespace(s[k])
  }

  /** `r` occurs in `s` starting at position `i`. */
  predicate OccursAt(r: string, s: string, i: nat)
  {
    i + |r| <= |s| && forall k :: 0 <= k < |r| ==> r[k] == s[i + k]
  }

  /** `s` with its leading whitespace removed. */
  function TrimStart(s: string): (r: string)
    ensures |r| <= |s| && r == s[|s| - |r|..]
    ensures r == [] || !IsWhitespace(r[0])
    ensures WhitespaceBefore(s, |s| - |r|)
  {
    if |s| > 0 && IsWhitespace(s[0]) then TrimStart(s[1..]) else s
  }

  /** `s` with its trailing whitespace removed. */
  function TrimEnd(s: string): (r: string)
    ensures |r| <= |s| && r == s[..|r|]
    ensures r == [] || !IsWhitespace(r[|r| - 1])
    ensures WhitespaceFrom(s, |r|)
  {
    if |s| > 0 && IsWhitespace(s[|s| - 1]) then TrimEnd(s[..|s| - 1]) else s
  }

  /** `str.strip()`: the part of `s` that starts where its leading
      whitespace ends and is followed only by whitespace; neither end of
      it is whitespace. */
  function Strip(s: string): (r: string)
    ensures r == [] || (!IsWhitespace(r[0]) && !IsWhitespace(r[|r| - 1]))
    ensures var i := |s| - |TrimStart(s)|;
      OccursAt(r, s, i) && WhitespaceBefore(s, i) && WhitespaceFrom(s, i + |r|)
  {
    var t := TrimStart(s);
    var r := TrimEnd(t);
    assert r != [] ==> r[0] == t[0];
    PrefixOfSuffix(s, t, r);
    r
  }

  /** A prefix `r` of a suffix `t` of `s` occurs in `s` where `t` starts,
      and whitespace after `r` in `t` is whitespace after it in `s`. */
  lemma PrefixOfSuffix(s: string, t: string, r: string)
    requires |t| <= |s| && t == s[|s| - |t|..]
    requires |r| <= |t| && r == t[..|r|]
    requires WhitespaceFrom(t, |r|)
    ensures OccursAt(r, s, |s| - |t|) && WhitespaceFrom(s, |s| - |t| + |r|)
  {
    var i := |s| - |t|;
    forall k | i + |r| <= k < |s| ensures IsWhitespace(s[k]) {
      assert s[k] == t[k - i];
    }
  }

  /** Trimming a name that has no surrounding whitespace leaves it unchanged. */
  lemma StripTrimmed(s: string)
    requires s == [] || (!IsWhitespace(s[0]) && !IsWhitespace(s[|s| - 1]))
    ensures Strip(s) == s
  {
  }

  /** Trimming twice is trimming once. */
  lemma StripIdempotent(s: string)
    ensures Strip(Strip(s)) == Strip(s)
  {
    StripTrimmed(Strip(s));
  }

  /** The header after line 27: one trimmed name per column, in order. */
  function StripAll(names: seq<string>): (r: seq<string>)
    ensures |r| == |names|
    ensures forall i :: 0 <= i < |r| ==> r[i] == Strip(names[i])
  {
    seq(|names|, i requires 0 <= i < |names| => Strip(names[i]))
  }

  /** No trimmed name begins or ends with whitespace. */
  lemma StripAllClean(names: seq<string>, i: nat)
    requires i < |names|
    ensures var n := StripAll(names)[i]; n == [] || (!IsWhitespace(n[0]) && !IsWhitespace(n[|n| - 1]))
  {
  }

  /** Trimming the header twice is trimming it once. */
  lemma StripAllIdempotent(names: seq<string>)
    ensures StripAll(StripAll(names)) == StripAll(names)
  {
    forall i | 0 <= i < |names| ensures StripAll(StripAll(names))[i] == StripAll(names)[i] {
      StripIdempotent(names[i]);
    }
  }
}
