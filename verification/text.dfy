/** The string primitives the scanner and the line accessor rely on:
    whitespace, `String.prototype.trim`, `startsWith`, `indexOf` and the
    `/\S/` search. */
module Text {
  import opened Wrappers

  /** The fixed whitespace set used both by `trim` and by `/\S/`: the ASCII
      whitespace and line terminators, no-break space, the byte-order mark
      and the Unicode line and paragraph separators. */
  predicate IsWhitespace(c: char)
    ensures IsWhitespace(c) ==> (c as int) < 0x1_0000
    ensures c == ' ' || c == '\t' ==> IsWhitespace(c)
  {
    || c == ' ' || c == '\t' || c == '\n' || c == '\r'
    || c == '\U{000B}' || c == '\U{000C}'
    || c == '\U{00A0}' || c == '\U{FEFF}'
    || c == '\U{2028}' || c == '\U{2029}'
  }

  predicate AllWhitespace(s: string) {
    forall i :: 0 <= i < |s| ==> IsWhitespace(s[i])
  }

  /** Reference definition: the length of the leading whitespace run. */
  function LeadingWhitespace(s: string): (n: nat)
    ensures n <= |s|
    ensures AllWhitespace(s[..n])
    ensures n < |s| ==> !IsWhitespace(s[n])
  {
    if |s| == 0 || !IsWhitespace(s[0]) then 0
    else
      var n := 1 + LeadingWhitespace(s[1..]);
      assert s[..n] == [s[0]] + s[1..][..n - 1];
      n
  }

  lemma LeadingWhitespaceAllIff(s: string)
    ensures LeadingWhitespace(s) == |s| <==> AllWhitespace(s)
  {
    var n := LeadingWhitespace(s);
    if n == |s| {
      assert s[..n] == s;
    } else {
      assert !IsWhitespace(s[n]);
    }
  }

  /** `s.match(/\S/)[0]`: the text of the first match of a single
      non-whitespace character, or no match at all. */
  function MatchNonWhitespace(s: string): (r: Option<char>)
    ensures r.None? <==> AllWhitespace(s)
    ensures r.Some? ==> LeadingWhitespace(s) < |s| && r.value == s[LeadingWhitespace(s)]
  {
    if |s| == 0 then None
    else if !IsWhitespace(s[0]) then Some(s[0])
    else
      var r := MatchNonWhitespace(s[1..]);
      assert AllWhitespace(s[1..]) ==> AllWhitespace(s);
      r
  }

  /** `s.indexOf(c)` for a one-character search string: the first position
      holding `c`, or -1. */
  function IndexOf(s: string, c: char): (r: int)
    ensures -1 <= r < |s|
    ensures r == -1 <==> c !in s
    ensures r >= 0 ==> s[r] == c && c !in s[..r]
  {
    if |s| == 0 then -1
    else if s[0] == c then 0
    else
      var k := IndexOf(s[1..], c);
      assert s == [s[0]] + s[1..];
      if k == -1 then -1
      else
        assert s[..k + 1] == [s[0]] + s[1..][..k];
        k + 1
  }

  /** `prefix` is a prefix of `s`, as `s.startsWith(prefix)`. */
  predicate StartsWith(s: string, prefix: string) {
    |prefix| <= |s| && s[..|prefix|] == prefix
  }

  /** `startsWith` compares position by position: every character of
      `prefix` matches the character of `s` at the same index. */
  lemma StartsWithIff(s: string, prefix: string)
    ensures StartsWith(s, prefix) <==> |prefix| <= |s| && forall i :: 0 <= i < |prefix| ==> s[i] == prefix[i]
  {
    if |prefix| <= |s| && forall i :: 0 <= i < |prefix| ==> s[i] == prefix[i] {
      assert s[..|prefix|] == prefix;
    }
  }

  function TrimStart(s: string): string {
    s[LeadingWhitespace(s)..]
  }

  /** Drops the trailing whitespace run. */
  function TrimEnd(s: string): (r: string)
    ensures StartsWith(s, r)
    ensures AllWhitespace(s[|r|..])
    ensures |r| > 0 ==> !IsWhitespace(r[|r| - 1])
  {
    if |s| == 0 || !IsWhitespace(s[|s| - 1]) then s
    else
      var r := TrimEnd(s[..|s| - 1]);
      assert s[|r|..] == s[..|s| - 1][|r|..] + [s[|s| - 1]];
      r
  }

  /** `String.prototype.trim`: whitespace removed at both ends. */
  function Trim(s: string): (r: string)
    ensures LeadingWhitespace(s) + |r| <= |s|
    ensures r == s[LeadingWhitespace(s)..LeadingWhitespace(s) + |r|]
    ensures AllWhitespace(s[LeadingWhitespace(s) + |r|..])
    ensures |r| > 0 ==> !IsWhitespace(r[0]) && !IsWhitespace(r[|r| - 1])
    ensures |r| == 0 <==> AllWhitespace(s)
  {
    var r := TrimEnd(TrimStart(s));
    TrimEndOfSuffix(s, r);
    SuffixSlice(s, LeadingWhitespace(s), r);
    TrimFirst(s, r);
    TrimEmptyIff(s, r);
    r
  }

  lemma TrimEndOfSuffix(s: string, r: string)
    requires r == TrimEnd(TrimStart(s))
    ensures StartsWith(s[LeadingWhitespace(s)..], r)
    ensures AllWhitespace(s[LeadingWhitespace(s)..][|r|..])
  {
    assert TrimStart(s) == s[LeadingWhitespace(s)..];
  }

  lemma SuffixSlice(s: string, start: nat, r: string)
    requires start <= |s|
    requires StartsWith(s[start..], r) && AllWhitespace(s[start..][|r|..])
    ensures start + |r| <= |s|
    ensures r == s[start..start + |r|]
    ensures AllWhitespace(s[start + |r|..])
  {
    var t := s[start..];
    assert t[..|r|] == s[start..start + |r|];
    assert s[start + |r|..] == t[|r|..];
  }

  lemma TrimFirst(s: string, r: string)
    requires r == TrimEnd(TrimStart(s))
    ensures |r| > 0 ==> !IsWhitespace(r[0])
  {
    var start := LeadingWhitespace(s);
    if |r| > 0 {
      assert r[0] == s[start..][0];
    }
  }

  lemma TrimEmptyIff(s: string, r: string)
    requires r == TrimEnd(TrimStart(s))
    ensures |r| == 0 <==> AllWhitespace(s)
  {
    LeadingWhitespaceAllIff(s);
  }

  /** Trailing trimming never reaches past a non-whitespace character:
      everything up to and including it survives. */
  lemma TrimEndKeeps(s: string, k: nat)
    requires 0 < k <= |s| && !IsWhitespace(s[k - 1])
    ensures StartsWith(TrimEnd(s), s[..k])
  {
  }

  /** The trimmed text starts with `prefix` (itself ending in a
      non-whitespace character) exactly when `prefix` sits right after the
      leading whitespace run. */
  lemma TrimStartsWithIff(s: string, prefix: string)
    requires |prefix| > 0 && !IsWhitespace(prefix[|prefix| - 1])
    ensures StartsWith(Trim(s), prefix) <==> StartsWith(s[LeadingWhitespace(s)..], prefix)
  {
  }
}
