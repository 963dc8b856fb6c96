/**
  Text helpers the service relies on through JavaScript's string library:
  ASCII `toLowerCase`, `includes`, first-occurrence search, `join`,
  the rendering of integers in template literals and `trim`.
 */
module Strings {
  import opened Wrappers

  // ---------------------------------------------------------------------------
  // Case folding (ASCII only)
  // ---------------------------------------------------------------------------

  predicate IsUpper(c: char) {
    'A' <= c <= 'Z'
  }

  function LowerChar(c: char): char {
    if IsUpper(c) then (c as int + 32) as char else c
  }

  /** `toLowerCase`, restricted to ASCII letters. */
  function ToLower(s: string): (r: string)
    ensures |r| == |s|
  {
    if |s| == 0 then [] else [LowerChar(s[0])] + ToLower(s[1..])
  }

  lemma {:induction false} ToLowerAt(s: string, i: nat)
    requires i < |s|
    ensures ToLower(s)[i] == LowerChar(s[i]) && !IsUpper(ToLower(s)[i])
  {
    if i > 0 {
      ToLowerAt(s[1..], i - 1);
    }
  }

  /** Folding distributes over concatenation. */
  lemma {:induction false} ToLowerConcat(a: string, b: string)
    ensures ToLower(a + b) == ToLower(a) + ToLower(b)
  {
    if |a| > 0 {
      assert (a + b)[1..] == a[1..] + b;
      ToLowerConcat(a[1..], b);
    } else {
      assert a + b == b;
    }
  }

  /** Text without upper-case letters is its own folding. */
  lemma {:induction false} ToLowerOfLower(s: string)
    requires forall c :: c in s ==> !IsUpper(c)
    ensures ToLower(s) == s
  {
    if |s| > 0 {
      assert s[0] in s;
      assert forall c :: c in s[1..] ==> c in s;
      ToLowerOfLower(s[1..]);
    }
  }

  /** Folding twice is folding once. */
  lemma ToLowerIdempotent(s: string)
    ensures ToLower(ToLower(s)) == ToLower(s)
  {
    forall c | c in ToLower(s)
      ensures !IsUpper(c)
    {
      var i: int :| 0 <= i < |ToLower(s)| && ToLower(s)[i] == c;
      ToLowerAt(s, i);
    }
    ToLowerOfLower(ToLower(s));
  }

  // ---------------------------------------------------------------------------
  // Substring search
  // ---------------------------------------------------------------------------

  /** `pat` occurs in `s` starting at index `k`. */
  predicate OccursAt(s: string, pat: string, k: int) {
    0 <= k && k + |pat| <= |s| && s[k..k + |pat|] == pat
  }

  /** `s.includes(pat)`. */
  predicate Contains(s: string, pat: string) {
    exists k | 0 <= k <= |s| - |pat| :: OccursAt(s, pat, k)
  }

  lemma ContainsWitness(s: string, pat: string, k: int)
    requires OccursAt(s, pat, k)
    ensures Contains(s, pat)
  {
  }

  /** A text contains itself wherever it is embedded. */
  lemma ContainsInfix(a: string, pat: string, b: string)
    ensures Contains(a + pat + b, pat)
  {
    assert (a + pat + b)[|a|..|a| + |pat|] == pat;
    ContainsWitness(a + pat + b, pat, |a|);
  }

  /** An occurrence survives any text added around it. */
  lemma ContainsExtend(a: string, s: string, b: string, pat: string)
    requires Contains(s, pat)
    ensures Contains(a + s + b, pat)
  {
    var k: int :| 0 <= k <= |s| - |pat| && OccursAt(s, pat, k);
    var at, len := |a| + k, |pat|;
    assert (a + s + b)[at..at + len] == s[k..k + len];
    ContainsWitness(a + s + b, pat, at);
  }

  lemma ContainsPrepend(a: string, s: string, pat: string)
    requires Contains(s, pat)
    ensures Contains(a + s, pat)
  {
    ContainsExtend(a, s, [], pat);
    assert a + s + [] == a + s;
  }

  /** An occurrence of an occurrence is an occurrence. */
  lemma ContainsTrans(s: string, m: string, pat: string)
    requires Contains(s, m) && Contains(m, pat)
    ensures Contains(s, pat)
  {
    var k: int :| 0 <= k <= |s| - |m| && OccursAt(s, m, k);
    var j: int :| 0 <= j <= |m| - |pat| && OccursAt(m, pat, j);
    forall x | 0 <= x < |pat|
      ensures s[k + j + x] == pat[x]
    {
      assert s[k + j + x] == s[k..k + |m|][j + x];
      assert m[j + x] == m[j..j + |pat|][x];
    }
    assert s[k + j..k + j + |pat|] == pat;
    ContainsWitness(s, pat, k + j);
  }

  /** A pattern with a character the text lacks does not occur in it. */
  lemma MissingCharNotContained(s: string, pat: string, c: char)
    requires c in pat && c !in s
    ensures !Contains(s, pat)
  {
    var j: int :| 0 <= j < |pat| && pat[j] == c;
    forall k | 0 <= k <= |s| - |pat|
      ensures !OccursAt(s, pat, k)
    {
      assert s[k + j] in s;
      assert s[k..k + |pat|][j] == s[k + j];
    }
  }

  /**
    The first index at or after `from` where `pat` occurs in `s`, as the
    left-most match of a regular expression finds it.
   */
  function FindFrom(s: string, pat: string, from: nat): (r: Option<nat>)
    decreases |s| - from
    ensures r.Some? ==> from <= r.value && OccursAt(s, pat, r.value)
    ensures r.Some? ==> forall k :: from <= k < r.value ==> !OccursAt(s, pat, k)
    ensures r.None? ==> forall k :: from <= k ==> !OccursAt(s, pat, k)
  {
    if from + |pat| > |s| then None
    else if s[from..from + |pat|] == pat then Some(from)
    else FindFrom(s, pat, from + 1)
  }

  /** The search finds exactly the first occurrence at or after `from`. */
  lemma FindFromFirst(s: string, pat: string, from: nat, i: nat)
    requires from <= i && OccursAt(s, pat, i)
    requires forall k :: from <= k < i ==> !OccursAt(s, pat, k)
    ensures FindFrom(s, pat, from) == Some(i)
  {
  }

  /**
    Searching from the start of `a` finds the `pat` placed right after `a`,
    provided no occurrence starts in `a`, not even one running into `pat`.
   */
  lemma {:induction false} FindAfter(c: string, a: string, pat: string, b: string)
    requires |pat| > 0 && !Contains(a + pat[..|pat| - 1], pat)
    ensures FindFrom(c + a + pat + b, pat, |c|) == Some(|c| + |a|)
  {
    var s := c + a + pat + b;
    var h := a + pat[..|pat| - 1];
    assert s == c + h + pat[|pat| - 1..] + b;
    assert s[|c| + |a|..|c| + |a| + |pat|] == pat;
    forall k | |c| <= k < |c| + |a|
      ensures !OccursAt(s, pat, k)
    {
      var at := k - |c|;
      if OccursAt(s, pat, k) {
        assert s[k..k + |pat|] == h[at..at + |pat|];
        ContainsWitness(h, pat, at);
      }
    }
    FindFromFirst(s, pat, |c|, |c| + |a|);
  }

  lemma {:induction false} FindAfterStart(a: string, pat: string, b: string)
    requires |pat| > 0 && !Contains(a + pat[..|pat| - 1], pat)
    ensures FindFrom(a + pat + b, pat, 0) == Some(|a|)
  {
    FindAfter([], a, pat, b);
    assert [] + a == a;
  }

  /** `FindAfter` twice: an opening pattern, a body, then the closing pattern. */
  lemma {:induction false} FindDelimited(prefix: string, open: string, body: string, close: string, suffix: string)
    requires |open| > 0 && !Contains(prefix + open[..|open| - 1], open)
    requires |close| > 0 && !Contains(body + close[..|close| - 1], close)
    ensures FindFrom(prefix + open + body + close + suffix, open, 0) == Some(|prefix|)
    ensures FindFrom(prefix + open + body + close + suffix, close, |prefix| + |open|)
         == Some(|prefix| + |open| + |body|)
  {
    FindAfterStart(prefix, open, body + close + suffix);
    assert prefix + open + (body + close + suffix) == prefix + open + body + close + suffix;
    FindAfter(prefix + open, body, close, suffix);
  }

  /** The body between the delimiters, and the text around them. */
  lemma {:induction false} DelimitedParts(prefix: string, open: string, body: string, close: string, suffix: string)
    ensures var s := prefix + open + body + close + suffix;
      && s[|prefix| + |open|..|prefix| + |open| + |body|] == body
      && s[..|prefix|] + s[|prefix| + |open| + |body| + |close|..] == prefix + suffix
  {
    var s := prefix + open + body + close + suffix;
    assert s[..|prefix|] == prefix;
    assert s[|prefix| + |open| + |body| + |close|..] == suffix;
  }

  // ---------------------------------------------------------------------------
  // Array.prototype.join
  // ---------------------------------------------------------------------------

  function Join(xs: seq<string>, sep: string): string {
    if |xs| == 0 then ""
    else if |xs| == 1 then xs[0]
    else xs[0] + sep + Join(xs[1..], sep)
  }

  /** Every joined part occurs, unchanged, in the joined text. */
  lemma {:induction false} JoinContains(xs: seq<string>, sep: string, i: nat)
    requires i < |xs|
    ensures Contains(Join(xs, sep), xs[i])
  {
    if |xs| == 1 {
      ContainsInfix("", xs[0], "");
      assert "" + xs[0] + "" == Join(xs, sep);
    } else if i == 0 {
      ContainsInfix("", xs[0], sep + Join(xs[1..], sep));
      assert "" + xs[0] + (sep + Join(xs[1..], sep)) == Join(xs, sep);
    } else {
      JoinContains(xs[1..], sep, i - 1);
      ContainsExtend(xs[0] + sep, Join(xs[1..], sep), "", xs[i]);
      assert xs[0] + sep + Join(xs[1..], sep) + "" == Join(xs, sep);
    }
  }

  /** A non-empty join starts with the first part. */
  lemma JoinStartsWithFirst(xs: seq<string>, sep: string)
    requires |xs| > 0
    ensures |xs[0]| <= |Join(xs, sep)| && Join(xs, sep)[..|xs[0]|] == xs[0]
  {
  }

  // ---------------------------------------------------------------------------
  // Numbers in template literals
  // ---------------------------------------------------------------------------

  predicate IsDigit(c: char) {
    '0' <= c <= '9'
  }

  function DigitChar(d: nat): char
    requires d < 10
  {
    ('0' as int + d) as char
  }

  /** The decimal text of a natural number, as `${n}` renders it. */
  function NatToString(n: nat): (r: string)
    ensures |r| >= 1
    ensures forall i :: 0 <= i < |r| ==> IsDigit(r[i])
    ensures r[0] == '0' ==> n == 0
  {
    if n < 10 then [DigitChar(n)] else NatToString(n / 10) + [DigitChar(n % 10)]
  }

  /** The number a string of decimal digits denotes. */
  function ParseDigits(s: string): nat
    requires forall i :: 0 <= i < |s| ==> IsDigit(s[i])
  {
    if |s| == 0 then 0
    else
      assert IsDigit(s[|s| - 1]);
      ParseDigits(s[..|s| - 1]) * 10 + (s[|s| - 1] as int - '0' as int)
  }

  /** Reading back the digits of a number gives the number. */
  lemma {:induction false} NatToStringRoundTrip(n: nat)
    ensures ParseDigits(NatToString(n)) == n
  {
    if n >= 10 {
      NatToStringRoundTrip(n / 10);
      var s := NatToString(n);
      assert s[..|s| - 1] == NatToString(n / 10);
    }
  }

  /** Distinct numbers render differently. */
  lemma NatToStringInjective(m: nat, n: nat)
    requires NatToString(m) == NatToString(n)
    ensures m == n
  {
    NatToStringRoundTrip(m);
    NatToStringRoundTrip(n);
  }

  /** The text of an integer, with a leading minus sign when negative. */
  function IntToString(i: int): string {
    if i < 0 then "-" + NatToString(-i) else NatToString(i)
  }

  // ---------------------------------------------------------------------------
  // String.prototype.trim
  // ---------------------------------------------------------------------------

  /** The WhiteSpace and LineTerminator code points that `trim` removes. */
  predicate IsJsSpace(c: char) {
    c == '\t' || c == '\n' || c == '\U{B}' || c == '\U{C}' || c == '\r' || c == ' '
    || c == '\U{A0}' || c == '\U{1680}' || ('\U{2000}' <= c <= '\U{200A}')
    || c == '\U{2028}' || c == '\U{2029}' || c == '\U{202F}' || c == '\U{205F}'
    || c == '\U{3000}' || c == '\U{FEFF}'
  }

  predicate AllSpace(s: string) {
    forall i :: 0 <= i < |s| ==> IsJsSpace(s[i])
  }

  function TrimStart(s: string): (r: string)
    ensures |r| <= |s| && r == s[|s| - |r|..]
    ensures AllSpace(s[..|s| - |r|])
    ensures |r| > 0 ==> !IsJsSpace(r[0])
  {
    if |s| > 0 && IsJsSpace(s[0]) then TrimStart(s[1..]) else s
  }

  function TrimEnd(s: string): (r: string)
    ensures |r| <= |s| && r == s[..|r|]
    ensures AllSpace(s[|r|..])
    ensures |r| > 0 ==> !IsJsSpace(r[|r| - 1])
  {
    if |s| > 0 && IsJsSpace(s[|s| - 1]) then TrimEnd(s[..|s| - 1]) else s
  }

  /** `trim`: the text without its leading and trailing white space. */
  function Trim(s: string): (r: string)
    ensures exists a, b :: a + r + b == s && AllSpace(a) && AllSpace(b)
    ensures |r| > 0 ==> !IsJsSpace(r[0]) && !IsJsSpace(r[|r| - 1])
  {
    var t := TrimStart(s);
    var r := TrimEnd(t);
    assert s[..|s| - |t|] + r + t[|r|..] == s;
    r
  }

  lemma {:induction false} TrimStartSkips(lead: string, rest: string)
    requires AllSpace(lead) && |rest| > 0 && !IsJsSpace(rest[0])
    ensures TrimStart(lead + rest) == rest
  {
    if |lead| > 0 {
      assert (lead + rest)[1..] == lead[1..] + rest;
      TrimStartSkips(lead[1..], rest);
    } else {
      assert lead + rest == rest;
    }
  }

  /** Trimming the end never removes a character that is not white space, nor anything before it. */
  lemma {:induction false} TrimEndKeepsNonSpace(s: string, i: nat)
    requires i < |s| && !IsJsSpace(s[i])
    ensures i < |TrimEnd(s)|
  {
    if |s| > 0 && IsJsSpace(s[|s| - 1]) {
      TrimEndKeepsNonSpace(s[..|s| - 1], i);
    }
  }

  lemma TrimEndKeeps(core: string, tail: string)
    requires |core| > 0 && !IsJsSpace(core[|core| - 1])
    ensures |core| <= |TrimEnd(core + tail)|
    ensures TrimEnd(core + tail)[..|core|] == core
  {
    var s := core + tail;
    TrimEndKeepsNonSpace(s, |core| - 1);
    assert TrimEnd(s)[..|core|] == s[..|core|];
  }

  /**
    Trimming text that starts, after white space, with a `core` whose first
    and last characters are not white space keeps all of that core.
   */
  lemma TrimKeepsCore(lead: string, core: string, tail: string)
    requires AllSpace(lead) && |core| > 0
    requires !IsJsSpace(core[0]) && !IsJsSpace(core[|core| - 1])
    ensures |core| <= |Trim(lead + core + tail)|
    ensures Trim(lead + core + tail)[..|core|] == core
  {
    assert lead + core + tail == lead + (core + tail);
    TrimStartSkips(lead, core + tail);
    TrimEndKeeps(core, tail);
  }
}
