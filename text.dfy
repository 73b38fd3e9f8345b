/**
  String helpers with the meaning the modelled code gives them: Go's `strings.HasPrefix`,
  `strings.Contains`, `strings.ReplaceAll`, `strings.TrimSuffix`, `strconv.Atoi` on digit strings,
  `fmt.Sprintf("%d")` on non-negative numbers and `filepath.Join` of two elements.
 */
module Text {
  import opened Wrappers

  predicate IsDigit(c: char) { '0' <= c <= '9' }

  predicate AllDigits(s: string) { forall i :: 0 <= i < |s| ==> IsDigit(s[i]) }

  /** A path segment: non-empty and free of '/' (the regular-expression class `[^/]+`). */
  predicate IsSegment(s: string) { s != [] && '/' !in s }

  predicate HasPrefix(s: string, prefix: string) {
    |prefix| <= |s| && s[..|prefix|] == prefix
  }

  predicate HasSuffix(s: string, suffix: string) {
    |suffix| <= |s| && s[|s| - |suffix|..] == suffix
  }

  /** `strings.Contains`: some suffix of `s` starts with `sub`. */
  predicate Contains(s: string, sub: string)
    decreases |s|
  {
    HasPrefix(s, sub) || (s != [] && Contains(s[1..], sub))
  }

  /** `strings.TrimSuffix(s, suffix)`: removes one occurrence of `suffix` at the end, if present. */
  function TrimSuffix(s: string, suffix: string): (r: string)
    ensures HasSuffix(s, suffix) ==> r + suffix == s
    ensures !HasSuffix(s, suffix) ==> r == s
  {
    if HasSuffix(s, suffix) then s[..|s| - |suffix|] else s
  }

  /** `strings.ReplaceAll`: every non-overlapping occurrence of `pat`, scanned left to right,
      is replaced by `rep`; an empty `pat` inserts `rep` before every character and at the end. */
  function ReplaceAll(s: string, pat: string, rep: string): string
    decreases |s|
  {
    if pat == [] then
      if s == [] then rep else rep + [s[0]] + ReplaceAll(s[1..], pat, rep)
    else if HasPrefix(s, pat) then rep + ReplaceAll(s[|pat|..], pat, rep)
    else if s == [] then []
    else [s[0]] + ReplaceAll(s[1..], pat, rep)
  }

  /** Position of the first `c` in `s`, or `|s|` when `s` has none. */
  function IndexOf(s: string, c: char): (i: nat)
    ensures i <= |s|
    ensures i < |s| ==> s[i] == c
    ensures forall j :: 0 <= j < i ==> s[j] != c
  {
    if s == [] then 0 else if s[0] == c then 0 else 1 + IndexOf(s[1..], c)
  }

  /** `strings.Cut(s, "/")`: the text before and after the first '/', if there is one. */
  function CutSlash(s: string): (r: Option<(string, string)>)
    ensures r.None? <==> '/' !in s
    ensures r.Some? ==> '/' !in r.value.0 && s == r.value.0 + "/" + r.value.1
  {
    var i := IndexOf(s, '/');
    if i == |s| then None else Some((s[..i], s[i + 1..]))
  }

  /** `s` read as `<owner>/<repo>/<tail>` with two segments: the prefix matched by
      `([^/]+)/([^/]+)/` in the URL patterns. */
  function SplitOwnerRepo(s: string): (r: Option<(string, string, string)>)
    ensures r.Some? ==> IsSegment(r.value.0) && IsSegment(r.value.1)
    ensures r.Some? ==> s == r.value.0 + "/" + (r.value.1 + "/" + r.value.2)
    ensures r.Some? ==> HasPrefix(s, r.value.0 + "/" + r.value.1)
  {
    match CutSlash(s)
    case None => None
    case Some((owner, afterOwner)) =>
      match CutSlash(afterOwner)
      case None => None
      case Some((repo, tail)) =>
        assert s[..|owner + "/" + repo|] == owner + "/" + repo;
        if owner != [] && repo != [] then Some((owner, repo, tail)) else None
  }

  /** The longest prefix of `s` made of decimal digits (what a greedy `\d+` consumes). */
  function DigitPrefix(s: string): (d: string)
    ensures AllDigits(d) && HasPrefix(s, d)
    ensures |d| == |s| || !IsDigit(s[|d|])
  {
    if s == [] || !IsDigit(s[0]) then [] else [s[0]] + DigitPrefix(s[1..])
  }

  /** The longest suffix of `s` made of decimal digits. */
  function DigitSuffix(s: string): (d: string)
    ensures AllDigits(d) && HasSuffix(s, d)
    ensures |d| == |s| || !IsDigit(s[|s| - |d| - 1])
  {
    if s == [] || !IsDigit(s[|s| - 1]) then [] else DigitSuffix(s[..|s| - 1]) + [s[|s| - 1]]
  }

  /** The value of a string of decimal digits, however large. */
  function DecimalValue(s: string): nat
    requires AllDigits(s)
  {
    if s == [] then 0 else 10 * DecimalValue(s[..|s| - 1]) + (s[|s| - 1] as int - '0' as int)
  }

  /** The largest Go `int` on a 64-bit platform. */
  const MaxInt: nat := 0x7fff_ffff_ffff_ffff

  /** `strconv.Atoi` on a string of decimal digits with its error ignored: out of range, Atoi
      reports an error together with the largest `int`, and that value is what remains. */
  function Atoi(s: string): (n: nat)
    requires AllDigits(s)
    ensures n <= MaxInt
    ensures DecimalValue(s) <= MaxInt ==> n == DecimalValue(s)
    ensures DecimalValue(s) > MaxInt ==> n == MaxInt
  {
    if DecimalValue(s) > MaxInt then MaxInt else DecimalValue(s)
  }

  function Pow10(k: nat): (p: nat)
    ensures p >= 1
  {
    if k == 0 then 1 else 10 * Pow10(k - 1)
  }

  /** `k` digits have a value below 10^k. */
  lemma {:induction false} DecimalValueBound(s: string)
    requires AllDigits(s)
    ensures DecimalValue(s) < Pow10(|s|)
  {
    if s != [] {
      DecimalValueBound(s[..|s| - 1]);
    }
  }

  /** Up to 18 digits never overflow: Atoi gives their exact value. */
  lemma AtoiShort(s: string)
    requires AllDigits(s) && |s| <= 18
    ensures Atoi(s) == DecimalValue(s)
  {
    DecimalValueBound(s);
    Pow10Monotone(|s|, 18);
    assert Pow10(9) == 1_000_000_000;
    Pow10Add(9, 9);
  }

  lemma {:induction false} Pow10Add(j: nat, k: nat)
    ensures Pow10(j + k) == Pow10(j) * Pow10(k)
    decreases k
  {
    if k > 0 {
      Pow10Add(j, k - 1);
    }
  }

  lemma {:induction false} Pow10Monotone(j: nat, k: nat)
    requires j <= k
    ensures Pow10(j) <= Pow10(k)
    decreases k
  {
    if j < k {
      Pow10Monotone(j, k - 1);
    }
  }

  function DigitChar(d: nat): (c: char)
    requires d < 10
    ensures IsDigit(c) && c as int - '0' as int == d
  {
    ('0' as int + d) as char
  }

  /** `fmt.Sprintf("%d", n)` for a non-negative `n`: canonical decimal digits. */
  function DecimalString(n: nat): (s: string)
    ensures s != [] && AllDigits(s)
    ensures |s| > 1 ==> s[0] != '0'
  {
    if n < 10 then [DigitChar(n)] else DecimalString(n / 10) + [DigitChar(n % 10)]
  }

  /** Two-element `filepath.Join`: empty elements are ignored, the others are joined by '/'. */
  function Join(a: string, b: string): (r: string)
    ensures a == [] ==> r == b
    ensures b == [] ==> r == a
    ensures a != [] && b != [] ==> HasPrefix(r, a) && HasSuffix(r, b) && |r| == |a| + 1 + |b|
  {
    if a == [] then b else if b == [] then a else a + "/" + b
  }

  // ---------------------------------------------------------------------------------------
  // Lemmas

  /** Formatting a number and reading it back gives the number. */
  lemma {:induction false} DecimalRoundTrip(n: nat)
    ensures DecimalValue(DecimalString(n)) == n
  {
    if n >= 10 {
      DecimalRoundTrip(n / 10);
      var s := DecimalString(n);
      assert s[..|s| - 1] == DecimalString(n / 10);
    }
  }

  lemma {:induction false} DecimalValuePositive(s: string)
    requires s != [] && AllDigits(s) && s[0] != '0'
    ensures DecimalValue(s) >= 1
  {
    if |s| > 1 {
      DecimalValuePositive(s[..|s| - 1]);
    }
  }

  /** Reading canonical digits and formatting the number gives the digits back. */
  lemma {:induction false} DecimalStringOfValue(s: string)
    requires s != [] && AllDigits(s) && (|s| == 1 || s[0] != '0')
    ensures DecimalString(DecimalValue(s)) == s
  {
    if |s| > 1 {
      var init := s[..|s| - 1];
      DecimalValuePositive(init);
      DecimalStringOfValue(init);
      var n := DecimalValue(s);
      assert n / 10 == DecimalValue(init) && n % 10 == s[|s| - 1] as int - '0' as int;
    }
  }

  /** Cutting `a/b` at its first '/' gives back `a` and `b` when `a` has no '/'. */
  lemma CutSlashOf(a: string, b: string)
    requires '/' !in a
    ensures CutSlash(a + "/" + b) == Some((a, b))
  {
    var s := a + "/" + b;
    assert s[|a|] == '/';
    assert s[..|a|] == a && s[|a| + 1..] == b;
  }

  lemma SplitOwnerRepoOf(owner: string, repo: string, tail: string)
    requires IsSegment(owner) && IsSegment(repo)
    ensures SplitOwnerRepo(owner + "/" + (repo + "/" + tail)) == Some((owner, repo, tail))
  {
    CutSlashOf(owner, repo + "/" + tail);
    CutSlashOf(repo, tail);
  }

  /** The pieces of a concatenation. */
  lemma ConcatParts(a: string, b: string)
    ensures (a + b)[..|a|] == a && (a + b)[|a|..] == b
    ensures a != [] ==> (a + b)[0] == a[0] && (a + b)[1..] == a[1..] + b
  {
  }

  lemma {:induction false} DigitPrefixOf(d: string, tail: string)
    requires AllDigits(d)
    requires tail == [] || !IsDigit(tail[0])
    ensures DigitPrefix(d + tail) == d
  {
    if d != [] {
      assert (d + tail)[1..] == d[1..] + tail;
      DigitPrefixOf(d[1..], tail);
    }
  }

  lemma {:induction false} DigitSuffixOf(a: string, d: string)
    requires a != [] && !IsDigit(a[|a| - 1]) && AllDigits(d)
    ensures DigitSuffix(a + d) == d
  {
    if d != [] {
      assert (a + d)[..|a + d| - 1] == a + d[..|d| - 1];
      DigitSuffixOf(a, d[..|d| - 1]);
    }
  }

  lemma HasPrefixConcat(s: string, a: string, b: string)
    requires HasPrefix(s, a) && HasPrefix(s[|a|..], b)
    ensures HasPrefix(s, a + b)
  {
    assert s[..|a + b|] == s[..|a|] + s[|a|..][..|b|];
  }

  /** A string lacking some character of `sub` cannot contain `sub`. */
  lemma {:induction false} NotContainsMissingChar(s: string, sub: string, c: char)
    requires c in sub && c !in s
    ensures !Contains(s, sub)
    decreases |s|
  {
    if s != [] {
      NotContainsMissingChar(s[1..], sub, c);
    }
  }

  /** An occurrence of `sub` at position `i` of `s` means `s` contains `sub`. */
  lemma {:induction false} ContainsAt(s: string, sub: string, i: nat)
    requires i <= |s| && HasPrefix(s[i..], sub)
    ensures Contains(s, sub)
    decreases i
  {
    if i > 0 {
      assert s[1..][i - 1..] == s[i..];
      ContainsAt(s[1..], sub, i - 1);
    }
  }

  /** What a prefix contains, the whole string contains. */
  lemma {:induction false} ContainsInPrefix(s: string, t: string, sub: string)
    requires Contains(s, sub)
    ensures Contains(s + t, sub)
    decreases |s|
  {
    if !HasPrefix(s, sub) {
      assert (s + t)[1..] == s[1..] + t;
      ContainsInPrefix(s[1..], t, sub);
    } else {
      assert (s + t)[..|sub|] == s[..|sub|];
    }
  }

  /** Replacing in a string that does not contain `pat` changes nothing. */
  lemma {:induction false} ReplaceAllAbsent(s: string, pat: string, rep: string)
    requires pat != []
    ensures !Contains(s, pat) ==> ReplaceAll(s, pat, rep) == s
    decreases |s|
  {
    if s != [] && !Contains(s, pat) {
      ReplaceAllAbsent(s[1..], pat, rep);
    }
  }

  /** A leading part free of `pat`'s first character is copied unchanged. */
  lemma {:induction false} ReplaceAllSkip(a: string, b: string, pat: string, rep: string)
    requires pat != [] && pat[0] !in a
    ensures ReplaceAll(a + b, pat, rep) == a + ReplaceAll(b, pat, rep)
    decreases |a|
  {
    if a != [] {
      assert (a + b)[0] == a[0] != pat[0];
      assert !HasPrefix(a + b, pat);
      assert (a + b)[1..] == a[1..] + b;
      ReplaceAllSkip(a[1..], b, pat, rep);
      calc {
        ReplaceAll(a + b, pat, rep);
        [a[0]] + ReplaceAll(a[1..] + b, pat, rep);
        [a[0]] + (a[1..] + ReplaceAll(b, pat, rep));
        { assert [a[0]] + a[1..] == a; }
        a + ReplaceAll(b, pat, rep);
      }
    } else {
      assert a + b == b;
    }
  }

  /** An occurrence of `pat` at the front is replaced and scanning resumes after it. */
  lemma ReplaceAllFront(pat: string, b: string, rep: string)
    requires pat != []
    ensures ReplaceAll(pat + b, pat, rep) == rep + ReplaceAll(b, pat, rep)
  {
    assert (pat + b)[..|pat|] == pat;
    assert (pat + b)[|pat|..] == b;
  }
}
