/**
 * The .NET string operations the level loader and the condition parser use:
 * ordinal `Replace`, `Split` on a string separator and on characters, `Trim`
 * of a character set, `ToLowerInvariant` on Basic Latin, Latin-1, Latin
 * Extended-A, basic Greek and basic Cyrillic, and integer formatting.
 */
module Strings {
  import opened Wrappers

  /** `t` begins with `q`. */
  predicate StartsWith(t: string, q: string) {
    |q| <= |t| && t[..|q|] == q
  }

  /** `q` occurs in `t` as a contiguous substring. */
  predicate Occurs(q: string, t: string)
    decreases |t|
  {
    StartsWith(t, q) || (|q| <= |t| && |t| > 0 && Occurs(q, t[1..]))
  }

  /** No character of `a` is a character of `q`. */
  predicate Disjoint(a: string, q: string) {
    forall k :: 0 <= k < |a| ==> a[k] !in q
  }

  /**
   * `s.Replace(pat, rep)`: ordinal, left to right, non-overlapping.
   */
  function Replace(s: string, pat: string, rep: string): string
    requires |pat| > 0
    decreases |s|
  {
    if |s| == 0 then ""
    else if StartsWith(s, pat) then rep + Replace(s[|pat|..], pat, rep)
    else [s[0]] + Replace(s[1..], pat, rep)
  }

  lemma OccursInSuffix(q: string, t: string, m: nat)
    requires m <= |t|
    requires Occurs(q, t[m..])
    ensures Occurs(q, t)
    decreases m
  {
    if m > 0 {
      assert t[m..] == t[1..][m - 1..];
      OccursInSuffix(q, t[1..], m - 1);
    }
  }

  /** A prefix made of characters foreign to `q` cannot hold the start of an occurrence. */
  lemma {:induction false} OccursPastForeign(a: string, b: string, q: string)
    requires |q| > 0 && Disjoint(a, q)
    requires Occurs(q, a + b)
    ensures Occurs(q, b)
    decreases |a|
  {
    if |a| > 0 {
      assert (a + b)[0] == a[0] && a[0] !in q && q[0] in q;
      assert !StartsWith(a + b, q);
      assert (a + b)[1..] == a[1..] + b;
      OccursPastForeign(a[1..], b, q);
    } else {
      assert a + b == b;
    }
  }

  /**
   * If the replaced text starts with `q`, and `rep` shares no character with
   * `q`, then the original text starts with `q` and no replacement began there.
   */
  lemma {:induction false} ReplacedStart(s: string, pat: string, rep: string, q: string)
    requires |pat| > 0 && |rep| > 0 && |q| > 0 && Disjoint(rep, q)
    requires StartsWith(Replace(s, pat, rep), q)
    ensures StartsWith(s, q) && !StartsWith(s, pat)
    decreases |q|
  {
    var t := Replace(s, pat, rep);
    assert |s| > 0;
    assert t[0] == q[0] && q[0] in q && rep[0] !in q;
    assert !StartsWith(s, pat);
    var t' := Replace(s[1..], pat, rep);
    assert t == [s[0]] + t';
    assert q[0] == s[0];
    if |q| > 1 {
      assert t'[..|q| - 1] == t[1..|q|] == q[1..];
      ReplacedStart(s[1..], pat, rep, q[1..]);
      assert s[..|q|] == q by {
        forall k | 0 <= k < |q|
          ensures s[k] == q[k]
        {
          if k > 0 {
            assert s[k] == s[1..][..|q| - 1][k - 1];
          }
        }
      }
    }
  }

  /**
   * After `Replace(s, pat, rep)` the pattern itself no longer occurs, and no
   * other word `q` appears that was absent before, provided `rep` is non-empty
   * and shares no character with the word.
   */
  lemma {:induction false} ReplaceLeavesNoOccurrence(s: string, pat: string, rep: string, q: string)
    requires |pat| > 0 && |rep| > 0 && |q| > 0 && Disjoint(rep, q)
    requires q == pat || !Occurs(q, s)
    ensures !Occurs(q, Replace(s, pat, rep))
    decreases |s|
  {
    var t := Replace(s, pat, rep);
    if |s| == 0 {
    } else if StartsWith(s, pat) {
      var rest := s[|pat|..];
      if q != pat && Occurs(q, rest) {
        OccursInSuffix(q, s, |pat|);
      }
      ReplaceLeavesNoOccurrence(rest, pat, rep, q);
      if Occurs(q, t) {
        OccursPastForeign(rep, Replace(rest, pat, rep), q);
      }
    } else {
      if q != pat && Occurs(q, s[1..]) {
        OccursInSuffix(q, s, 1);
      }
      ReplaceLeavesNoOccurrence(s[1..], pat, rep, q);
      var t' := Replace(s[1..], pat, rep);
      assert t == [s[0]] + t';
      assert t[1..] == t';
      if Occurs(q, t) {
        assert StartsWith(t, q);
        ReplacedStart(s, pat, rep, q);
      }
    }
  }

  /** `s.Split(new[] { sep }, StringSplitOptions.None)`. */
  function Split(s: string, sep: string): (parts: seq<string>)
    requires |sep| > 0
    ensures |parts| >= 1
    decreases |s|
  {
    if StartsWith(s, sep) then [""] + Split(s[|sep|..], sep)
    else if |s| == 0 then [""]
    else
      var rest := Split(s[1..], sep);
      [[s[0]] + rest[0]] + rest[1..]
  }

  /** `string.Join(sep, parts)`: the inverse of `Split`. */
  function Join(parts: seq<string>, sep: string): string
    requires |parts| >= 1
  {
    if |parts| == 1 then parts[0] else parts[0] + sep + Join(parts[1..], sep)
  }

  lemma {:induction false} SplitJoin(s: string, sep: string)
    requires |sep| > 0
    ensures Join(Split(s, sep), sep) == s
    decreases |s|
  {
    if StartsWith(s, sep) {
      SplitJoin(s[|sep|..], sep);
      assert s == sep + s[|sep|..];
    } else if |s| > 0 {
      var rest := Split(s[1..], sep);
      SplitJoin(s[1..], sep);
      JoinExtendsHead(s[0], rest, sep);
      assert s == [s[0]] + s[1..];
    }
  }

  /** Prefixing the first part with a character prefixes the joined text with it. */
  lemma JoinExtendsHead(c: char, rest: seq<string>, sep: string)
    requires |rest| >= 1
    ensures Join([[c] + rest[0]] + rest[1..], sep) == [c] + Join(rest, sep)
  {
    var parts := [[c] + rest[0]] + rest[1..];
    if |rest| > 1 {
      assert parts[1..] == rest[1..];
      assert parts[0] == [c] + rest[0];
      assert Join(parts, sep) == ([c] + rest[0]) + sep + Join(rest[1..], sep);
    }
  }

  /** The separator is absent from the text exactly when splitting yields a single segment. */
  lemma {:induction false} SplitSingleSegment(s: string, sep: string)
    requires |sep| > 0
    ensures |Split(s, sep)| == 1 <==> !Occurs(sep, s)
    ensures |Split(s, sep)| == 1 ==> Split(s, sep)[0] == s
    decreases |s|
  {
    if StartsWith(s, sep) {
      assert |Split(s, sep)| == 1 + |Split(s[|sep|..], sep)|;
    } else if |s| > 0 {
      SplitSingleSegment(s[1..], sep);
      assert s == [s[0]] + s[1..];
    }
  }

  /** The first segment of a split is a prefix of the text and holds no separator. */
  lemma {:induction false} SplitHeadFree(s: string, sep: string)
    requires |sep| > 0
    ensures StartsWith(s, Split(s, sep)[0])
    ensures !Occurs(sep, Split(s, sep)[0])
    decreases |s|
  {
    if !StartsWith(s, sep) && |s| > 0 {
      SplitHeadFree(s[1..], sep);
      var rest := Split(s[1..], sep);
      var head := [s[0]] + rest[0];
      assert head[1..] == rest[0];
      assert StartsWith(s, head) by {
        assert s == [s[0]] + s[1..];
      }
      if StartsWith(head, sep) {
        assert s[..|sep|] == head[..|sep|];
      }
    }
  }

  /** `s.Split(c1, c2, ...)` on single characters, keeping empty fields. */
  function SplitChars(s: string, seps: set<char>): (parts: seq<string>)
    ensures |parts| >= 1
    decreases |s|
  {
    if |s| == 0 then [""]
    else if s[0] in seps then [""] + SplitChars(s[1..], seps)
    else
      var rest := SplitChars(s[1..], seps);
      [[s[0]] + rest[0]] + rest[1..]
  }

  /** Number of separator characters in `s`. */
  function CountSeparators(s: string, seps: set<char>): nat
    decreases |s|
  {
    if |s| == 0 then 0 else (if s[0] in seps then 1 else 0) + CountSeparators(s[1..], seps)
  }

  predicate FreeOf(field: string, seps: set<char>) {
    forall k :: 0 <= k < |field| ==> field[k] !in seps
  }

  /** Splitting yields one more field than there are separators, and no field holds a separator. */
  lemma {:induction false} SplitCharsFields(s: string, seps: set<char>)
    ensures |SplitChars(s, seps)| == CountSeparators(s, seps) + 1
    ensures forall k :: 0 <= k < |SplitChars(s, seps)| ==> FreeOf(SplitChars(s, seps)[k], seps)
    decreases |s|
  {
    if |s| > 0 {
      SplitCharsFields(s[1..], seps);
      var rest := SplitChars(s[1..], seps);
      if s[0] !in seps {
        var parts := [[s[0]] + rest[0]] + rest[1..];
        assert FreeOf(rest[0], seps);
        assert FreeOf(parts[0], seps);
        forall k | 1 <= k < |parts|
          ensures FreeOf(parts[k], seps)
        {
          assert parts[k] == rest[k];
        }
      }
    }
  }

  /** `s.TrimStart(cs)`. */
  function TrimStart(s: string, cs: set<char>): (r: string)
    ensures |r| <= |s| && r == s[|s| - |r|..]
    ensures |r| > 0 ==> r[0] !in cs
    ensures forall k :: 0 <= k < |s| - |r| ==> s[k] in cs
    decreases |s|
  {
    if |s| > 0 && s[0] in cs then TrimStart(s[1..], cs) else s
  }

  /** `s.TrimEnd(cs)`. */
  function TrimEnd(s: string, cs: set<char>): (r: string)
    ensures |r| <= |s| && r == s[..|r|]
    ensures |r| > 0 ==> r[|r| - 1] !in cs
    ensures forall k :: |r| <= k < |s| ==> s[k] in cs
    decreases |s|
  {
    if |s| > 0 && s[|s| - 1] in cs then TrimEnd(s[..|s| - 1], cs) else s
  }

  /** `s.Trim(cs)`: both ends stripped of characters in `cs`. */
  function Trim(s: string, cs: set<char>): string {
    TrimEnd(TrimStart(s, cs), cs)
  }

  /** Trimming is idempotent: a trimmed string has no trimmable character at either end. */
  lemma TrimIdempotent(s: string, cs: set<char>)
    ensures Trim(Trim(s, cs), cs) == Trim(s, cs)
  {
    var t := Trim(s, cs);
    var u := TrimStart(s, cs);
    if |t| > 0 {
      assert t[0] == u[0];
    }
    assert TrimStart(t, cs) == t;
    assert TrimEnd(t, cs) == t;
  }

  /**
   * Invariant-culture lower-casing of one character, for the capitals of
   * Basic Latin, Latin-1, Latin Extended-A (except U+0130), basic Greek and
   * basic Cyrillic; every other character is kept.
   */
  function LowerChar(c: char): char {
    var n := c as int;
    if 'A' <= c <= 'Z' then (n + 32) as char
    else if 0xC0 <= n <= 0xDE && n != 0xD7 then (n + 32) as char
    else if (0x100 <= n <= 0x12F || 0x132 <= n <= 0x137 || 0x14A <= n <= 0x177) && n % 2 == 0 then (n + 1) as char
    else if (0x139 <= n <= 0x148 || 0x179 <= n <= 0x17E) && n % 2 == 1 then (n + 1) as char
    else if n == 0x178 then 0xFF as char
    else if 0x391 <= n <= 0x3A9 && n != 0x3A2 then (n + 32) as char
    else if 0x410 <= n <= 0x42F then (n + 32) as char
    else if 0x400 <= n <= 0x40F then (n + 80) as char
    else c
  }

  function ToLower(s: string): (r: string)
    ensures |r| == |s|
    ensures forall k :: 0 <= k < |s| ==> r[k] == LowerChar(s[k])
  {
    seq(|s|, k requires 0 <= k < |s| => LowerChar(s[k]))
  }

  lemma ToLowerIdempotent(s: string)
    ensures ToLower(ToLower(s)) == ToLower(s)
  {
  }

  /** `n.ToString()` for a natural number. */
  function NatToString(n: nat): (r: string)
    ensures |r| > 0 && forall k :: 0 <= k < |r| ==> '0' <= r[k] <= '9'
  {
    if n < 10 then [DigitChar(n)] else NatToString(n / 10) + [DigitChar(n % 10)]
  }

  function DigitChar(d: nat): (c: char)
    requires d < 10
    ensures '0' <= c <= '9'
  {
    (48 + d) as char
  }

  /** `i.ToString()` in the invariant culture: a minus sign before negative numbers. */
  function IntToString(i: int): string {
    if i < 0 then "-" + NatToString(-i) else NatToString(i)
  }

  predicate AllDigits(s: string) {
    forall k :: 0 <= k < |s| ==> '0' <= s[k] <= '9'
  }

  /** Value of a string of decimal digits. */
  function DigitsValue(s: string): nat
    requires AllDigits(s)
  {
    if |s| == 0 then 0 else DigitsValue(s[..|s| - 1]) * 10 + (s[|s| - 1] as int - 48)
  }

  /** Reference reading of a decimal integer, the inverse of `IntToString`. */
  function ParseDecimal(s: string): Option<int> {
    if |s| > 1 && s[0] == '-' && AllDigits(s[1..]) then Some(-(DigitsValue(s[1..]) as int))
    else if |s| > 0 && AllDigits(s) then Some(DigitsValue(s))
    else None
  }

  lemma {:induction false} NatToStringValue(n: nat)
    ensures DigitsValue(NatToString(n)) == n
  {
    if n >= 10 {
      NatToStringValue(n / 10);
      var s := NatToString(n);
      assert s[..|s| - 1] == NatToString(n / 10);
    }
  }

  /** Formatting an integer and reading it back gives the integer. */
  lemma IntToStringRoundTrip(i: int)
    ensures ParseDecimal(IntToString(i)) == Some(i)
  {
    if i < 0 {
      NatToStringValue(-i);
      assert IntToString(i)[1..] == NatToString(-i);
    } else {
      NatToStringValue(i);
    }
  }
}
