/**
 * The handful of Python string operations the client relies on:
 * `str.replace`, `str.rstrip`, `str(int)`, `startswith`/`in`, and the byte
 * length of `s.encode("utf-8")`.
 */
module Strings {

  predicate StartsWith(s: string, p: string)
  {
    |p| <= |s| && s[..|p|] == p
  }

  /** `p in s`, written as a search from the left. */
  predicate Contains(s: string, p: string)
    decreases |s|
  {
    StartsWith(s, p) || (|s| > 0 && Contains(s[1..], p))
  }

  /**
   * `s.replace(pat, rep)`: every non-overlapping occurrence of `pat`, found
   * from the left, is replaced by `rep`.
   */
  function Replace(s: string, pat: string, rep: string): string
    requires pat != []
    decreases |s|
  {
    if StartsWith(s, pat) then rep + Replace(s[|pat|..], pat, rep)
    else if s == [] then []
    else [s[0]] + Replace(s[1..], pat, rep)
  }

  /** `s.rstrip(c)` for a single character `c`. */
  function RStrip(s: string, c: char): string
    decreases |s|
  {
    if |s| > 0 && s[|s| - 1] == c then RStrip(s[..|s| - 1], c) else s
  }

  /** `c * n`: the string of `n` copies of `c`. */
  function Repeat(c: char, n: nat): (r: string)
    ensures |r| == n && forall i :: 0 <= i < n ==> r[i] == c
  {
    if n == 0 then [] else Repeat(c, n - 1) + [c]
  }

  /** Decimal digits of a natural number, most significant first. */
  function Digits(n: nat): string
    decreases n
  {
    if n < 10 then [DigitChar(n)] else Digits(n / 10) + [DigitChar(n % 10)]
  }

  function DigitChar(d: nat): char
    requires d < 10
  {
    "0123456789"[d]
  }

  /** Python's `str(i)` for an `int`. */
  function IntToString(i: int): string
  {
    if i < 0 then "-" + Digits(-i) else Digits(i)
  }

  /** Number of bytes UTF-8 uses for one code point (section 3 of RFC 3629). */
  function CharUtf8Length(c: char): (n: nat)
    ensures 1 <= n <= 4
  {
    if c as int < 0x80 then 1
    else if c as int < 0x800 then 2
    else if c as int < 0x1_0000 then 3
    else 4
  }

  /** `len(s.encode("utf-8"))`. */
  function Utf8Length(s: string): nat
  {
    if s == [] then 0 else Utf8Length(s[..|s| - 1]) + CharUtf8Length(s[|s| - 1])
  }

  // ---------------------------------------------------------------------
  // Properties

  lemma {:induction false} RStripSpec(s: string, c: char)
    ensures var r := RStrip(s, c);
      && (r == [] || r[|r| - 1] != c)
      && exists k: nat :: s == r + Repeat(c, k)
    decreases |s|
  {
    var r := RStrip(s, c);
    if |s| > 0 && s[|s| - 1] == c {
      var t := s[..|s| - 1];
      RStripSpec(t, c);
      var k: nat :| t == r + Repeat(c, k);
      assert s == t + [c];
      assert s == r + Repeat(c, k + 1);
    } else {
      assert s == r + Repeat(c, 0);
    }
  }

  /** The digits of `str(n)` are decimal digits and spell `n` back. */
  function DigitsValue(s: string): int
  {
    if s == [] then 0 else 10 * DigitsValue(s[..|s| - 1]) + (s[|s| - 1] as int - '0' as int)
  }

  /** A string of decimal digits spells a natural number. */
  lemma {:induction false} DigitsValueNonNegative(s: string)
    requires forall k :: 0 <= k < |s| ==> '0' <= s[k] <= '9'
    ensures DigitsValue(s) >= 0
  {
    if s != [] {
      DigitsValueNonNegative(s[..|s| - 1]);
    }
  }

  lemma {:induction false} DigitsRoundTrip(n: nat)
    ensures |Digits(n)| > 0
    ensures forall i :: 0 <= i < |Digits(n)| ==> '0' <= Digits(n)[i] <= '9'
    ensures DigitsValue(Digits(n)) == n
    decreases n
  {
    if n >= 10 {
      DigitsRoundTrip(n / 10);
      DigitCharValue(n % 10);
      var d := Digits(n);
      assert d[..|d| - 1] == Digits(n / 10);
    } else {
      DigitCharValue(n);
    }
  }

  /** The digit character of `d` stands for `d`. */
  lemma DigitCharValue(d: nat)
    requires d < 10
    ensures '0' <= DigitChar(d) <= '9' && DigitChar(d) as int - '0' as int == d
  {
  }

  lemma {:induction false} Utf8LengthAppend(a: string, b: string)
    ensures Utf8Length(a + b) == Utf8Length(a) + Utf8Length(b)
    decreases |b|
  {
    if b == [] {
      assert a + b == a;
    } else {
      var b' := b[..|b| - 1];
      assert (a + b)[..|a + b| - 1] == a + b';
      Utf8LengthAppend(a, b');
    }
  }

  /** Every character takes one to four bytes. */
  lemma {:induction false} Utf8LengthBounds(s: string)
    ensures |s| <= Utf8Length(s) <= 4 * |s|
    decreases |s|
  {
    if s != [] {
      Utf8LengthBounds(s[..|s| - 1]);
    }
  }

  lemma {:induction false} ReplaceAbsent(s: string, pat: string, rep: string)
    requires pat != []
    requires !Contains(s, pat)
    ensures Replace(s, pat, rep) == s
    decreases |s|
  {
    if s != [] {
      ReplaceAbsent(s[1..], pat, rep);
      assert s == [s[0]] + s[1..];
    }
  }

  /** No occurrence of `p` starts inside `n`, so one in `n + t` lies in `t`. */
  lemma {:induction false} ContainsSkipsPrefix(n: string, t: string, p: string)
    requires p != [] && p[0] !in n
    ensures Contains(n + t, p) ==> Contains(t, p)
    decreases |n|
  {
    if n == [] {
      assert n + t == t;
    } else {
      assert (n + t)[0] == n[0];
      assert (n + t)[1..] == n[1..] + t;
      ContainsSkipsPrefix(n[1..], t, p);
    }
  }

  /** A replaced text that starts with `q` came from a text that starts with `q`,
      as long as `q` cannot begin with the replacement. */
  lemma {:induction false} ReplacePrefixFromSource(t: string, p: string, n: string, q: string)
    requires p != [] && n != [] && n[0] !in q
    ensures StartsWith(Replace(t, p, n), q) ==> StartsWith(t, q)
    decreases |q|
  {
    var r := Replace(t, p, n);
    if q != [] && StartsWith(r, q) {
      assert r[0] == q[0] && q[0] != n[0];
      assert !StartsWith(t, p);
      assert r == [t[0]] + Replace(t[1..], p, n);
      ReplacePrefixFromSource(t[1..], p, n, q[1..]);
      assert t == [t[0]] + t[1..];
    }
  }

  /** Matching `p` is matching its first character, then the rest of it. */
  lemma StartsWithCons(s: string, p: string)
    requires s != [] && p != [] && s[0] == p[0]
    ensures StartsWith(s, p) <==> StartsWith(s[1..], p[1..])
  {
    if |p| <= |s| {
      assert s[..|p|] == [s[0]] + s[1..][..|p| - 1];
      assert p == [p[0]] + p[1..];
    }
  }

  /**
   * After `s.replace(p, n)` no `p` is left, provided the replacement cannot
   * start a new occurrence: `p[0]` does not occur in `n`, and `n[0]` does not
   * occur in the rest of `p`.
   */
  lemma {:induction false} ReplaceLeavesNoPattern(s: string, p: string, n: string)
    requires p != [] && n != []
    requires p[0] !in n && n[0] !in p[1..]
    ensures !Contains(Replace(s, p, n), p)
    decreases |s|
  {
    var r := Replace(s, p, n);
    if StartsWith(s, p) {
      var t := Replace(s[|p|..], p, n);
      ReplaceLeavesNoPattern(s[|p|..], p, n);
      ContainsSkipsPrefix(n, t, p);
    } else if s != [] {
      var t := Replace(s[1..], p, n);
      ReplaceLeavesNoPattern(s[1..], p, n);
      assert r == [s[0]] + t;
      if s[0] == p[0] {
        StartsWithCons(s, p);
        ReplacePrefixFromSource(s[1..], p, n, p[1..]);
        assert !StartsWith(t, p[1..]);
      }
      assert !StartsWith(r, p);
      assert r[1..] == t;
    }
  }

  /** A string that starts with the pattern loses it first. */
  lemma ReplaceHit(p: string, s: string, r: string)
    requires p != []
    ensures Replace(p + s, p, r) == r + Replace(s, p, r)
  {
    assert (p + s)[..|p|] == p && (p + s)[|p|..] == s;
  }

  /** A first character where the pattern does not start is kept. */
  lemma ReplaceMiss(c: char, s: string, p: string, r: string)
    requires p != []
    requires c != p[0] || (|p| > 1 && s != [] && s[0] != p[1])
    ensures Replace([c] + s, p, r) == [c] + Replace(s, p, r)
  {
    assert ([c] + s)[1..] == s;
    assert !StartsWith([c] + s, p) by {
      if |p| <= |[c] + s| {
        if c != p[0] {
          assert ([c] + s)[..|p|][0] != p[0];
        } else {
          assert ([c] + s)[..|p|][1] != p[1];
        }
      }
    }
  }

  /** Replacing `p` in `a + s` keeps `a` when `a` holds no first character of `p`. */
  lemma {:induction false} KeepPrefix(a: string, s: string, p: string, r: string)
    requires p != [] && p[0] !in a
    ensures Replace(a + s, p, r) == a + Replace(s, p, r)
    decreases |a|
  {
    if a != [] {
      var a0, a' := a[0], a[1..];
      var rest := Replace(s, p, r);
      assert a + s == [a0] + (a' + s);
      assert a0 != p[0];
      ReplaceMiss(a0, a' + s, p, r);
      KeepPrefix(a', s, p, r);
      calc {
        Replace(a + s, p, r);
        Replace([a0] + (a' + s), p, r);
        [a0] + Replace(a' + s, p, r);
        [a0] + (a' + rest);
        { assert a == [a0] + a'; }
        a + rest;
      }
    } else {
      assert a + s == s;
    }
  }
}
