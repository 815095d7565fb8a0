/**
 * The few Python string and path operations the registry code relies on:
 * `str.startswith`, `pat in s`, `str.replace`, `str.split(sep, 1)`,
 * `os.path.dirname` and `os.path.join` (POSIX flavour).
 */
module Text {
  import opened Wrappers

  predicate StartsWith(s: string, prefix: string) {
    |prefix| <= |s| && s[..|prefix|] == prefix
  }

  /** Python's `pat in s`. */
  predicate Occurs(s: string, pat: string)
    decreases |s|
  {
    |pat| <= |s| && (s[..|pat|] == pat || (|s| > 0 && Occurs(s[1..], pat)))
  }

  /** `pat` sits in `s` at index `j`. */
  predicate OccursAtIndex(s: string, pat: string, j: int) {
    0 <= j && j + |pat| <= |s| && s[j..j + |pat|] == pat
  }

  /** `pat in s` holds exactly when `pat` sits at some index of `s`. */
  lemma {:induction false} OccursAt(s: string, pat: string)
    ensures Occurs(s, pat) <==> exists j :: OccursAtIndex(s, pat, j)
    decreases |s|
  {
    if |pat| <= |s| && s[..|pat|] != pat && |s| > 0 {
      OccursAt(s[1..], pat);
      if Occurs(s[1..], pat) {
        var j :| OccursAtIndex(s[1..], pat, j);
        assert s[j + 1..j + 1 + |pat|] == s[1..][j..j + |pat|];
        assert OccursAtIndex(s, pat, j + 1);
      }
      if exists j :: OccursAtIndex(s, pat, j) {
        var j :| OccursAtIndex(s, pat, j);
        assert j != 0;
        assert s[1..][j - 1..j - 1 + |pat|] == s[j..j + |pat|];
        assert OccursAtIndex(s[1..], pat, j - 1);
      }
    } else if |pat| <= |s| && s[..|pat|] == pat {
      assert OccursAtIndex(s, pat, 0);
    }
  }

  /**
   * Python's `s.replace(pat, rep)`: every non-overlapping occurrence of `pat`,
   * scanning from the left, is replaced by `rep`.
   */
  function ReplaceAll(s: string, pat: string, rep: string): string
    requires pat != []
    decreases |s|
  {
    if |s| < |pat| then s
    else if s[..|pat|] == pat then rep + ReplaceAll(s[|pat|..], pat, rep)
    else [s[0]] + ReplaceAll(s[1..], pat, rep)
  }

  /** Replacing a pattern that does not occur changes nothing. */
  lemma {:induction false} ReplaceAbsent(s: string, pat: string, rep: string)
    requires pat != [] && !Occurs(s, pat)
    ensures ReplaceAll(s, pat, rep) == s
  {
    if |s| >= |pat| {
      ReplaceAbsent(s[1..], pat, rep);
      assert [s[0]] + s[1..] == s;
    }
  }

  /** One step of `ReplaceAll` where `pat` starts `s`. */
  lemma ReplaceHit(s: string, pat: string, rep: string)
    requires pat != [] && StartsWith(s, pat)
    ensures ReplaceAll(s, pat, rep) == rep + ReplaceAll(s[|pat|..], pat, rep)
  {
  }

  /** One step of `ReplaceAll` where `pat` does not start `s`. */
  lemma ReplaceMiss(s: string, pat: string, rep: string)
    requires pat != [] && s != [] && !StartsWith(s, pat)
    ensures ReplaceAll(s, pat, rep) == [s[0]] + ReplaceAll(s[1..], pat, rep)
  {
    if |s| < |pat| {
      ReplaceAbsentShort(s, pat, rep);
      ReplaceAbsentShort(s[1..], pat, rep);
      assert [s[0]] + s[1..] == s;
    }
  }

  /** One step of `ReplaceAll` where `s` and `pat` differ at index `k`. */
  lemma ReplaceMissAt(s: string, pat: string, rep: string, k: nat)
    requires pat != [] && k < |s| && k < |pat| && s[k] != pat[k]
    ensures ReplaceAll(s, pat, rep) == [s[0]] + ReplaceAll(s[1..], pat, rep)
  {
    ReplaceMiss(s, pat, rep);
  }

  lemma ReplaceAbsentShort(s: string, pat: string, rep: string)
    requires pat != [] && |s| < |pat|
    ensures ReplaceAll(s, pat, rep) == s
  {
  }

  /**
   * Replacing distributes over a concatenation when no occurrence can straddle
   * the seam: the last character of `a`, or the first of `b`, is not in `pat`.
   */
  lemma {:induction false} ReplaceConcat(a: string, b: string, pat: string, rep: string)
    requires pat != []
    requires (a != [] && a[|a| - 1] !in pat) || (b != [] && b[0] !in pat)
    ensures ReplaceAll(a + b, pat, rep) == ReplaceAll(a, pat, rep) + ReplaceAll(b, pat, rep)
    decreases |a|, 1
  {
    if a == [] {
      assert a + b == b;
    } else if StartsWith(a + b, pat) {
      ReplaceConcatHit(a, b, pat, rep);
    } else {
      ReplaceConcatMiss(a, b, pat, rep);
    }
  }

  lemma {:induction false} ReplaceConcatHit(a: string, b: string, pat: string, rep: string)
    requires pat != [] && a != [] && StartsWith(a + b, pat)
    requires a[|a| - 1] !in pat || (b != [] && b[0] !in pat)
    ensures ReplaceAll(a + b, pat, rep) == ReplaceAll(a, pat, rep) + ReplaceAll(b, pat, rep)
    decreases |a|, 0
  {
    var n := |pat|;
    if |a| < n {
      SeamInPattern(a, b, pat);
      assert false;
    }
    assert StartsWith(a, pat) by { assert a[..n] == (a + b)[..n]; }
    var a' := a[n..];
    assert (a + b)[n..] == a' + b;
    ReplaceHit(a + b, pat, rep);
    ReplaceHit(a, pat, rep);
    if a' != [] {
      assert a'[|a'| - 1] == a[|a| - 1];
      ReplaceConcat(a', b, pat, rep);
    } else {
      assert a' + b == b;
    }
  }

  /** A match of `pat` at the start of `a + b` that is longer than `a` spans the seam. */
  /** Two texts with the same ending are equal once the ending is removed. */
  lemma SuffixCancel(a: string, b: string, c: string)
    requires a + c == b + c
    ensures a == b
  {
    assert a == (a + c)[..|a|];
    assert b == (b + c)[..|b|];
  }

  lemma SeamInPattern(a: string, b: string, pat: string)
    requires a != [] && StartsWith(a + b, pat) && |a| < |pat|
    ensures a[|a| - 1] in pat && b != [] && b[0] in pat
  {
    assert (a + b)[|a| - 1] == a[|a| - 1];
    assert pat[|a| - 1] == (a + b)[|a| - 1];
    assert (a + b)[|a|] == b[0];
    assert pat[|a|] == (a + b)[|a|];
  }

  lemma PrefixStartsWith(a: string, b: string, pat: string)
    requires StartsWith(a, pat)
    ensures StartsWith(a + b, pat)
  {
    assert (a + b)[..|pat|] == a[..|pat|];
  }

  lemma {:induction false} ReplaceConcatMiss(a: string, b: string, pat: string, rep: string)
    requires pat != [] && a != [] && !StartsWith(a + b, pat)
    requires a[|a| - 1] !in pat || (b != [] && b[0] !in pat)
    ensures ReplaceAll(a + b, pat, rep) == ReplaceAll(a, pat, rep) + ReplaceAll(b, pat, rep)
    decreases |a|, 0
  {
    var n := |pat|;
    var a' := a[1..];
    assert (a + b)[1..] == a' + b;
    if StartsWith(a, pat) {
      PrefixStartsWith(a, b, pat);
      assert false;
    }
    ReplaceMiss(a + b, pat, rep);
    ReplaceMiss(a, pat, rep);
    if a' != [] {
      assert a'[|a'| - 1] == a[|a| - 1];
      ReplaceConcat(a', b, pat, rep);
    } else {
      assert a' + b == b;
    }
  }

  /** Deleting every occurrence never lengthens the text, and shortens it when there is one. */
  lemma {:induction false} DeleteShrinks(s: string, pat: string)
    requires pat != []
    ensures |ReplaceAll(s, pat, "")| <= |s|
    ensures Occurs(s, pat) ==> |ReplaceAll(s, pat, "")| < |s|
    decreases |s|
  {
    if |s| >= |pat| {
      if s[..|pat|] == pat {
        DeleteShrinks(s[|pat|..], pat);
      } else {
        DeleteShrinks(s[1..], pat);
      }
    }
  }

  /** A last character that is not in the pattern survives the deletion of the pattern. */
  lemma LastCharKept(s: string, pat: string)
    requires |pat| > 1 && s != [] && s[|s| - 1] !in pat
    ensures ReplaceAll(s, pat, "") != [] && ReplaceAll(s, pat, "")[|ReplaceAll(s, pat, "")| - 1] == s[|s| - 1]
  {
    var c := s[|s| - 1];
    assert s == s[..|s| - 1] + [c];
    ReplaceConcat(s[..|s| - 1], [c], pat, "");
    ReplaceAbsentShort([c], pat, "");
  }

  /** A pattern one of whose characters never appears in `s` does not occur in `s`. */
  lemma NoCharNoOccur(s: string, pat: string, k: nat)
    requires k < |pat| && pat[k] !in s
    ensures !Occurs(s, pat)
  {
    OccursAt(s, pat);
  }

  /**
   * Python's `s.split(sep, 1)` unpacked into two names: the text before the
   * first `sep` and everything after it, or None when the unpacking raises
   * because `sep` does not occur.
   */
  function SplitFirst(s: string, sep: char): (r: Option<(string, string)>)
    ensures r.None? <==> sep !in s
    ensures r.Some? ==> s == r.value.0 + [sep] + r.value.1 && sep !in r.value.0
  {
    if s == [] then None
    else if s[0] == sep then Some(([], s[1..]))
    else match SplitFirst(s[1..], sep)
      case None => None
      case Some((before, after)) => Some(([s[0]] + before, after))
  }

  /** Splitting `a + [sep] + b` gives back `a` and `b` whenever `a` has no separator. */
  lemma {:induction false} SplitFirstOf(a: string, sep: char, b: string)
    requires sep !in a
    ensures SplitFirst(a + [sep] + b, sep) == Some((a, b))
  {
    if a == [] {
      assert a + [sep] + b == [sep] + b;
    } else {
      assert (a + [sep] + b)[1..] == a[1..] + [sep] + b;
      SplitFirstOf(a[1..], sep, b);
      assert [a[0]] + a[1..] == a;
    }
  }

  predicate AllSlashes(s: string) {
    forall i :: 0 <= i < |s| ==> s[i] == '/'
  }

  /** `p[:p.rfind('/') + 1]`: the text up to and including the last '/'. */
  function DirHead(p: string): (h: string)
    ensures |h| <= |p| && h == p[..|h|]
    ensures h == [] || h[|h| - 1] == '/'
    ensures '/' !in p[|h|..]
  {
    if p == [] then []
    else if p[|p| - 1] == '/' then p
    else DirHead(p[..|p| - 1])
  }

  /** `h.rstrip('/')`. */
  function TrimSlashes(h: string): (t: string)
    ensures |t| <= |h| && t == h[..|t|]
    ensures t == [] || t[|t| - 1] != '/'
    ensures AllSlashes(h[|t|..])
  {
    if h != [] && h[|h| - 1] == '/' then TrimSlashes(h[..|h| - 1]) else h
  }

  /** POSIX `os.path.dirname`. */
  function Dirname(p: string): string {
    var head := DirHead(p);
    if head != [] && !AllSlashes(head) then TrimSlashes(head) else head
  }

  /** POSIX `os.path.join(a, b)` for two components. */
  function Join(a: string, b: string): string {
    if StartsWith(b, "/") then b
    else if a == [] || a[|a| - 1] == '/' then a + b
    else a + "/" + b
  }

  /**
   * The directories `os.makedirs(d)` leaves in place: `d` itself and every
   * prefix of `d` that ends just before a '/'.
   */
  function Ancestors(d: string): set<string> {
    set i | 0 < i <= |d| && (i == |d| || d[i] == '/') :: d[..i]
  }

  predicate AllDigits(s: string) {
    forall i :: 0 <= i < |s| ==> '0' <= s[i] <= '9'
  }

  /** The value of a string of decimal digits. */
  function DigitsValue(s: string): nat
    requires AllDigits(s)
  {
    if s == [] then 0 else DigitsValue(s[..|s| - 1]) * 10 + (s[|s| - 1] as int - '0' as int)
  }

  /** `str(n)` for a non-negative integer: its decimal digits, no leading zeros. */
  function NatToString(n: nat): (s: string)
    ensures s != [] && AllDigits(s)
    ensures |s| > 1 ==> s[0] != '0'
  {
    (if n < 10 then [] else NatToString(n / 10)) + [('0' as int + n % 10) as char]
  }

  /** Reading the digits back gives the number. */
  lemma {:induction false} NatToStringValue(n: nat)
    ensures DigitsValue(NatToString(n)) == n
  {
    var s := NatToString(n);
    assert s[..|s| - 1] == if n < 10 then [] else NatToString(n / 10);
    if n >= 10 {
      NatToStringValue(n / 10);
    }
  }

  /** `str(n)` for any integer. */
  function IntToString(n: int): (s: string)
    ensures s != []
    ensures s[0] == '-' <==> n < 0
  {
    if n < 0 then "-" + NatToString(-n) else NatToString(n)
  }

  lemma NatToStringInjective(a: nat, b: nat)
    requires NatToString(a) == NatToString(b)
    ensures a == b
  {
    NatToStringValue(a);
    NatToStringValue(b);
  }

  /** The digits after the sign of a negative number's string. */
  lemma NegativeDigits(n: int)
    requires n < 0
    ensures IntToString(n)[1..] == NatToString(-n)
  {
    var d := NatToString(-n);
    assert ("-" + d)[1..] == d;
  }

  /** Distinct integers print differently, so `str(int(c))` identifies the class `c`. */
  lemma IntToStringInjective(m: int, n: int)
    requires IntToString(m) == IntToString(n)
    ensures m == n
  {
    if m < 0 {
      NegativeDigits(m);
      NegativeDigits(n);
      NatToStringInjective(-m, -n);
    } else {
      NatToStringInjective(m, n);
    }
  }
}
