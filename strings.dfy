/**
 * The few JavaScript string operations the site's helpers use: `indexOf`
 * of a character, `startsWith`, `includes`, `toLowerCase` and `trim`.
 */
module Strings {

  /** `s.indexOf(c)`: the first index holding `c`, or -1 when there is none. */
  function IndexOf(s: string, c: char): (r: int)
    ensures -1 <= r < |s|
    ensures r == -1 <==> c !in s
    ensures r >= 0 ==> s[r] == c && c !in s[..r]
  {
    if |s| == 0 then -1
    else if s[0] == c then 0
    else
      var j := IndexOf(s[1..], c);
      if j == -1 then -1
      else
        assert s[..j + 1] == [s[0]] + s[1..][..j];
        j + 1
  }

  /** `s.startsWith(prefix)`. */
  predicate StartsWith(s: string, prefix: string): (r: bool)
    ensures r <==> exists rest :: s == prefix + rest
  {
    if |prefix| <= |s| && s[..|prefix|] == prefix then
      assert s == prefix + s[|prefix|..];
      true
    else
      false
  }

  /** `sub` occurs in `s` starting at index `i`. */
  predicate OccursAt(s: string, sub: string, i: int)
  {
    0 <= i && i + |sub| <= |s| && s[i..i + |sub|] == sub
  }

  /** Past the first character, `sub` occurs in `s` where it occurs in the rest of `s`, one position on. */
  lemma OccursAtTail(s: string, sub: string, i: int)
    requires |s| > 0 && i >= 1
    ensures OccursAt(s, sub, i) <==> OccursAt(s[1..], sub, i - 1)
  {
    if i + |sub| <= |s| {
      var a := s[i..i + |sub|];
      var b := s[1..][i - 1..i - 1 + |sub|];
      forall k | 0 <= k < |a|
        ensures a[k] == b[k]
      {
        assert a[k] == s[i + k];
      }
      assert a == b;
    }
  }

  /** `s.includes(sub)`, by trying each starting position in turn. */
  function Contains(s: string, sub: string): (r: bool)
    ensures r <==> exists i :: OccursAt(s, sub, i)
    decreases |s|
  {
    if StartsWith(s, sub) then
      assert OccursAt(s, sub, 0);
      true
    else if |s| == 0 then
      assert forall i :: !OccursAt(s, sub, i);
      false
    else
      var r := Contains(s[1..], sub);
      assert forall i :: OccursAt(s[1..], sub, i) ==> OccursAt(s, sub, i + 1) by {
        forall i | OccursAt(s[1..], sub, i)
          ensures OccursAt(s, sub, i + 1)
        {
          OccursAtTail(s, sub, i + 1);
        }
      }
      assert forall i :: OccursAt(s, sub, i) ==> OccursAt(s[1..], sub, i - 1) by {
        forall i | OccursAt(s, sub, i)
          ensures OccursAt(s[1..], sub, i - 1)
        {
          assert i != 0;
          OccursAtTail(s, sub, i);
        }
      }
      r
  }

  /** `toLowerCase` of one character: the ASCII capitals map to their small letters. */
  function LowerChar(c: char): (r: char)
    ensures 'A' <= c <= 'Z' ==> r as int == c as int + 32
    ensures !('A' <= c <= 'Z') ==> r == c
    ensures !('A' <= r <= 'Z')
  {
    if 'A' <= c <= 'Z' then (c as int + 32) as char else c
  }

  /** `s.toLowerCase()`, character by character. */
  function ToLower(s: string): (r: string)
    ensures |r| == |s|
    ensures forall i :: 0 <= i < |s| ==> r[i] == LowerChar(s[i])
  {
    if |s| == 0 then [] else [LowerChar(s[0])] + ToLower(s[1..])
  }

  /** Lower-casing a lower-cased string changes nothing. */
  lemma ToLowerIdempotent(s: string)
    ensures ToLower(ToLower(s)) == ToLower(s)
  {
    assert forall i :: 0 <= i < |s| ==> ToLower(ToLower(s))[i] == ToLower(s)[i];
  }

  /** Lower-casing works piece by piece. */
  lemma ToLowerAppend(a: string, b: string)
    ensures ToLower(a + b) == ToLower(a) + ToLower(b)
  {
    assert forall i :: 0 <= i < |a + b| ==> ToLower(a + b)[i] == (ToLower(a) + ToLower(b))[i];
  }

  /**
   * The characters `trim` removes: the WhiteSpace code points of section
   * 12.2 of ECMA-262 (tab, vertical tab, form feed, space, no-break space,
   * the byte order mark and the other space separators of Unicode category
   * Zs) and the LineTerminator code points of section 12.3.
   */
  predicate IsWhitespace(c: char)
  {
    || c == '\t' || c == '\U{000B}' || c == '\U{000C}' || c == ' ' || c == '\U{00A0}' || c == '\U{FEFF}'
    || c == '\n' || c == '\r' || c == '\U{2028}' || c == '\U{2029}'
    || c == '\U{1680}' || ('\U{2000}' <= c <= '\U{200A}') || c == '\U{202F}' || c == '\U{205F}' || c == '\U{3000}'
  }

  predicate AllWhitespace(s: string)
  {
    forall i :: 0 <= i < |s| ==> IsWhitespace(s[i])
  }


  /** The length of the run of whitespace that starts at index `i`. */
  function WhitespaceRunFrom(s: string, i: nat): (n: nat)
    requires i <= |s|
    ensures i + n <= |s|
    ensures forall k :: i <= k < i + n ==> IsWhitespace(s[k])
    ensures i + n < |s| ==> !IsWhitespace(s[i + n])
    decreases |s| - i
  {
    if i < |s| && IsWhitespace(s[i]) then 1 + WhitespaceRunFrom(s, i + 1) else 0
  }

  /** The length of the run of whitespace that ends just before index `j`. */
  function WhitespaceRunBefore(s: string, j: nat): (n: nat)
    requires j <= |s|
    ensures n <= j
    ensures forall k :: j - n <= k < j ==> IsWhitespace(s[k])
    ensures n < j ==> !IsWhitespace(s[j - n - 1])
  {
    if j > 0 && IsWhitespace(s[j - 1]) then 1 + WhitespaceRunBefore(s, j - 1) else 0
  }

  /** How many whitespace characters `s` starts with. */
  function LeadingWhitespace(s: string): (n: nat)
    ensures n <= |s|
    ensures forall i :: 0 <= i < n ==> IsWhitespace(s[i])
    ensures n < |s| ==> !IsWhitespace(s[n])
  {
    WhitespaceRunFrom(s, 0)
  }

  /** How many whitespace characters `s` ends with. */
  function TrailingWhitespace(s: string): (n: nat)
    ensures n <= |s|
    ensures forall i :: |s| - n <= i < |s| ==> IsWhitespace(s[i])
    ensures n < |s| ==> !IsWhitespace(s[|s| - n - 1])
  {
    WhitespaceRunBefore(s, |s|)
  }

  /** The leading-whitespace count is the only count with its two properties. */
  lemma LeadingWhitespaceUnique(s: string, n: nat)
    requires n <= |s|
    requires forall i :: 0 <= i < n ==> IsWhitespace(s[i])
    requires n < |s| ==> !IsWhitespace(s[n])
    ensures LeadingWhitespace(s) == n
  {
  }

  /** The trailing-whitespace count is the only count with its two properties. */
  lemma TrailingWhitespaceUnique(s: string, n: nat)
    requires n <= |s|
    requires forall i :: |s| - n <= i < |s| ==> IsWhitespace(s[i])
    requires n < |s| ==> !IsWhitespace(s[|s| - n - 1])
    ensures TrailingWhitespace(s) == n
  {
  }

  /**
   * `s.trim()`: the slice of `s` that starts after its leading whitespace,
   * is followed only by whitespace, and neither starts nor ends with
   * whitespace itself.
   */
  function Trim(s: string): (r: string)
    ensures |r| <= |s|
    ensures LeadingWhitespace(s) + |r| <= |s|
    ensures r == s[LeadingWhitespace(s)..LeadingWhitespace(s) + |r|]
    ensures forall k :: LeadingWhitespace(s) + |r| <= k < |s| ==> IsWhitespace(s[k])
    ensures r != [] ==> !IsWhitespace(r[0]) && !IsWhitespace(r[|r| - 1])
  {
    var m := LeadingWhitespace(s);
    if m == |s| then [] else s[m..|s| - TrailingWhitespace(s)]
  }

  /** A string is its leading whitespace, its trim and its trailing whitespace, in that order. */
  lemma TrimSplits(s: string)
    ensures s == s[..LeadingWhitespace(s)] + Trim(s) + s[LeadingWhitespace(s) + |Trim(s)|..]
    ensures AllWhitespace(s[..LeadingWhitespace(s)])
    ensures AllWhitespace(s[LeadingWhitespace(s) + |Trim(s)|..])
  {
    var m, r := LeadingWhitespace(s), Trim(s);
    assert s == s[..m] + s[m..m + |r|] + s[m + |r|..];
  }

  /**
   * `trim` returns the core of whitespace, a core that neither starts nor
   * ends with whitespace, and whitespace.
   */
  lemma TrimFindsCore(p: string, core: string, q: string)
    requires AllWhitespace(p) && AllWhitespace(q)
    requires core == [] || (!IsWhitespace(core[0]) && !IsWhitespace(core[|core| - 1]))
    ensures Trim(p + core + q) == core
  {
    var s := p + core + q;
    if core == [] {
      assert forall i :: 0 <= i < |s| ==> IsWhitespace(s[i]) by {
        forall i | 0 <= i < |s| ensures IsWhitespace(s[i]) {
          if i < |p| { assert s[i] == p[i]; } else { assert s[i] == q[i - |p|]; }
        }
      }
      LeadingWhitespaceUnique(s, |s|);
    } else {
      assert forall i :: 0 <= i < |p| ==> IsWhitespace(s[i]) by {
        forall i | 0 <= i < |p| ensures IsWhitespace(s[i]) {
          assert s[i] == p[i];
        }
      }
      assert s[|p|] == core[0];
      LeadingWhitespaceUnique(s, |p|);
      assert forall i :: |s| - |q| <= i < |s| ==> IsWhitespace(s[i]) by {
        forall i | |s| - |q| <= i < |s| ensures IsWhitespace(s[i]) {
          assert s[i] == q[i - |p| - |core|];
        }
      }
      assert s[|s| - |q| - 1] == core[|core| - 1];
      TrailingWhitespaceUnique(s, |q|);
      assert s[|p|..|s| - |q|] == core;
    }
  }

  /** The trimmed string neither starts nor ends with whitespace, so trimming it again changes nothing. */
  lemma TrimIdempotent(t: string)
    ensures Trim(t) == [] || (!IsWhitespace(Trim(t)[0]) && !IsWhitespace(Trim(t)[|Trim(t)| - 1]))
    ensures Trim(Trim(t)) == Trim(t)
  {
    var core := Trim(t);
    if core != [] {
      assert core[0] == t[LeadingWhitespace(t)];
      assert core[|core| - 1] == t[|t| - TrailingWhitespace(t) - 1];
    }
    assert [] + core + [] == core;
    TrimFindsCore([], core, []);
  }

  /** In `p + t + q`, the leading whitespace is `p`'s and `t`'s. */
  lemma LeadingThroughPadding(p: string, t: string, q: string)
    requires AllWhitespace(p)
    requires LeadingWhitespace(t) < |t|
    ensures LeadingWhitespace(p + t + q) == |p| + LeadingWhitespace(t)
  {
    var s := p + t + q;
    var m := LeadingWhitespace(t);
    forall i | 0 <= i < |p| + m
      ensures IsWhitespace(s[i])
    {
      if i < |p| { assert s[i] == p[i]; } else { assert s[i] == t[i - |p|]; }
    }
    assert s[|p| + m] == t[m];
    LeadingWhitespaceUnique(s, |p| + m);
  }

  /** In `p + t + q`, the trailing whitespace is `t`'s and `q`'s. */
  lemma TrailingThroughPadding(p: string, t: string, q: string)
    requires AllWhitespace(q)
    requires TrailingWhitespace(t) < |t|
    ensures TrailingWhitespace(p + t + q) == TrailingWhitespace(t) + |q|
  {
    var s := p + t + q;
    var n := TrailingWhitespace(t);
    forall i | |s| - (n + |q|) <= i < |s|
      ensures IsWhitespace(s[i])
    {
      if i < |p| + |t| { assert s[i] == t[i - |p|]; } else { assert s[i] == q[i - |p| - |t|]; }
    }
    assert s[|s| - (n + |q|) - 1] == t[|t| - n - 1];
    TrailingWhitespaceUnique(s, n + |q|);
  }

  /** A string made only of whitespace, with whitespace around it, trims to nothing. */
  lemma TrimAllWhitespace(p: string, t: string, q: string)
    requires AllWhitespace(p) && AllWhitespace(q)
    requires LeadingWhitespace(t) == |t|
    ensures Trim(p + t + q) == [] && Trim(t) == []
  {
    var s := p + t + q;
    forall i | 0 <= i < |s|
      ensures IsWhitespace(s[i])
    {
      if i < |p| { assert s[i] == p[i]; }
      else if i < |p| + |t| { assert s[i] == t[i - |p|]; }
      else { assert s[i] == q[i - |p| - |t|]; }
    }
    LeadingWhitespaceUnique(s, |s|);
  }

  /** Trimming keeps what lies between the leading whitespace and the start `e` of the trailing whitespace. */
  lemma TrimBetween(s: string, m: nat, e: nat)
    requires LeadingWhitespace(s) == m < |s|
    requires e <= |s| && TrailingWhitespace(s) == |s| - e
    ensures m <= e && Trim(s) == s[m..e]
  {
    assert !IsWhitespace(s[m]);
  }

  /** A slice of `t` is the same slice of `p + t + q`, shifted past `p`. */
  lemma SliceThroughPadding(p: string, t: string, q: string, i: nat, j: nat)
    requires i <= j <= |t|
    ensures (p + t + q)[|p| + i..|p| + j] == t[i..j]
  {
    var a := (p + t + q)[|p| + i..|p| + j];
    var b := t[i..j];
    forall k | 0 <= k < |b|
      ensures a[k] == b[k]
    {
      assert a[k] == (p + t + q)[|p| + i + k];
    }
  }

  /** Trimming `p + t + q`, where `t` is not all whitespace, keeps the core of `t` found past `p`. */
  lemma TrimOfPadded(p: string, t: string, q: string, m: nat, n: nat)
    requires AllWhitespace(p) && AllWhitespace(q)
    requires m == LeadingWhitespace(t) < |t| && n == TrailingWhitespace(t)
    ensures m <= |t| - n
    ensures Trim(p + t + q) == (p + t + q)[|p| + m..|p| + (|t| - n)]
  {
    assert n < |t| by {
      assert !IsWhitespace(t[m]);
    }
    var s := p + t + q;
    assert LeadingWhitespace(s) == |p| + m && TrailingWhitespace(s) == n + |q| by {
      LeadingThroughPadding(p, t, q);
      TrailingThroughPadding(p, t, q);
    }
    TrimBetween(s, |p| + m, |p| + (|t| - n));
  }

  /** Whitespace added around a string does not change what `trim` returns. */
  lemma TrimIgnoresPadding(p: string, t: string, q: string)
    requires AllWhitespace(p) && AllWhitespace(q)
    ensures Trim(p + t + q) == Trim(t)
  {
    var m := LeadingWhitespace(t);
    var n := TrailingWhitespace(t);
    if m == |t| {
      TrimAllWhitespace(p, t, q);
    } else {
      TrimOfPadded(p, t, q, m, n);
      SliceThroughPadding(p, t, q, m, |t| - n);
      TrimBetween(t, m, |t| - n);
    }
  }
}
