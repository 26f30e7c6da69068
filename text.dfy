/**
 * String operations the source relies on: `includes`, `startsWith`, number
 * formatting inside template literals, and `toLowerCase`.
 */
module Text {

  /** `t` occurs in `s` starting at index `i`. */
  predicate OccursAt(s: string, t: string, i: int)
  {
    0 <= i && i + |t| <= |s| && s[i..i + |t|] == t
  }

  /** JavaScript's `s.includes(t)`. */
  predicate Contains(s: string, t: string)
  {
    exists i :: 0 <= i <= |s| - |t| && OccursAt(s, t, i)
  }

  /** JavaScript's `s.startsWith(p)`. */
  predicate StartsWith(s: string, p: string)
  {
    |p| <= |s| && s[..|p|] == p
  }

  lemma ContainsAt(s: string, t: string, i: int)
    requires OccursAt(s, t, i)
    ensures Contains(s, t)
  {
  }

  /** An occurrence in the left part is an occurrence in the whole. */
  lemma ContainsLeft(a: string, b: string, t: string)
    requires Contains(a, t)
    ensures Contains(a + b, t)
  {
    var i :| 0 <= i <= |a| - |t| && OccursAt(a, t, i);
    assert (a + b)[i..i + |t|] == a[i..i + |t|];
    ContainsAt(a + b, t, i);
  }

  /** An occurrence in the right part is an occurrence in the whole. */
  lemma ContainsRight(a: string, b: string, t: string)
    requires Contains(b, t)
    ensures Contains(a + b, t)
  {
    var i :| 0 <= i <= |b| - |t| && OccursAt(b, t, i);
    assert (a + b)[|a| + i..|a| + i + |t|] == b[i..i + |t|];
    ContainsAt(a + b, t, |a| + i);
  }

  /** A string that lacks one of the characters of `t` does not contain `t`. */
  lemma {:induction false} MissingChar(s: string, t: string, j: nat)
    requires j < |t| && t[j] !in s
    ensures !Contains(s, t)
  {
    forall i | 0 <= i <= |s| - |t|
      ensures !OccursAt(s, t, i)
    {
      assert s[i..i + |t|][j] == s[i + j];
    }
  }

  /**
   * When the character `t[j]` occurs in `a + [c] + b` only at the separator,
   * the only place `t` could occur is the window that aligns the two; if that
   * window differs from `t`, then `t` does not occur at all.
   */
  lemma {:induction false} AnchoredAbsent(a: string, c: char, b: string, t: string, j: nat)
    requires j < |t| && t[j] == c && c !in a && c !in b
    requires j <= |a| && |a| - j + |t| <= |a| + 1 + |b| ==> (a + [c] + b)[|a| - j..|a| - j + |t|] != t
    ensures !Contains(a + [c] + b, t)
  {
    var s := a + [c] + b;
    forall i | 0 <= i <= |s| - |t|
      ensures !OccursAt(s, t, i)
    {
      if i + j < |a| {
        assert s[i..i + |t|][j] == a[i + j];
      } else if i + j > |a| {
        assert s[i..i + |t|][j] == b[i + j - |a| - 1];
      }
    }
  }

  /**
   * A prefix that ends in a space and lacks one of the characters of a
   * space-free word cannot hold any part of an occurrence of that word: the
   * word occurs in `p + s` exactly when it occurs in `s`.
   */
  lemma {:induction false} ContainsAfterSpacedPrefix(p: string, s: string, t: string, j: nat)
    requires |p| > 0 && p[|p| - 1] == ' '
    requires ' ' !in t
    requires j < |t| && t[j] !in p
    ensures Contains(p + s, t) <==> Contains(s, t)
  {
    var w := p + s;
    forall i | 0 <= i < |p| && i <= |w| - |t|
      ensures !OccursAt(w, t, i)
    {
      if i + |t| <= |p| {
        assert w[i..i + |t|][j] == p[i + j];
      } else {
        assert w[i..i + |t|][|p| - 1 - i] == p[|p| - 1];
      }
    }
    if Contains(w, t) {
      var i :| 0 <= i <= |w| - |t| && OccursAt(w, t, i);
      assert i >= |p|;
      assert s[i - |p|..i - |p| + |t|] == w[i..i + |t|];
      ContainsAt(s, t, i - |p|);
    }
    if Contains(s, t) {
      ContainsRight(p, s, t);
    }
  }

  predicate IsDigit(c: char)
  {
    '0' <= c <= '9'
  }

  /** Decimal digits of a natural number, as `String(n)` prints them. */
  function NatToString(n: nat): (r: string)
    ensures |r| > 0
    ensures forall k :: 0 <= k < |r| ==> IsDigit(r[k])
  {
    var d := [(n % 10) as char + '0'];
    if n < 10 then d else NatToString(n / 10) + d
  }

  /** `String(n)` for an integer: a leading `-` for negative values. */
  function IntToString(n: int): (r: string)
    ensures |r| > 0
    ensures n >= 0 ==> r == NatToString(n)
    ensures n < 0 ==> r[0] == '-'
  {
    if n < 0 then "-" + NatToString(-n) else NatToString(n)
  }

  /** A string of digits contains no letter other than digits. */
  lemma DigitsLack(n: nat, c: char)
    requires !IsDigit(c)
    ensures c !in NatToString(n)
  {
  }

  function LowerChar(c: char): char
  {
    if 'A' <= c <= 'Z' then (c as int + 32) as char else c
  }

  /** `toLowerCase` restricted to the ASCII letters. */
  function Lower(s: string): (r: string)
    ensures |r| == |s|
    ensures forall k :: 0 <= k < |s| ==> r[k] == LowerChar(s[k])
  {
    if s == [] then [] else [LowerChar(s[0])] + Lower(s[1..])
  }
}
