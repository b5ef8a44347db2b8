/** Searching and trimming of text. A `string` is a sequence of Unicode scalar values. */
module Text {
  import opened Bytes

  /** `t` occurs in `s` at position `i`. */
  predicate At(s: string, t: string, i: int) { 0 <= i <= |s| - |t| && s[i..i + |t|] == t }

  predicate Contains(s: string, t: string) { exists i :: 0 <= i <= |s| && At(s, t, i) }

  lemma AtTail(s: string, t: string, i: nat)
    requires 1 <= i <= |s|
    ensures At(s, t, i) <==> At(s[1..], t, i - 1)
  {
    if i + |t| <= |s| {
      assert s[1..][i - 1..i - 1 + |t|] == s[i..i + |t|];
    }
  }

  lemma AtInit(s: string, t: string, i: nat)
    requires i + |t| < |s|
    ensures At(s, t, i) <==> At(s[..|s| - 1], t, i)
  {
    assert s[..|s| - 1][i..i + |t|] == s[i..i + |t|];
  }

  /** The first occurrence. */
  function Find(s: string, t: string): (r: Option<nat>)
    ensures r.Some? ==> At(s, t, r.value)
    ensures forall i :: 0 <= i <= |s| && At(s, t, i) ==> r.Some? && r.value <= i
    decreases |s|
  {
    if At(s, t, 0) then Some(0)
    else if s == [] then None
    else
      assert forall i :: 1 <= i <= |s| && At(s, t, i) ==> At(s[1..], t, i - 1) by {
        forall i | 1 <= i <= |s| && At(s, t, i) ensures At(s[1..], t, i - 1) { AtTail(s, t, i); }
      }
      var r := Find(s[1..], t);
      if r.None? then None
      else
        AtTail(s, t, r.value + 1);
        Some(r.value + 1)
  }

  /** The last occurrence. */
  function RFind(s: string, t: string): (r: Option<nat>)
    ensures r.Some? ==> At(s, t, r.value)
    ensures forall i :: 0 <= i <= |s| && At(s, t, i) ==> r.Some? && i <= r.value
    decreases |s|
  {
    if At(s, t, |s| - |t|) then Some(|s| - |t|)
    else if s == [] then None
    else
      var p := s[..|s| - 1];
      assert forall i :: 0 <= i <= |s| && At(s, t, i) ==> At(p, t, i) by {
        forall i | 0 <= i <= |s| && At(s, t, i) ensures At(p, t, i) { AtInit(s, t, i); }
      }
      var r := RFind(p, t);
      if r.Some? then
        AtInit(s, t, r.value);
        r
      else None
  }

  lemma FindIffContains(s: string, t: string)
    ensures Find(s, t).Some? <==> Contains(s, t)
  {
    var r := Find(s, t);
    assert r.Some? ==> r.value <= |s|;
  }

  /** The Unicode White_Space property. */
  predicate IsSpace(c: char) {
    var n := c as int;
    || 0x09 <= n <= 0x0D || n == 0x20 || n == 0x85 || n == 0xA0 || n == 0x1680
    || 0x2000 <= n <= 0x200A || n == 0x2028 || n == 0x2029 || n == 0x202F || n == 0x205F || n == 0x3000
  }

  function TrimStart(s: string): (r: string)
    ensures |r| <= |s| && (r == [] || !IsSpace(r[0]))
  {
    if s != [] && IsSpace(s[0]) then TrimStart(s[1..]) else s
  }

  function TrimEnd(s: string): (r: string)
    ensures |r| <= |s| && (r == [] || !IsSpace(r[|r| - 1]))
  {
    if s != [] && IsSpace(s[|s| - 1]) then TrimEnd(s[..|s| - 1]) else s
  }

  lemma {:induction false} TrimStartIs(s: string)
    ensures var r := TrimStart(s); r == s[|s| - |r|..] && forall i :: 0 <= i < |s| - |r| ==> IsSpace(s[i])
  {
    if s != [] && IsSpace(s[0]) {
      TrimStartIs(s[1..]);
      var r := TrimStart(s);
      forall i | 0 <= i < |s| - |r| ensures IsSpace(s[i]) {
        if i > 0 { assert s[i] == s[1..][i - 1]; }
      }
    }
  }

  lemma {:induction false} TrimEndIs(s: string)
    ensures var r := TrimEnd(s); r == s[..|r|] && forall i :: |r| <= i < |s| ==> IsSpace(s[i])
  {
    if s != [] && IsSpace(s[|s| - 1]) { TrimEndIs(s[..|s| - 1]); }
  }

  function Trim(s: string): string { TrimEnd(TrimStart(s)) }

  predicate Trimmed(s: string) { s == [] || (!IsSpace(s[0]) && !IsSpace(s[|s| - 1])) }

  lemma TrimIsTrimmed(s: string)
    ensures Trimmed(Trim(s))
    ensures Trimmed(s) ==> Trim(s) == s
  {
    TrimStartIs(s);
    TrimEndIs(TrimStart(s));
  }

  /** Trimming cuts a slice out of the text. */
  lemma TrimIsSlice(s: string) returns (lo: nat, hi: nat)
    ensures lo <= hi <= |s| && Trim(s) == s[lo..hi]
  {
    TrimStartIs(s);
    TrimEndIs(TrimStart(s));
    lo := |s| - |TrimStart(s)|;
    hi := lo + |Trim(s)|;
  }

  lemma {:induction false} TrimStartPadded(pre: string, s: string)
    requires s != [] && !IsSpace(s[0]) && forall i :: 0 <= i < |pre| ==> IsSpace(pre[i])
    ensures TrimStart(pre + s) == s
  {
    if pre == [] {
      assert pre + s == s;
    } else {
      assert (pre + s)[1..] == pre[1..] + s;
      TrimStartPadded(pre[1..], s);
    }
  }

  lemma {:induction false} TrimEndPadded(s: string, post: string)
    requires s != [] && !IsSpace(s[|s| - 1]) && forall i :: 0 <= i < |post| ==> IsSpace(post[i])
    ensures TrimEnd(s + post) == s
  {
    if post == [] {
      assert s + post == s;
    } else {
      assert (s + post)[..|s + post| - 1] == s + post[..|post| - 1];
      TrimEndPadded(s, post[..|post| - 1]);
    }
  }

  /** Padding with white space does not survive a trim. */
  lemma TrimPadded(pre: string, s: string, post: string)
    requires Trimmed(s) && s != []
    requires forall i :: 0 <= i < |pre| ==> IsSpace(pre[i])
    requires forall i :: 0 <= i < |post| ==> IsSpace(post[i])
    ensures Trim(pre + s + post) == s
  {
    assert pre + s + post == pre + (s + post);
    TrimStartPadded(pre, s + post);
    TrimEndPadded(s, post);
  }

  /** An occurrence inside a slice is one of the whole. */
  lemma ContainsSlice(s: string, lo: nat, hi: nat, t: string)
    requires lo <= hi <= |s| && Contains(s[lo..hi], t)
    ensures Contains(s, t)
  {
    var m := s[lo..hi];
    var i :| 0 <= i <= |m| && At(m, t, i);
    var j := lo + i;
    assert j + |t| <= hi;
    forall k | 0 <= k < |t| ensures s[j..j + |t|][k] == t[k] {
      assert m[i..i + |t|][k] == m[i + k] == s[lo + (i + k)];
    }
    assert s[j..j + |t|] == t;
    assert At(s, t, j);
  }

  lemma ContainsTail(s: string, k: nat, t: string)
    requires k <= |s| && Contains(s[k..], t)
    ensures Contains(s, t)
  {
    assert s[k..] == s[k..|s|];
    ContainsSlice(s, k, |s|, t);
  }

  lemma AtSuffix(s: string, lo: nat, t: string, i: nat)
    requires lo <= i && At(s, t, i)
    ensures At(s[lo..], t, i - lo)
  {
    var m, k := s[lo..], i - lo;
    assert k + |t| <= |m|;
    forall j | 0 <= j < |t| ensures m[k..k + |t|][j] == t[j] {
      assert m[k..k + |t|][j] == m[k + j] == s[i + j] == s[i..i + |t|][j];
    }
  }

  /** A needle without the separating character occurs on one side of it. */
  lemma ContainsAcross(a: string, c: char, b: string, t: string)
    requires Contains(a + [c] + b, t)
    ensures Contains(a, t) || Contains(b, t) || c in t
  {
    var s := a + [c] + b;
    var i :| 0 <= i <= |s| && At(s, t, i);
    if i + |t| <= |a| {
      assert a[i..i + |t|] == s[i..i + |t|];
      assert At(a, t, i);
    } else if i > |a| {
      assert b == s[|a| + 1..];
      AtSuffix(s, |a| + 1, t, i);
    } else {
      assert s[i..i + |t|][|a| - i] == c;
    }
  }

  // ---------------------------------------------------------------- decimal numbers

  function Digit(d: nat): char
    requires d < 10
  { ['0', '1', '2', '3', '4', '5', '6', '7', '8', '9'][d] }

  function Decimal(n: nat): (r: string)
    ensures |r| >= 1
  {
    if n < 10 then [Digit(n)] else Decimal(n / 10) + [Digit(n % 10)]
  }

  function Pow10(k: nat): nat { if k == 0 then 1 else 10 * Pow10(k - 1) }

  lemma {:induction false} DecimalLength(n: nat, k: nat)
    requires k >= 1
    ensures |Decimal(n)| <= k <==> n < Pow10(k)
  {
    if n < 10 {
      assert Pow10(k) >= 10 by { PowAtLeastTen(k); }
    } else if k == 1 {
      assert Pow10(1) == 10 * Pow10(0);
    } else {
      DecimalLength(n / 10, k - 1);
    }
  }

  lemma {:induction false} PowAtLeastTen(k: nat)
    requires k >= 1
    ensures Pow10(k) >= 10
  {
    if k > 1 { PowAtLeastTen(k - 1); }
  }
}
