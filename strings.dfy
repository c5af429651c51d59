/** The string operations of Python that the encoders rely on, each written
    out with the meaning Python gives it: str.rjust and str.ljust (pad, never
    truncate), s[-n:], str.replace with and without a count, str.isdigit,
    str(n) on a natural number, int(s) on a digit string, s[::-1], and the
    ordering < of str (lexicographic by code point). */
module Strings {

  predicate IsDigit(c: char) { '0' <= c <= '9' }

  /** Every character is a decimal digit (the empty string included). */
  predicate OnlyDigits(s: string) { forall c :: c in s ==> IsDigit(c) }

  /** str.isdigit(): non-empty and nothing but digits. */
  predicate IsDigitString(s: string) { |s| > 0 && OnlyDigits(s) }

  function DigitValue(c: char): (d: nat)
    requires IsDigit(c)
    ensures d < 10
  {
    (c as int) - ('0' as int)
  }

  function DigitChar(d: nat): (c: char)
    requires d < 10
    ensures IsDigit(c) && DigitValue(c) == d
  {
    (('0' as int) + d) as char
  }

  function Pow10(k: nat): (p: nat)
    ensures p >= 1
  {
    if k == 0 then 1 else 10 * Pow10(k - 1)
  }

  /** str(n) for a natural number: its decimal digits, without leading zero. */
  function Str(n: nat): (s: string)
    ensures IsDigitString(s)
    ensures |s| > 1 ==> s[0] != '0'
    decreases n
  {
    if n < 10 then [DigitChar(n)] else Str(n / 10) + [DigitChar(n % 10)]
  }

  /** int(s) for a string of digits (0 for the empty string). */
  function DecimalValue(s: string): nat
    requires OnlyDigits(s)
  {
    if s == [] then 0
    else
      assert s[|s| - 1] in s;
      10 * DecimalValue(s[..|s| - 1]) + DigitValue(s[|s| - 1])
  }

  /** Index-wise digits are digits by membership, and no hyphen among them. */
  lemma DigitsFromIndices(s: string)
    requires forall i :: 0 <= i < |s| ==> IsDigit(s[i])
    ensures OnlyDigits(s) && '-' !in s
  {
  }

  lemma DigitAt(s: string, i: int)
    requires OnlyDigits(s) && 0 <= i < |s|
    ensures IsDigit(s[i])
  {
    assert s[i] in s;
  }

  /** The two-digit, zero-filled form of a number below 100 ("%02d"). */
  function Pad2(k: nat): (s: string)
    requires k < 100
    ensures |s| == 2 && IsDigitString(s) && DecimalValue(s) == k
  {
    var s := [DigitChar(k / 10), DigitChar(k % 10)];
    assert s[..1] == [DigitChar(k / 10)] && [DigitChar(k / 10)][..0] == [];
    assert DecimalValue(s[..1]) == k / 10;
    s
  }

  /** int(str(n)) == n */
  lemma {:induction false} StrValue(n: nat)
    ensures DecimalValue(Str(n)) == n
    decreases n
  {
    if n >= 10 {
      StrValue(n / 10);
      var s := Str(n);
      assert s[..|s| - 1] == Str(n / 10);
    } else {
      assert Str(n)[..0] == [];
    }
  }

  /** str(n) has at most k digits exactly when n < 10^k. */
  lemma {:induction false} StrLength(n: nat, k: nat)
    requires k >= 1
    ensures |Str(n)| <= k <==> n < Pow10(k)
    decreases n
  {
    if n < 10 {
      Pow10AtLeast10(k);
    } else if k == 1 {
      assert |Str(n)| == |Str(n / 10)| + 1;
    } else {
      StrLength(n / 10, k - 1);
      assert |Str(n)| == |Str(n / 10)| + 1;
      assert n / 10 < Pow10(k - 1) <==> n < 10 * Pow10(k - 1);
    }
  }

  lemma {:induction false} Pow10AtLeast10(k: nat)
    requires k >= 1
    ensures Pow10(k) >= 10
  {
    if k > 1 { Pow10AtLeast10(k - 1); }
  }

  /** For n >= 100, str(n) is str(n / 100) followed by the two-digit form of n % 100. */
  lemma StrHundreds(n: nat)
    requires n >= 100
    ensures Str(n) == Str(n / 100) + Pad2(n % 100)
  {
    assert n / 10 >= 10;
    assert (n / 10) / 10 == n / 100;
    assert (n / 10) % 10 == (n % 100) / 10;
    assert n % 10 == (n % 100) % 10;
  }

  /** Leading zeros do not change the value of a digit string. */
  lemma {:induction false} LeadingZerosValue(k: nat, s: string)
    requires OnlyDigits(s)
    ensures OnlyDigits(seq(k, _ => '0') + s)
    ensures DecimalValue(seq(k, _ => '0') + s) == DecimalValue(s)
    decreases |s|
  {
    var z := seq(k, _ => '0');
    var t := z + s;
    assert forall c :: c in t ==> c in z || c in s;
    if s == [] {
      assert t == z;
      ZerosValue(k);
    } else {
      var s' := s[..|s| - 1];
      assert forall c :: c in s' ==> c in s;
      LeadingZerosValue(k, s');
      assert t[..|t| - 1] == z + s';
    }
  }

  lemma {:induction false} ZerosValue(k: nat)
    ensures OnlyDigits(seq(k, _ => '0'))
    ensures DecimalValue(seq(k, _ => '0')) == 0
  {
    if k > 0 {
      ZerosValue(k - 1);
      assert seq(k, _ => '0')[..k - 1] == seq(k - 1, _ => '0');
    }
  }

  /** s.rjust(width, fill): fill characters on the left up to width; s is never cut. */
  function RJust(s: string, width: nat, fill: char): (r: string)
    ensures |r| == if |s| < width then width else |s|
    ensures r[|r| - |s|..] == s
    ensures forall i :: 0 <= i < |r| - |s| ==> r[i] == fill
  {
    if |s| < width then seq(width - |s|, _ => fill) + s else s
  }

  /** s.ljust(width, fill): fill characters on the right up to width; s is never cut. */
  function LJust(s: string, width: nat, fill: char): (r: string)
    ensures |r| == if |s| < width then width else |s|
    ensures r[..|s|] == s
    ensures forall i :: |s| <= i < |r| ==> r[i] == fill
  {
    if |s| < width then s + seq(width - |s|, _ => fill) else s
  }

  /** Zero-filling a digit string keeps it a digit string of the same value. */
  lemma ZeroFillValue(s: string, width: nat)
    requires OnlyDigits(s)
    ensures OnlyDigits(RJust(s, width, '0'))
    ensures DecimalValue(RJust(s, width, '0')) == DecimalValue(s)
  {
    if |s| < width {
      LeadingZerosValue(width - |s|, s);
    }
  }

  /** s[-n:] for n > 0: the last n characters, or all of s when it is shorter. */
  function Tail(s: string, n: nat): (r: string)
    requires n > 0
    ensures |r| == if |s| < n then |s| else n
    ensures r == s[|s| - |r|..]
  {
    if |s| <= n then s else s[|s| - n..]
  }

  /** s.replace(c, ''): every c deleted, the other characters kept in order. */
  function RemoveAll(s: string, c: char): (r: string)
    ensures forall x :: x in r ==> x in s && x != c
    ensures |r| <= |s|
  {
    if s == [] then []
    else RemoveAll(s[..|s| - 1], c) + (if s[|s| - 1] == c then [] else [s[|s| - 1]])
  }

  /** What s.replace(c, '') keeps: exactly the characters of s other than c. */
  lemma {:induction false} RemoveAllMembers(s: string, c: char)
    ensures forall x :: x in RemoveAll(s, c) <==> x in s && x != c
    decreases |s|
  {
    if s != [] {
      var s' := s[..|s| - 1];
      RemoveAllMembers(s', c);
      assert s == s' + [s[|s| - 1]];
    }
  }

  lemma {:induction false} RemoveAllConcat(a: string, b: string, c: char)
    ensures RemoveAll(a + b, c) == RemoveAll(a, c) + RemoveAll(b, c)
    decreases |b|
  {
    if b != [] {
      var b' := b[..|b| - 1];
      assert (a + b)[..|a + b| - 1] == a + b';
      RemoveAllConcat(a, b', c);
    } else {
      assert a + b == a;
    }
  }

  /** Deleting c from a string without c changes nothing. */
  lemma {:induction false} RemoveAllAbsent(s: string, c: char)
    requires c !in s
    ensures RemoveAll(s, c) == s
    decreases |s|
  {
    if s != [] {
      var s' := s[..|s| - 1];
      assert s == s' + [s[|s| - 1]];
      RemoveAllAbsent(s', c);
    }
  }

  /** Deleting c from a + [c] + b, with no c in a or b, leaves a + b. */
  lemma RemoveAllOne(a: string, b: string, c: char)
    requires c !in a && c !in b
    ensures RemoveAll(a + [c] + b, c) == a + b
  {
    var p := a + [c];
    assert RemoveAll(p, c) == a by {
      assert p[..|p| - 1] == a;
      RemoveAllAbsent(a, c);
    }
    assert RemoveAll(b, c) == b by {
      RemoveAllAbsent(b, c);
    }
    RemoveAllConcat(p, b, c);
  }

  /** Index of the first occurrence of c in s. */
  function FirstIndex(s: string, c: char): (k: nat)
    requires c in s
    ensures k < |s| && s[k] == c
    ensures forall i :: 0 <= i < k ==> s[i] != c
  {
    if s[0] == c then 0 else 1 + FirstIndex(s[1..], c)
  }

  /** s.replace(c, '', 1): the first c deleted, if there is one. */
  function RemoveFirst(s: string, c: char): (r: string)
    ensures forall x :: x in s ==> x in r || x == c
  {
    if c in s then
      var k := FirstIndex(s, c);
      assert s == s[..k] + [s[k]] + s[k + 1..];
      s[..k] + s[k + 1..]
    else s
  }

  /** s[::-1] */
  function Reverse(s: string): (r: string)
    ensures |r| == |s|
    ensures forall i :: 0 <= i < |s| ==> r[i] == s[|s| - 1 - i]
    ensures forall x :: x in r <==> x in s
  {
    if s == [] then [] else Reverse(s[1..]) + [s[0]]
  }

  lemma {:induction false} ReverseConcat(a: string, b: string)
    ensures Reverse(a + b) == Reverse(b) + Reverse(a)
  {
    assert forall i :: 0 <= i < |a + b| ==> Reverse(a + b)[i] == (Reverse(b) + Reverse(a))[i];
  }

  /** Deleting every c commutes with reversing. */
  lemma {:induction false} RemoveAllReverse(s: string, c: char)
    ensures RemoveAll(Reverse(s), c) == Reverse(RemoveAll(s, c))
    decreases |s|
  {
    if s != [] {
      var s', x := s[..|s| - 1], s[|s| - 1];
      assert s == s' + [x];
      ReverseConcat(s', [x]);
      assert Reverse([x]) == [x];
      RemoveAllConcat([x], Reverse(s'), c);
      RemoveAllReverse(s', c);
      var tail := if x == c then [] else [x];
      assert RemoveAll([x], c) == tail by { assert [x][..0] == []; }
      ReverseConcat(RemoveAll(s', c), tail);
      assert Reverse(tail) == tail;
    }
  }

  /** a < b on Python str: lexicographic by code point, a proper prefix first. */
  predicate StrLess(a: string, b: string) {
    if a == [] then b != []
    else if b == [] then false
    else if a[0] != b[0] then a[0] < b[0]
    else StrLess(a[1..], b[1..])
  }

  lemma {:induction false} StrLessIrreflexive(a: string)
    ensures !StrLess(a, a)
  {
    if a != [] { StrLessIrreflexive(a[1..]); }
  }

  lemma {:induction false} StrLessTransitive(a: string, b: string, c: string)
    requires StrLess(a, b) && StrLess(b, c)
    ensures StrLess(a, c)
  {
    if a != [] && a[0] == b[0] && b[0] == c[0] {
      StrLessTransitive(a[1..], b[1..], c[1..]);
    }
  }

  /** Two strings are equal or one is below the other. */
  lemma {:induction false} StrLessTotal(a: string, b: string)
    ensures a == b || StrLess(a, b) || StrLess(b, a)
  {
    if a != [] && b != [] && a[0] == b[0] {
      StrLessTotal(a[1..], b[1..]);
      if a[1..] == b[1..] {
        assert a == [a[0]] + a[1..] && b == [b[0]] + b[1..];
      }
    }
  }

  /** Appending a, b, c and d one by one appends their concatenation. */
  lemma AppendFour(f: string, a: string, b: string, c: string, d: string)
    ensures f + a + b + c + d == f + (a + b + c + d)
  {
  }

  /** Appending a, b, c, d and e one by one appends their concatenation. */
  lemma AppendFive(f: string, a: string, b: string, c: string, d: string, e: string)
    ensures f + a + b + c + d + e == f + (a + b + c + d + e)
  {
  }
}
