/** The few Kotlin string operations the ledger's rules rely on: `trim`,
    `isBlank`, `lowercase`, `contains` / `equals` with `ignoreCase`, and the
    natural `compareTo` order of strings. Characters are taken to be ASCII. */
module Text {

  /** `Char.isWhitespace` on ASCII: tab, line feed, vertical tab, form feed,
      carriage return, the four information separators and the space. */
  predicate IsWhitespace(c: char) {
    c == ' ' || (9 <= c as int <= 13) || (28 <= c as int <= 31)
  }

  /** `isBlank`: empty, or whitespace only. */
  predicate IsBlank(s: string) {
    forall i :: 0 <= i < |s| ==> IsWhitespace(s[i])
  }

  /** Drops leading whitespace. */
  function TrimStart(s: string): (r: string)
    ensures |r| <= |s| && r == s[|s| - |r|..]
    ensures forall i :: 0 <= i < |s| - |r| ==> IsWhitespace(s[i])
    ensures r != [] ==> !IsWhitespace(r[0])
  {
    if s != [] && IsWhitespace(s[0]) then TrimStart(s[1..]) else s
  }

  /** Drops trailing whitespace. */
  function TrimEnd(s: string): (r: string)
    ensures |r| <= |s| && r == s[..|r|]
    ensures forall i :: |r| <= i < |s| ==> IsWhitespace(s[i])
    ensures r != [] ==> !IsWhitespace(r[|r| - 1])
  {
    if s != [] && IsWhitespace(s[|s| - 1]) then TrimEnd(s[..|s| - 1]) else s
  }

  /** `trim()`: the string without whitespace at either end. It is empty
      exactly when the string is blank. */
  function Trim(s: string): (r: string)
    ensures |r| <= |s|
    ensures r != [] ==> !IsWhitespace(r[0]) && !IsWhitespace(r[|r| - 1])
    ensures r == [] <==> IsBlank(s)
  {
    TrimEnd(TrimStart(s))
  }

  /** What `trim` keeps is a contiguous piece of the input, and everything it
      drops is whitespace. */
  lemma TrimIsSlice(s: string) returns (start: nat)
    ensures start + |Trim(s)| <= |s|
    ensures Trim(s) == s[start..start + |Trim(s)|]
    ensures forall i :: 0 <= i < start ==> IsWhitespace(s[i])
    ensures forall i :: start + |Trim(s)| <= i < |s| ==> IsWhitespace(s[i])
  {
    var t := TrimStart(s);
    var r := TrimEnd(t);
    start := |s| - |t|;
    SliceOfSuffix(s, start, t, |r|);
    WhitespaceAfter(s, start, t, |r|);
  }

  lemma SliceOfSuffix(s: string, start: nat, t: string, n: nat)
    requires start <= |s| && t == s[start..] && n <= |t|
    ensures t[..n] == s[start..start + n]
  {
  }

  lemma WhitespaceAfter(s: string, start: nat, t: string, n: nat)
    requires start <= |s| && t == s[start..] && n <= |t|
    requires forall i :: n <= i < |t| ==> IsWhitespace(t[i])
    ensures forall i :: start + n <= i < |s| ==> IsWhitespace(s[i])
  {
    forall i | start + n <= i < |s|
      ensures IsWhitespace(s[i])
    {
      assert s[i] == t[i - start];
    }
  }

  /** Trimming twice is trimming once. */
  lemma TrimIdempotent(s: string)
    ensures Trim(Trim(s)) == Trim(s)
  {
    var r := Trim(s);
    if r != [] {
      assert TrimStart(r) == r;
      assert TrimEnd(r) == r;
    }
  }

  /** `Char.lowercaseChar()` on ASCII. */
  function Lower(c: char): (l: char)
    ensures 'A' <= c <= 'Z' ==> l as int == c as int + 32
    ensures !('A' <= c <= 'Z') ==> l == c
    ensures !('A' <= l <= 'Z')
  {
    if 'A' <= c <= 'Z' then (c as int + 32) as char else c
  }

  /** `lowercase()`. */
  function LowerStr(s: string): (l: string)
    ensures |l| == |s|
    ensures forall i :: 0 <= i < |s| ==> l[i] == Lower(s[i])
  {
    seq(|s|, i requires 0 <= i < |s| => Lower(s[i]))
  }

  lemma LowerIdempotent(s: string)
    ensures LowerStr(LowerStr(s)) == LowerStr(s)
  {
  }

  /** Equality ignoring case. */
  predicate EqualsIgnoreCase(a: string, b: string)
    ensures a == b ==> EqualsIgnoreCase(a, b)
    ensures EqualsIgnoreCase(a, b) ==> |a| == |b|
  {
    LowerStr(a) == LowerStr(b)
  }

  /** `s.contains(p)`: `p` occurs in `s` at some position; the empty string
      occurs everywhere. */
  predicate Contains(s: string, p: string)
    decreases |s|
  {
    if p <= s then true
    else if s == [] then false
    else Contains(s[1..], p)
  }

  predicate OccursAt(s: string, p: string, i: nat) {
    i + |p| <= |s| && s[i..i + |p|] == p
  }

  /** `Contains` finds exactly the occurrences. */
  lemma {:induction false} ContainsIffOccurs(s: string, p: string)
    ensures Contains(s, p) <==> exists i: nat :: OccursAt(s, p, i)
    decreases |s|
  {
    if p <= s {
      assert OccursAt(s, p, 0);
    } else if s != [] {
      ContainsIffOccurs(s[1..], p);
      if exists i: nat :: OccursAt(s[1..], p, i) {
        var i: nat :| OccursAt(s[1..], p, i);
        assert s[i + 1..i + 1 + |p|] == s[1..][i..i + |p|];
        assert OccursAt(s, p, i + 1);
      }
      if exists i: nat :: OccursAt(s, p, i) {
        var i: nat :| OccursAt(s, p, i);
        if i != 0 {
          assert s[1..][i - 1..i - 1 + |p|] == s[i..i + |p|];
          assert OccursAt(s[1..], p, i - 1);
        }
      }
    }
  }

  /** Containment ignoring case. */
  predicate ContainsIgnoreCase(s: string, p: string)
    ensures p == [] ==> ContainsIgnoreCase(s, p)
    ensures ContainsIgnoreCase(s, p) ==> |p| <= |s|
  {
    ContainsIffOccurs(LowerStr(s), LowerStr(p));
    Contains(LowerStr(s), LowerStr(p))
  }

  /** String order, `compareTo` below zero: character by character, a proper prefix
      first. */
  predicate LexLess(a: string, b: string)
    ensures LexLess(a, b) ==> a != b
    ensures |a| < |b| && a == b[..|a|] ==> LexLess(a, b)
  {
    if a == [] then b != []
    else if b == [] then false
    else a[0] < b[0] || (a[0] == b[0] && LexLess(a[1..], b[1..]))
  }

  lemma {:induction false} LexLessIrreflexive(a: string)
    ensures !LexLess(a, a)
  {
    if a != [] {
      LexLessIrreflexive(a[1..]);
    }
  }

  lemma {:induction false} LexLessTransitive(a: string, b: string, c: string)
    requires LexLess(a, b) && LexLess(b, c)
    ensures LexLess(a, c)
  {
    if a != [] && b != [] && c != [] && a[0] == b[0] == c[0] {
      LexLessTransitive(a[1..], b[1..], c[1..]);
    }
  }

  /** Two different strings are always ordered one way or the other. */
  lemma {:induction false} LexLessTotal(a: string, b: string)
    ensures a == b || LexLess(a, b) || LexLess(b, a)
  {
    if a != [] && b != [] && a[0] == b[0] {
      LexLessTotal(a[1..], b[1..]);
      if a[1..] == b[1..] {
        assert a == [a[0]] + a[1..] && b == [b[0]] + b[1..];
      }
    }
  }

  /** The natural string order is one a stable sort can use. */
  lemma LexLessIsStrictWeakOrder()
    ensures forall a :: !LexLess(a, a)
    ensures forall a, b, c :: LexLess(a, b) && LexLess(b, c) ==> LexLess(a, c)
    ensures forall a, b, c :: !LexLess(a, b) && !LexLess(b, c) ==> !LexLess(a, c)
  {
    forall a {
      LexLessIrreflexive(a);
    }
    forall a, b, c | LexLess(a, b) && LexLess(b, c)
      ensures LexLess(a, c)
    {
      LexLessTransitive(a, b, c);
    }
    forall a, b, c | !LexLess(a, b) && !LexLess(b, c)
      ensures !LexLess(a, c)
    {
      LexLessTotal(a, b);
      LexLessTotal(b, c);
      if LexLess(a, c) {
        if a == b {
        } else {
          LexLessTransitive(c, b, a);
          LexLessIrreflexive(a);
          LexLessTransitive(a, c, a);
        }
      }
    }
  }
}
