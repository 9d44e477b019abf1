/** Python string operations the cache relies on, over `string` = `seq<char>`
    (Dafny's `char` is a Unicode scalar value, so `<` on `char` is code-point order). */
module Strings {

  /** `s.startswith(prefix)` */
  predicate StartsWith(s: string, prefix: string) {
    |prefix| <= |s| && s[..|prefix|] == prefix
  }

  /** `s.endswith(suffix)` */
  predicate EndsWith(s: string, suffix: string) {
    |suffix| <= |s| && s[|s| - |suffix|..] == suffix
  }

  lemma StartsWithTransitive(s: string, t: string, u: string)
    requires StartsWith(s, t) && StartsWith(t, u)
    ensures StartsWith(s, u)
  {
    assert s[..|u|] == s[..|t|][..|u|];
  }

  /** Python's `a < b` on `str`: lexicographic by code point, a proper prefix first. */
  predicate Less(a: string, b: string)
    decreases |a|
  {
    if |a| == 0 then |b| > 0
    else if |b| == 0 then false
    else if a[0] != b[0] then a[0] < b[0]
    else Less(a[1..], b[1..])
  }

  lemma {:induction false} LessIrreflexive(a: string)
    ensures !Less(a, a)
    decreases |a|
  {
    if |a| > 0 {
      LessIrreflexive(a[1..]);
    }
  }

  lemma {:induction false} LessTransitive(a: string, b: string, c: string)
    requires Less(a, b) && Less(b, c)
    ensures Less(a, c)
    decreases |a|
  {
    if |a| > 0 && a[0] == b[0] && b[0] == c[0] {
      LessTransitive(a[1..], b[1..], c[1..]);
    }
  }

  /** Distinct strings are always ordered one way or the other. */
  lemma {:induction false} LessTotal(a: string, b: string)
    ensures a == b || Less(a, b) || Less(b, a)
    decreases |a|
  {
    if |a| > 0 && |b| > 0 && a[0] == b[0] {
      LessTotal(a[1..], b[1..]);
      if a[1..] == b[1..] {
        assert a == [a[0]] + a[1..] && b == [b[0]] + b[1..];
      }
    }
  }

  lemma {:induction false} LessAsymmetric(a: string, b: string)
    requires Less(a, b)
    ensures !Less(b, a)
    decreases |a|
  {
    if |a| > 0 && a[0] == b[0] {
      LessAsymmetric(a[1..], b[1..]);
    }
  }

  /** The text of `s` before the first occurrence of `c`, i.e. `s.split(c)[0]`. */
  function BeforeFirst(s: string, c: char): (r: string)
    ensures StartsWith(s, r) && c !in r
    ensures c in s ==> |r| < |s| && s[|r|] == c
    ensures c !in s ==> r == s
  {
    if s == [] then []
    else if s[0] == c then []
    else
      var rest := BeforeFirst(s[1..], c);
      assert s == [s[0]] + s[1..];
      [s[0]] + rest
  }

  /** The split point is the first `c`: whatever follows a `c`-free head does not matter. */
  lemma {:induction false} BeforeFirstOfConcat(head: string, tail: string, c: char)
    requires c !in head && |tail| > 0 && tail[0] == c
    ensures BeforeFirst(head + tail, c) == head
  {
    if head != [] {
      assert (head + tail)[1..] == head[1..] + tail;
      BeforeFirstOfConcat(head[1..], tail, c);
    }
  }

  /** Lower-case hexadecimal text, as `hashlib`'s `hexdigest()` produces. */
  predicate IsLowerHex(s: string) {
    forall i :: 0 <= i < |s| ==> s[i] in "0123456789abcdef"
  }

  /** `n` zero digits; the witness of the digest types below. */
  function Zeros(n: nat): (s: string)
    ensures |s| == n && IsLowerHex(s)
  {
    if n == 0 then "" else "0" + Zeros(n - 1)
  }

  /** A SHA-1 hex digest: 40 lower-case hex characters. */
  type Sha1Hex = s: string | |s| == 40 && IsLowerHex(s)
    witness Zeros(40)

  /** A SHA-256 hex digest: 64 lower-case hex characters. */
  type Sha256Hex = s: string | |s| == 64 && IsLowerHex(s)
    witness Zeros(64)
}
