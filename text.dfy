/**
 * String helpers standing for the JavaScript string operations the core uses:
 * startsWith, slice, join and the case-insensitive regular-expression tests
 * /done/i, /stub/i, /TODO|stub/i and /control:done/i.
 * A non-unicode JavaScript regular expression folds case with toUpperCase
 * but never maps a non-ASCII character to an ASCII one, so for the ASCII
 * patterns used here ASCII case folding is exact.
 */
module Text {

  function LowerChar(c: char): char {
    if 'A' <= c <= 'Z' then (c as int + 32) as char else c
  }

  function Lower(s: string): string {
    seq(|s|, i requires 0 <= i < |s| => LowerChar(s[i]))
  }

  predicate StartsWith(s: string, p: string) {
    |p| <= |s| && s[..|p|] == p
  }

  /** s contains p as a contiguous substring. */
  predicate Contains(s: string, p: string)
    decreases |s|
  {
    StartsWith(s, p) || (s != [] && Contains(s[1..], p))
  }

  /** The test a /p/i regular expression performs, for an ASCII pattern p. */
  predicate ContainsIgnoreCase(s: string, p: string) {
    Contains(Lower(s), Lower(p))
  }

  /** s.slice(0, n) for n >= 0. */
  function Take(s: string, n: nat): (r: string)
    ensures |r| <= n && StartsWith(s, r)
    ensures |s| <= n ==> r == s
  {
    if n <= |s| then s[..n] else s
  }

  /** Array.prototype.join with a separator. */
  function Join(parts: seq<string>, sep: string): string
    decreases |parts|
  {
    if parts == [] then ""
    else if |parts| == 1 then parts[0]
    else parts[0] + sep + Join(parts[1..], sep)
  }

  /** s contains p exactly when p occurs at some position. */
  lemma {:induction false} ContainsAt(s: string, p: string, i: nat)
    requires i + |p| <= |s| && s[i..i + |p|] == p
    ensures Contains(s, p)
    decreases i
  {
    if i == 0 {
      assert s[..|p|] == s[0..|p|];
    } else {
      assert s[1..][i - 1..i - 1 + |p|] == s[i..i + |p|];
      ContainsAt(s[1..], p, i - 1);
    }
  }

  lemma {:induction false} ContainsWitness(s: string, p: string) returns (i: nat)
    requires Contains(s, p)
    ensures i + |p| <= |s| && s[i..i + |p|] == p
    decreases |s|
  {
    if StartsWith(s, p) {
      i := 0;
    } else {
      var j := ContainsWitness(s[1..], p);
      i := j + 1;
      assert s[1..][j..j + |p|] == s[i..i + |p|];
    }
  }

  lemma ContainsLeft(a: string, b: string, p: string)
    requires Contains(a, p)
    ensures Contains(a + b, p)
  {
    var i := ContainsWitness(a, p);
    assert (a + b)[i..i + |p|] == a[i..i + |p|];
    ContainsAt(a + b, p, i);
  }

  lemma ContainsRight(a: string, b: string, p: string)
    requires Contains(b, p)
    ensures Contains(a + b, p)
  {
    var i := ContainsWitness(b, p);
    assert (a + b)[|a| + i..|a| + i + |p|] == b[i..i + |p|];
    ContainsAt(a + b, p, |a| + i);
  }

  lemma LowerConcat(a: string, b: string)
    ensures Lower(a + b) == Lower(a) + Lower(b)
  {
  }

  lemma ContainsIgnoreCaseRight(a: string, b: string, p: string)
    requires ContainsIgnoreCase(b, p)
    ensures ContainsIgnoreCase(a + b, p)
  {
    LowerConcat(a, b);
    ContainsRight(Lower(a), Lower(b), Lower(p));
  }

  lemma ContainsIgnoreCaseLeft(a: string, b: string, p: string)
    requires ContainsIgnoreCase(a, p)
    ensures ContainsIgnoreCase(a + b, p)
  {
    LowerConcat(a, b);
    ContainsLeft(Lower(a), Lower(b), Lower(p));
  }

  /** A substring occurrence is also a case-insensitive occurrence. */
  lemma ContainsThenIgnoreCase(s: string, p: string)
    requires Contains(s, p)
    ensures ContainsIgnoreCase(s, p)
  {
    var i := ContainsWitness(s, p);
    assert Lower(s)[i..i + |p|] == Lower(p);
    ContainsAt(Lower(s), Lower(p), i);
  }

  /** A pattern with a character that never occurs in s does not occur in s. */
  lemma NotContainsMissingChar(s: string, p: string, c: char)
    requires c in p && c !in s
    ensures !Contains(s, p)
  {
    if Contains(s, p) {
      var i := ContainsWitness(s, p);
      assert false;
    }
  }
}
