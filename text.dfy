/** The string operations the ledger code relies on: `toLowerCase`, `startsWith` and `includes`. */
module Text {

  /** `toLowerCase` on one character, for the ASCII capitals and the Latin-1 capitals
      U+00C0..U+00DE (except the multiplication sign U+00D7), each of which lies 32 code
      points below its small letter. */
  function LowerChar(c: char): char {
    if 'A' <= c <= 'Z' || ('À' <= c <= 'Þ' && c != '×') then (c as int + 32) as char else c
  }

  /** `s.toLowerCase()`: every character lowered in place. */
  function Lower(s: string): (r: string)
    ensures |r| == |s|
    ensures forall i :: 0 <= i < |s| ==> r[i] == LowerChar(s[i])
  {
    if s == [] then [] else [LowerChar(s[0])] + Lower(s[1..])
  }

  /** Lowering twice is lowering once, so a label and its lower-case form are read alike. */
  lemma LowerIdempotent(s: string)
    ensures Lower(Lower(s)) == Lower(s)
  {
    var once := Lower(s);
    var twice := Lower(once);
    forall i | 0 <= i < |s|
      ensures twice[i] == once[i]
    {
      var c := s[i];
      assert once[i] == LowerChar(c);
    }
  }

  /** Lowering commutes with taking a slice. */
  lemma LowerSlice(s: string, i: nat, j: nat)
    requires i <= j <= |s|
    ensures Lower(s)[i..j] == Lower(s[i..j])
  {
    var a := Lower(s)[i..j];
    var b := Lower(s[i..j]);
    forall k | 0 <= k < j - i
      ensures a[k] == b[k]
    {
      assert s[i..j][k] == s[i + k];
    }
  }

  /** A lower-case ASCII letter absent from `s` in both cases is absent from `Lower(s)`. */
  lemma AbsentAfterLower(s: string, c: char)
    requires 'a' <= c <= 'z'
    requires c !in s && (c as int - 32) as char !in s
    ensures c !in Lower(s)
  {
    var r := Lower(s);
    forall i | 0 <= i < |s|
      ensures r[i] != c
    {
      assert s[i] in s;
    }
  }

  /** `s.startsWith(p)` */
  predicate StartsWith(s: string, p: string) {
    |p| <= |s| && s[..|p|] == p
  }

  /** `s.includes(k)`: `k` occurs in `s` at some position. */
  predicate Contains(s: string, k: string)
    decreases |s|
  {
    StartsWith(s, k) || (|s| > 0 && Contains(s[1..], k))
  }

  /** An occurrence at position `i` makes `k` a substring of `s`. */
  lemma {:induction false} ContainsAt(s: string, k: string, i: nat)
    requires i + |k| <= |s| && s[i..i + |k|] == k
    ensures Contains(s, k)
  {
    if i > 0 {
      assert s[1..][i - 1..i - 1 + |k|] == s[i..i + |k|];
      ContainsAt(s[1..], k, i - 1);
    }
  }

  /** A substring occurs at some position. */
  lemma {:induction false} ContainsWitness(s: string, k: string) returns (i: nat)
    requires Contains(s, k)
    ensures i + |k| <= |s| && s[i..i + |k|] == k
  {
    if StartsWith(s, k) {
      i := 0;
    } else {
      var j := ContainsWitness(s[1..], k);
      assert s[1..][j..j + |k|] == s[j + 1..j + 1 + |k|];
      i := j + 1;
    }
  }

  /** A keyword already in lower case that occurs in `s` at `i` occurs in `Lower(s)`. */
  lemma ContainsLowered(s: string, k: string, i: nat)
    requires i + |k| <= |s| && s[i..i + |k|] == k
    requires Lower(k) == k
    ensures Contains(Lower(s), k)
  {
    LowerSlice(s, i, i + |k|);
    ContainsAt(Lower(s), k, i);
  }

  /** A character of a substring is a character of the string. */
  lemma CharOfContained(s: string, k: string, c: char)
    requires Contains(s, k) && c in k
    ensures c in s
  {
    var i := ContainsWitness(s, k);
    var j :| 0 <= j < |k| && k[j] == c;
    assert s[i + j] == s[i..i + |k|][j];
  }

  /** `includes` is transitive. */
  lemma ContainsTransitive(s: string, t: string, u: string)
    requires Contains(s, t) && Contains(t, u)
    ensures Contains(s, u)
  {
    var i := ContainsWitness(s, t);
    var j := ContainsWitness(t, u);
    forall m | 0 <= m < |u|
      ensures s[i + j + m] == u[m]
    {
      assert u[m] == t[j..j + |u|][m] == t[j + m];
      assert t[j + m] == s[i..i + |t|][j + m];
    }
    assert s[i + j..i + j + |u|] == u;
    ContainsAt(s, u, i + j);
  }
}
