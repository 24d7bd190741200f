/**
 * String helpers used by the URL normaliser and the heuristics: JavaScript's
 * `toLowerCase`, `trim`, `startsWith`, `endsWith`, `includes` and the number of
 * pieces `split('.')` produces, restricted to what the rules need.
 */
module Text {

  predicate IsUpper(c: char) {
    'A' <= c <= 'Z'
  }

  /** Lower-cases one ASCII letter; every other character is left as it is. */
  function LowerChar(c: char): (d: char)
    ensures !IsUpper(d)
    ensures !IsUpper(c) ==> d == c
  {
    if IsUpper(c) then (c as int + 32) as char else c
  }

  /** `s.toLowerCase()`, restricted to ASCII letters. */
  function Lower(s: string): (r: string)
    ensures |r| == |s|
    ensures forall i :: 0 <= i < |s| ==> r[i] == LowerChar(s[i])
    ensures forall i :: 0 <= i < |r| ==> !IsUpper(r[i])
  {
    if s == [] then [] else [LowerChar(s[0])] + Lower(s[1..])
  }

  /** Lower-casing a lower-case string changes nothing. */
  lemma LowerIdempotent(s: string)
    ensures Lower(Lower(s)) == Lower(s)
  {
    var l := Lower(s);
    assert forall i :: 0 <= i < |l| ==> Lower(l)[i] == l[i];
  }

  /** Text without upper-case ASCII letters is its own lower-case form. */
  lemma LowerKeeps(s: string)
    requires forall c :: c in s ==> !IsUpper(c)
    ensures Lower(s) == s
  {
    forall i | 0 <= i < |s|
      ensures Lower(s)[i] == s[i]
    {
      assert s[i] in s;
    }
  }

  /** The characters `String.prototype.trim` removes that this model knows of. */
  predicate IsSpace(c: char) {
    c == ' ' || c == '\t' || c == '\n' || c == '\r' || c == '\U{B}' || c == '\U{C}'
    || c == '\U{A0}' || c == '\U{2028}' || c == '\U{2029}' || c == '\U{FEFF}'
  }

  /** Drops the leading white space. */
  function TrimStart(s: string): string {
    if s != [] && IsSpace(s[0]) then TrimStart(s[1..]) else s
  }

  /** Drops the trailing white space. */
  function TrimEnd(s: string): string {
    if s != [] && IsSpace(s[|s| - 1]) then TrimEnd(s[..|s| - 1]) else s
  }

  /** `TrimStart` keeps a suffix of `s` and drops only white space before it. */
  lemma {:induction false} TrimStartSpec(s: string)
    ensures |TrimStart(s)| <= |s| && TrimStart(s) == s[|s| - |TrimStart(s)|..]
    ensures forall k :: 0 <= k < |s| - |TrimStart(s)| ==> IsSpace(s[k])
    ensures TrimStart(s) == [] || !IsSpace(TrimStart(s)[0])
  {
    if s != [] && IsSpace(s[0]) {
      var rest := s[1..];
      TrimStartSpec(rest);
      var r := TrimStart(rest);
      assert TrimStart(s) == r;
      assert rest[|rest| - |r|..] == s[|s| - |r|..];
      forall k | 0 <= k < |s| - |r|
        ensures IsSpace(s[k])
      {
        if k > 0 {
          assert s[k] == rest[k - 1];
        }
      }
    }
  }

  /** `TrimEnd` keeps a prefix of `s` and drops only white space after it. */
  lemma {:induction false} TrimEndSpec(s: string)
    ensures |TrimEnd(s)| <= |s| && TrimEnd(s) == s[..|TrimEnd(s)|]
    ensures forall k :: |TrimEnd(s)| <= k < |s| ==> IsSpace(s[k])
    ensures TrimEnd(s) == [] || !IsSpace(TrimEnd(s)[|TrimEnd(s)| - 1])
  {
    if s != [] && IsSpace(s[|s| - 1]) {
      var rest := s[..|s| - 1];
      TrimEndSpec(rest);
      var r := TrimEnd(rest);
      assert TrimEnd(s) == r;
      assert rest[..|r|] == s[..|r|];
      forall k | |r| <= k < |s|
        ensures IsSpace(s[k])
      {
        if k < |s| - 1 {
          assert s[k] == rest[k];
        }
      }
    }
  }

  /** `r` occurs in `s` starting at position `i`. */
  predicate InfixAt(s: string, r: string, i: nat) {
    i + |r| <= |s| && s[i..i + |r|] == r
  }

  /** `s.trim()`: white space dropped at both ends. */
  function Trim(s: string): string {
    TrimEnd(TrimStart(s))
  }

  /** `r` occurs in `s` at position `i` and everything around it is white space. */
  predicate SpacedAt(s: string, r: string, i: nat) {
    InfixAt(s, r, i)
    && (forall k :: 0 <= k < i ==> IsSpace(s[k]))
    && (forall k :: i + |r| <= k < |s| ==> IsSpace(s[k]))
  }

  /**
   * `Trim(s)` is the infix of `s` left once the white space at both ends is dropped:
   * everything cut away is white space, and what is kept neither starts nor ends with it.
   */
  lemma TrimSpec(s: string)
    ensures exists i: nat :: SpacedAt(s, Trim(s), i)
    ensures Trim(s) == [] || (!IsSpace(Trim(s)[0]) && !IsSpace(Trim(s)[|Trim(s)| - 1]))
  {
    var t := TrimStart(s);
    TrimStartSpec(s);
    TrimEndSpec(t);
    var start := |s| - |t|;
    var r := TrimEnd(t);
    assert Trim(s) == r;
    TrimSpaced(s, t, r, start);
    if r != [] {
      assert r[0] == t[0];
    }
  }

  /** The white space cut by `TrimStart` and by `TrimEnd` surrounds what is kept. */
  lemma TrimSpaced(s: string, t: string, r: string, start: nat)
    requires start + |t| == |s| && t == s[start..]
    requires forall k :: 0 <= k < start ==> IsSpace(s[k])
    requires |r| <= |t| && r == t[..|r|]
    requires forall k :: |r| <= k < |t| ==> IsSpace(t[k])
    ensures SpacedAt(s, r, start)
  {
    assert s[start..start + |r|] == r;
    forall k | start + |r| <= k < |s|
      ensures IsSpace(s[k])
    {
      assert s[k] == t[k - start];
    }
  }

  predicate StartsWith(s: string, prefix: string) {
    |prefix| <= |s| && s[..|prefix|] == prefix
  }

  /** `s.endsWith(suffix)`: a plain suffix test on characters. */
  predicate EndsWith(s: string, suffix: string) {
    |suffix| <= |s| && s[|s| - |suffix|..] == suffix
  }

  /** `s.includes(k)`. */
  predicate Includes(s: string, k: string)
    decreases |s|
  {
    StartsWith(s, k) || (s != [] && Includes(s[1..], k))
  }

  /** A string that occurs at some position of `s` is included in `s`. */
  lemma {:induction false} IncludesAt(s: string, k: string, i: nat)
    requires InfixAt(s, k, i)
    ensures Includes(s, k)
  {
    if i > 0 {
      assert s[1..][i - 1..i - 1 + |k|] == s[i..i + |k|];
      IncludesAt(s[1..], k, i - 1);
    }
  }

  /** An included string occurs at some position of `s`. */
  lemma {:induction false} IncludesOccurs(s: string, k: string)
    requires Includes(s, k)
    ensures exists i: nat :: InfixAt(s, k, i)
  {
    if StartsWith(s, k) {
      assert InfixAt(s, k, 0);
    } else {
      IncludesOccurs(s[1..], k);
      var i: nat :| InfixAt(s[1..], k, i);
      assert s[1..][i..i + |k|] == s[i + 1..i + 1 + |k|];
      assert InfixAt(s, k, i + 1);
    }
  }

  /** Every character of an included string occurs in the string. */
  lemma IncludesChars(s: string, k: string, c: char)
    requires Includes(s, k) && c in k
    ensures c in s
  {
    IncludesOccurs(s, k);
    var i: nat :| InfixAt(s, k, i);
    var j :| 0 <= j < |k| && k[j] == c;
    assert s[i + j] == s[i..i + |k|][j] == c;
  }

  /** The number of occurrences of `c` in `s`. */
  function Count(s: string, c: char): (n: nat)
    ensures n <= |s|
    ensures n == multiset(s)[c]
  {
    if s == [] then 0
    else
      assert s == [s[0]] + s[1..];
      (if s[0] == c then 1 else 0) + Count(s[1..], c)
  }
}
