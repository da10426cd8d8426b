/** The few string operations the core uses: ASCII lower-casing
    (`toLowerCase`), substring search (`includes`) and `startsWith`. */
module Text {

  /** ASCII case folding of one character; every other character is kept. */
  function Lower(c: char): char
  {
    if 'A' <= c <= 'Z' then (c as int - 'A' as int + 'a' as int) as char else c
  }

  predicate IsUpper(c: char)
  {
    'A' <= c <= 'Z'
  }

  /** `s.toLowerCase()`, restricted to ASCII letters. */
  function ToLower(s: string): (r: string)
    ensures |r| == |s|
    ensures forall i :: 0 <= i < |r| ==> !IsUpper(r[i])
  {
    seq(|s|, i requires 0 <= i < |s| => Lower(s[i]))
  }

  /** `sub` occurs in `s` starting at index `i`. */
  predicate MatchesAt(s: string, sub: string, i: int)
  {
    0 <= i && i + |sub| <= |s| && s[i..i + |sub|] == sub
  }

  /** `s.includes(sub)`: some window of `s` equals `sub`. */
  predicate Includes(s: string, sub: string)
  {
    exists i :: 0 <= i <= |s| - |sub| && MatchesAt(s, sub, i)
  }

  /** `s.startsWith(prefix)`. */
  predicate StartsWith(s: string, prefix: string)
  {
    |prefix| <= |s| && s[..|prefix|] == prefix
  }

  /** Lower-casing twice is lower-casing once. */
  lemma ToLowerIdempotent(s: string)
    ensures ToLower(ToLower(s)) == ToLower(s)
  {
    forall i | 0 <= i < |s|
      ensures ToLower(ToLower(s))[i] == ToLower(s)[i]
    {
      assert !IsUpper(ToLower(s)[i]);
    }
  }

  /** Lower-casing is done character by character, so it distributes over concatenation. */
  lemma ToLowerAppend(a: string, b: string)
    ensures ToLower(a + b) == ToLower(a) + ToLower(b)
  {
  }

  /** Lower-casing can produce the lower-case letter of `upper` only from
      that letter itself or from `upper`. */
  lemma AbsentAfterLower(s: string, upper: char)
    requires IsUpper(upper) && upper !in s && Lower(upper) !in s
    ensures Lower(upper) !in ToLower(s)
  {
    forall i | 0 <= i < |s|
      ensures ToLower(s)[i] != Lower(upper)
    {
      assert s[i] != upper && s[i] != Lower(upper);
    }
  }

  /** A character found at some index of `s` is included in `s`. */
  lemma CharIncluded(s: string, c: char, i: int)
    requires 0 <= i < |s| && s[i] == c
    ensures Includes(s, [c])
  {
    assert s[i..i + 1] == [c];
    assert MatchesAt(s, [c], i);
  }

  /** A string that occurs in `s` has its first character in `s`. */
  lemma IncludesFirstChar(s: string, sub: string)
    requires sub != [] && Includes(s, sub)
    ensures sub[0] in s
  {
    var i :| 0 <= i <= |s| - |sub| && MatchesAt(s, sub, i);
    assert s[i..i + |sub|][0] == s[i];
  }

  /** A string that occurs in `s` has its first two characters next to each other in `s`. */
  lemma IncludesFirstPair(s: string, sub: string)
    requires |sub| >= 2 && Includes(s, sub)
    ensures exists j :: 0 <= j < |s| - 1 && s[j] == sub[0] && s[j + 1] == sub[1]
  {
    var i :| 0 <= i <= |s| - |sub| && MatchesAt(s, sub, i);
    assert s[i..i + |sub|][0] == s[i] && s[i..i + |sub|][1] == s[i + 1];
  }

  /** Contrapositive of IncludesFirstChar: a missing first character rules out a match. */
  lemma MissingFirstCharExcludes(s: string, sub: string)
    requires sub != [] && sub[0] !in s
    ensures !Includes(s, sub)
  {
    if Includes(s, sub) {
      IncludesFirstChar(s, sub);
    }
  }

  /** If `sub[0]` occurs in `a + [x] + c` at most as `x`, and `x` is not followed
      by `sub[1]`, then `sub` does not occur there. */
  lemma PairExcluded(a: string, x: char, c: string, sub: string)
    requires |sub| >= 2 && sub[0] !in a && sub[0] !in c
    requires c != [] && x == sub[0] ==> c[0] != sub[1]
    ensures !Includes(a + [x] + c, sub)
  {
    var s := a + [x] + c;
    assert forall k :: 0 <= k < |a| ==> s[k] == a[k];
    assert forall k :: |a| < k < |s| ==> s[k] == c[k - |a| - 1];
    if Includes(s, sub) {
      IncludesFirstPair(s, sub);
    }
  }
}
