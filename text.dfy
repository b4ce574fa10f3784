/** The two string operations the content validator relies on:
    `toLowerCase`, modelled on ASCII letters, and `includes`. */
module Text {

  // ------------------------------------------------------------ lower case

  predicate IsUpper(c: char) { 'A' <= c <= 'Z' }

  /** ASCII lower-casing of one character; every other character is kept. */
  function LowerChar(c: char): (r: char)
    ensures IsUpper(c) ==> r as int == c as int + 32 && 'a' <= r <= 'z'
    ensures !IsUpper(c) ==> r == c
    ensures !IsUpper(r)
  {
    if IsUpper(c) then (c as int + 32) as char else c
  }

  /** `s.toLowerCase()` on ASCII letters. */
  function Lower(s: string): (r: string)
    ensures |r| == |s|
    ensures forall i :: 0 <= i < |s| ==> r[i] == LowerChar(s[i])
  {
    seq(|s|, i requires 0 <= i < |s| => LowerChar(s[i]))
  }

  predicate NoUpper(s: string) {
    forall i :: 0 <= i < |s| ==> !IsUpper(s[i])
  }

  /** Lower-casing leaves no capital behind, and a string without capitals
      is its own lower case; so lower-casing twice is lower-casing once. */
  lemma LowerIsLower(s: string)
    ensures NoUpper(Lower(s))
    ensures NoUpper(s) ==> Lower(s) == s
    ensures Lower(Lower(s)) == Lower(s)
  {
    assert NoUpper(Lower(s));
    if NoUpper(s) {
      assert forall i :: 0 <= i < |s| ==> Lower(s)[i] == s[i];
    }
    assert forall i :: 0 <= i < |s| ==> Lower(Lower(s))[i] == Lower(s)[i];
  }

  /** Lower-casing works character by character. */
  lemma LowerAppend(a: string, b: string)
    ensures Lower(a + b) == Lower(a) + Lower(b)
  {
    assert forall i :: 0 <= i < |a + b| ==> Lower(a + b)[i] == (Lower(a) + Lower(b))[i];
  }

  // -------------------------------------------------------------- includes

  /** `sub` occurs in `s` starting at index `i`. */
  predicate OccursAt(s: string, sub: string, i: int) {
    0 <= i && i + |sub| <= |s| && s[i..i + |sub|] == sub
  }

  /** `sub` occurs in `s` somewhere. */
  predicate Occurs(s: string, sub: string) {
    exists i :: 0 <= i <= |s| && OccursAt(s, sub, i)
  }

  /** s[i + j ..] begins with sub[j ..], compared one character at a time. */
  predicate MatchFrom(s: string, sub: string, i: int, j: nat)
    decreases |sub| - j
  {
    j >= |sub| || (0 <= i + j < |s| && s[i + j] == sub[j] && MatchFrom(s, sub, i, j + 1))
  }

  /** Some start in [lo, hi) matches, searched by halving the range. */
  predicate FoundIn(s: string, sub: string, lo: int, hi: int)
    decreases hi - lo
  {
    if hi - lo <= 0 then false
    else if hi - lo == 1 then 0 <= lo && lo + |sub| <= |s| && MatchFrom(s, sub, lo, 0)
    else FoundIn(s, sub, lo, (lo + hi) / 2) || FoundIn(s, sub, (lo + hi) / 2, hi)
  }

  /** `s.includes(sub)`: every start from 0 to |s| - |sub| is tried. */
  predicate Includes(s: string, sub: string) {
    FoundIn(s, sub, 0, |s| - |sub| + 1)
  }

  lemma {:induction false} MatchFromIff(s: string, sub: string, i: int, j: nat)
    requires 0 <= i && i + |sub| <= |s| && j <= |sub|
    ensures MatchFrom(s, sub, i, j) <==> s[i + j..i + |sub|] == sub[j..]
    decreases |sub| - j
  {
    if j < |sub| {
      MatchFromIff(s, sub, i, j + 1);
      assert s[i + j..i + |sub|] == [s[i + j]] + s[i + j + 1..i + |sub|];
      assert sub[j..] == [sub[j]] + sub[j + 1..];
    }
  }

  lemma MatchAtIff(s: string, sub: string, i: int)
    requires 0 <= i && i + |sub| <= |s|
    ensures MatchFrom(s, sub, i, 0) <==> OccursAt(s, sub, i)
  {
    MatchFromIff(s, sub, i, 0);
    assert s[i + 0..i + |sub|] == s[i..i + |sub|];
  }

  /** Each character of an occurrence is the matching character of `sub`. */
  lemma OccurrenceChar(s: string, sub: string, i: int, k: int)
    requires OccursAt(s, sub, i) && 0 <= k < |sub|
    ensures s[i + k] == sub[k]
  {
    assert s[i..i + |sub|][k] == s[i + k];
  }

  lemma {:induction false} FoundInIff(s: string, sub: string, lo: int, hi: int)
    ensures FoundIn(s, sub, lo, hi) <==> exists i :: lo <= i < hi && OccursAt(s, sub, i)
    decreases hi - lo
  {
    if hi - lo == 1 {
      if 0 <= lo && lo + |sub| <= |s| {
        MatchAtIff(s, sub, lo);
      }
    } else if hi - lo > 1 {
      var mid := (lo + hi) / 2;
      FoundInIff(s, sub, lo, mid);
      FoundInIff(s, sub, mid, hi);
    }
  }

  /** `Includes` holds exactly when `sub` occurs somewhere in `s`; in
      particular the empty string is included in every string. */
  lemma IncludesIff(s: string, sub: string)
    ensures Includes(s, sub) <==> Occurs(s, sub)
  {
    FoundInIff(s, sub, 0, |s| - |sub| + 1);
  }

  /** One occurrence is enough. */
  lemma IncludesAt(s: string, sub: string, i: int)
    requires OccursAt(s, sub, i)
    ensures Includes(s, sub)
  {
    IncludesIff(s, sub);
  }

  lemma IncludesSelf(s: string)
    ensures Includes(s, s)
  {
    IncludesAt(s, s, 0);
  }

  /** When the string is cut just before a character that `sub` does not
      contain, no occurrence can straddle the cut. */
  lemma IncludesSplit(a: string, b: string, sub: string)
    requires |b| > 0 && b[0] !in sub
    ensures Includes(a + b, sub) <==> Includes(a, sub) || Includes(b, sub)
  {
    IncludesIff(a + b, sub);
    IncludesIff(a, sub);
    IncludesIff(b, sub);
    var s := a + b;
    if Occurs(s, sub) {
      var i :| 0 <= i <= |s| && OccursAt(s, sub, i);
      if i + |sub| <= |a| {
        assert a[i..i + |sub|] == s[i..i + |sub|];
        assert OccursAt(a, sub, i);
      } else if i >= |a| {
        assert b[i - |a|..i - |a| + |sub|] == s[i..i + |sub|];
        assert OccursAt(b, sub, i - |a|);
      } else {
        OccurrenceChar(s, sub, i, |a| - i);
        assert false;
      }
    }
    if Occurs(a, sub) {
      var i :| 0 <= i <= |a| && OccursAt(a, sub, i);
      assert s[i..i + |sub|] == a[i..i + |sub|];
      assert OccursAt(s, sub, i);
    }
    if Occurs(b, sub) {
      var i :| 0 <= i <= |b| && OccursAt(b, sub, i);
      assert s[|a| + i..|a| + i + |sub|] == b[i..i + |sub|];
      assert OccursAt(s, sub, |a| + i);
    }
  }

  /** A string lacking one of the characters of `sub` does not include it. */
  lemma MissingCharExcludes(s: string, sub: string, c: char)
    requires c in sub && c !in s
    ensures !Includes(s, sub)
  {
    IncludesIff(s, sub);
  }

  /** An exact occurrence is also an occurrence once both sides are
      lower-cased, so a case-insensitive test accepts more. */
  lemma IncludesLower(s: string, sub: string)
    requires Includes(s, sub)
    ensures Includes(Lower(s), Lower(sub))
  {
    IncludesIff(s, sub);
    var i :| 0 <= i <= |s| && OccursAt(s, sub, i);
    assert Lower(s)[i..i + |sub|] == Lower(sub);
    IncludesAt(Lower(s), Lower(sub), i);
  }
}
