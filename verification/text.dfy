/** Character-level text operations shared by both plotting scripts.

    `Contains` is plain substring search. It is what JavaScript's
    `String.prototype.includes` computes, and what a pandas `str.contains`
    computes for an alternation of patterns without regular-expression
    metacharacters. `Upper` is `toUpperCase` restricted to ASCII letters.
 */
module Text {

  /** `p` occurs in `s` starting at offset `i`. */
  predicate OccursAt(s: string, p: string, i: int) {
    0 <= i && i + |p| <= |s| && s[i..i + |p|] == p
  }

  /** `p` is a substring of `s`; the empty pattern occurs in every string. */
  predicate Contains(s: string, p: string) {
    |p| <= |s| && exists i | 0 <= i <= |s| - |p| :: OccursAt(s, p, i)
  }

  /** `s` contains at least one of `patterns`: the match of the regular
      expression `'|'.join(patterns)` when no pattern holds a metacharacter. */
  predicate ContainsAny(s: string, patterns: seq<string>) {
    exists k | 0 <= k < |patterns| :: Contains(s, patterns[k])
  }

  /** ASCII upper-casing of one character; every other character is kept. */
  function UpperChar(c: char): (u: char)
    ensures 'a' <= c <= 'z' ==> u as int == c as int - 32
    ensures !('a' <= c <= 'z') ==> u == c
    ensures !('a' <= u <= 'z')
  {
    if 'a' <= c <= 'z' then (c as int - 32) as char else c
  }

  /** Upper-cases a string character by character. */
  function Upper(s: string): (r: string)
    ensures |r| == |s|
    ensures forall i :: 0 <= i < |s| ==> r[i] == UpperChar(s[i])
  {
    seq(|s|, i requires 0 <= i < |s| => UpperChar(s[i]))
  }

  /** `query` occurs in `s` ignoring case: the search boxes' test
      `s.toUpperCase().includes(query.toUpperCase())`. */
  predicate Mentions(s: string, query: string) {
    Contains(Upper(s), Upper(query))
  }

  /** Every string contains itself and the empty string. */
  lemma ContainsSelf(s: string)
    ensures Contains(s, s)
    ensures Contains(s, "")
  {
    assert OccursAt(s, s, 0) by {
      assert s[0..|s|] == s;
    }
    assert OccursAt(s, "", 0);
  }

  /** Between strings of equal length, containment is equality. */
  lemma EqualLengthContains(s: string, p: string)
    requires |s| == |p|
    ensures Contains(s, p) <==> s == p
  {
    if s == p {
      ContainsSelf(s);
    }
    if Contains(s, p) {
      var i :| 0 <= i <= |s| - |p| && OccursAt(s, p, i);
      assert i == 0;
      assert s[0..|s|] == s;
    }
  }

  /** No character of `s` is one of `cs`. */
  predicate Avoids(s: string, cs: string) {
    forall i | 0 <= i < |s| :: s[i] !in cs
  }

  /** A pattern holding a character that `s` avoids does not occur in `s`. */
  lemma AvoidedCharExcludes(s: string, p: string, cs: string, k: int)
    requires Avoids(s, cs)
    requires 0 <= k < |p| && p[k] in cs
    ensures !Contains(s, p)
  {
  }

  /** Containment is transitive: a substring of a substring is a substring. */
  lemma {:induction false} ContainsTransitive(a: string, b: string, c: string)
    requires Contains(a, b)
    requires Contains(b, c)
    ensures Contains(a, c)
  {
    var i :| 0 <= i <= |a| - |b| && OccursAt(a, b, i);
    var j :| 0 <= j <= |b| - |c| && OccursAt(b, c, j);
    assert a[i + j..i + j + |c|] == c by {
      forall k | 0 <= k < |c|
        ensures a[i + j..i + j + |c|][k] == c[k]
      {
        assert c[k] == b[j..j + |c|][k] == b[j + k];
        assert b[j + k] == a[i..i + |b|][j + k] == a[i + j + k];
      }
    }
    assert OccursAt(a, c, i + j);
  }

  /** Upper-casing commutes with taking a slice. */
  lemma UpperSlice(s: string, i: int, j: int)
    requires 0 <= i <= j <= |s|
    ensures Upper(s)[i..j] == Upper(s[i..j])
  {
  }

  /** Upper-casing both sides preserves an occurrence. */
  lemma {:induction false} UpperContains(s: string, p: string)
    requires Contains(s, p)
    ensures Contains(Upper(s), Upper(p))
  {
    var i :| 0 <= i <= |s| - |p| && OccursAt(s, p, i);
    UpperSlice(s, i, i + |p|);
    assert OccursAt(Upper(s), Upper(p), i);
  }

  /** Upper-casing is idempotent. */
  lemma UpperIdempotent(s: string)
    ensures Upper(Upper(s)) == Upper(s)
  {
  }

  /** Every string mentions the empty query. */
  lemma EveryStringMentionsEmpty(s: string)
    ensures Mentions(s, "")
  {
    ContainsSelf(Upper(s));
  }

  /** A query and its upper-cased form are mentioned by the same strings. */
  lemma MentionsIgnoresCase(s: string, query: string)
    ensures Mentions(s, Upper(query)) == Mentions(s, query)
  {
    UpperIdempotent(query);
  }

  /** Typing more can only narrow a search: a string mentioning a query
      mentions every part of it. */
  lemma {:induction false} MentionsNarrower(s: string, short: string, long: string)
    requires Contains(long, short)
    requires Mentions(s, long)
    ensures Mentions(s, short)
  {
    UpperContains(long, short);
    ContainsTransitive(Upper(s), Upper(long), Upper(short));
  }
}
