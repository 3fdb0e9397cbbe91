/**
 * The two JavaScript string operations the router relies on:
 * `String.prototype.toUpperCase` (restricted to ASCII, which is all an HTTP
 * method name uses) and `url.split("?")[0]`, the part of a URL before its
 * query string. It also holds the test `isGenerator` applies to a
 * function's source text.
 */
module JsString {

  predicate IsLower(c: char) { 'a' <= c <= 'z' }

  predicate IsUpper(c: char) { 'A' <= c <= 'Z' }

  /** ASCII upper-casing of a single character; every other character is kept. */
  function UpperChar(c: char): char
  {
    if IsLower(c) then (c as int - 32) as char else c
  }

  /**
   * `s.toUpperCase()` over ASCII: the same length, every character
   * upper-cased in place, and no lower-case letter left.
   */
  function ToUpperCase(s: string): (r: string)
    ensures |r| == |s|
    ensures forall i :: 0 <= i < |s| ==> r[i] == UpperChar(s[i])
    ensures forall i :: 0 <= i < |r| ==> !IsLower(r[i])
  {
    if s == [] then [] else [UpperChar(s[0])] + ToUpperCase(s[1..])
  }

  /**
   * Reference definition of "the same character up to letter case",
   * written without upper-casing: equal, or the same letter in the
   * other case.
   */
  predicate SameIgnoringCase(a: char, b: char)
  {
    || a == b
    || (IsLower(a) && IsUpper(b) && a as int == b as int + 32)
    || (IsUpper(a) && IsLower(b) && b as int == a as int + 32)
  }

  /** Two strings that differ at most in the case of their letters. */
  predicate EqualsIgnoringCase(a: string, b: string)
  {
    |a| == |b| && forall i :: 0 <= i < |a| ==> SameIgnoringCase(a[i], b[i])
  }

  /** Upper-casing identifies two characters exactly when they agree up to case. */
  lemma UpperCharAgrees(a: char, b: char)
    ensures UpperChar(a) == UpperChar(b) <==> SameIgnoringCase(a, b)
  {
  }

  /**
   * Comparing upper-cased strings is case-insensitive equality, in both
   * directions.
   */
  lemma ToUpperCaseAgrees(a: string, b: string)
    ensures ToUpperCase(a) == ToUpperCase(b) <==> EqualsIgnoringCase(a, b)
  {
    var ua, ub := ToUpperCase(a), ToUpperCase(b);
    if ua == ub {
      forall i | 0 <= i < |a|
        ensures SameIgnoringCase(a[i], b[i])
      {
        assert ua[i] == ub[i];
        UpperCharAgrees(a[i], b[i]);
      }
    }
    if EqualsIgnoringCase(a, b) {
      forall i | 0 <= i < |a|
        ensures ua[i] == ub[i]
      {
        UpperCharAgrees(a[i], b[i]);
      }
      assert ua == ub;
    }
  }

  /** Agreement up to case is an equivalence: it is symmetric and transitive. */
  lemma EqualsIgnoringCaseEquivalence(a: string, b: string, c: string)
    ensures EqualsIgnoringCase(a, a)
    ensures EqualsIgnoringCase(a, b) ==> EqualsIgnoringCase(b, a)
    ensures EqualsIgnoringCase(a, b) && EqualsIgnoringCase(b, c) ==> EqualsIgnoringCase(a, c)
  {
  }

  /**
   * `url.split("?")[0]`: the longest prefix of `url` without a '?'. It is a
   * prefix of `url`, holds no '?', and is either all of `url` or is
   * followed in `url` by the first '?'.
   */
  function BeforeQuery(url: string): (r: string)
    ensures r <= url
    ensures '?' !in r
    ensures |r| < |url| ==> url[|r|] == '?'
  {
    if url == [] || url[0] == '?' then [] else [url[0]] + BeforeQuery(url[1..])
  }

  /** The three properties in BeforeQuery's contract determine its result. */
  lemma BeforeQueryUnique(url: string, r: string)
    requires r <= url && '?' !in r
    requires |r| < |url| ==> url[|r|] == '?'
    ensures BeforeQuery(url) == r
  {
  }

  /**
   * A query string appended with '?' never changes what is kept, and a URL
   * without one is kept whole.
   */
  lemma BeforeQueryDropsQuery(path: string, query: string)
    requires '?' !in path
    ensures BeforeQuery(path) == path
    ensures BeforeQuery(path + "?" + query) == path
  {
    BeforeQueryUnique(path, path);
    BeforeQueryUnique(path + "?" + query, path);
  }

  /**
   * What `url.split("?")[0]` keeps is `path` exactly when `path` holds no
   * '?' and `url` is `path` alone or `path` followed by a query string.
   */
  lemma BeforeQueryIs(url: string, path: string)
    ensures BeforeQuery(url) == path <==> '?' !in path && (url == path || path + "?" <= url)
  {
    var b := BeforeQuery(url);
    if '?' !in path && (url == path || path + "?" <= url) {
      BeforeQueryUnique(url, path);
    }
    if b == path && b != url {
      assert url[..|b| + 1] == b + "?";
    }
  }

  /**
   * JavaScript's `\s` class: the white-space characters and the line
   * terminators of ECMAScript.
   */
  predicate IsJsSpace(c: char)
  {
    var n := c as int;
    || 0x09 <= n <= 0x0D || n == 0x20 || n == 0xA0 || n == 0x1680
    || 0x2000 <= n <= 0x200A || n == 0x2028 || n == 0x2029 || n == 0x202F
    || n == 0x205F || n == 0x3000 || n == 0xFEFF
  }

  /** Drops one leading `\s` character, if there is one (the regular expression's `\s?`). */
  function SkipOptionalSpace(u: string): string
  {
    if |u| > 0 && IsJsSpace(u[0]) then u[1..] else u
  }

  /**
   * The test `isGenerator` applies to source text: it starts with
   * "function", an optional `\s`, a '*', an optional `\s` and a '('.
   * Neither optional space can stand for the '*' or the '(', so taking
   * each space whenever one is there decides the match.
   */
  predicate MatchesGeneratorPattern(t: string)
  {
    && "function" <= t
    && var a := SkipOptionalSpace(t[8..]);
    && |a| > 0 && a[0] == '*'
    && var b := SkipOptionalSpace(a[1..]);
    && |b| > 0 && b[0] == '('
  }

  /** Nothing, or a single `\s` character: what `\s?` can match. */
  predicate OptionalSpace(w: string)
  {
    w == [] || (|w| == 1 && IsJsSpace(w[0]))
  }

  /** `t` begins with "function", `w1`, '*', `w2` and '(', each `w` an optional space. */
  predicate HasGeneratorShape(t: string, w1: string, w2: string)
  {
    OptionalSpace(w1) && OptionalSpace(w2) && "function" + w1 + "*" + w2 + "(" <= t
  }

  /** A text that begins with one of the pattern's shapes matches it. */
  lemma ShapeMatchesGeneratorPattern(w1: string, w2: string, t: string)
    requires HasGeneratorShape(t, w1, w2)
    ensures MatchesGeneratorPattern(t)
  {
    var p := "function" + w1 + "*" + w2 + "(";
    assert t[..|p|] == p;
    assert forall k :: 0 <= k < |p| ==> t[k] == p[k];
    assert t[..8] == "function";
    var a := SkipOptionalSpace(t[8..]);
    if w1 == [] {
      assert t[8] == '*';
      assert a == t[8..];
    } else {
      assert t[8] == w1[0] && t[9] == '*';
      assert a == t[9..];
    }
    assert a == t[8 + |w1|..];
    var b := SkipOptionalSpace(a[1..]);
    if w2 == [] {
      assert t[9 + |w1|] == '(';
      assert b == t[9 + |w1|..];
    } else {
      assert t[9 + |w1|] == w2[0] && t[10 + |w1|] == '(';
      assert b == t[10 + |w1|..];
    }
  }

  /** A text that matches the pattern begins with one of its shapes. */
  lemma GeneratorPatternHasShape(t: string)
    requires MatchesGeneratorPattern(t)
    ensures exists w1, w2 :: HasGeneratorShape(t, w1, w2)
  {
    var w1 := if IsJsSpace(t[8]) then t[8..9] else [];
    var a := t[8 + |w1|..];
    assert a == SkipOptionalSpace(t[8..]);
    var w2 := if |a| > 1 && IsJsSpace(a[1]) then a[1..2] else [];
    var p := "function" + w1 + "*" + w2 + "(";
    forall k | 0 <= k < |p|
      ensures k < |t| && p[k] == t[k]
    {
      if k < 8 {
        assert t[..8] == "function";
      }
    }
    assert p <= t;
    assert HasGeneratorShape(t, w1, w2);
  }

  /**
   * Reference reading of the pattern: the text matches exactly when it
   * begins with "function", an optional space, '*', an optional space
   * and '('.
   */
  lemma MatchesGeneratorPatternIff(t: string)
    ensures MatchesGeneratorPattern(t) <==> exists w1, w2 :: HasGeneratorShape(t, w1, w2)
  {
    if MatchesGeneratorPattern(t) {
      GeneratorPatternHasShape(t);
    }
    if exists w1, w2 :: HasGeneratorShape(t, w1, w2) {
      var w1, w2 :| HasGeneratorShape(t, w1, w2);
      ShapeMatchesGeneratorPattern(w1, w2, t);
    }
  }
}
