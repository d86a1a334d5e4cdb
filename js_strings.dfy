/**
 * JavaScript strings as the language defines them: finite sequences of
 * 16-bit code units, compared by the relational operators one code unit at
 * a time (the IsLessThan operation of ECMA-262).
 */
module JsStrings {

  /** One UTF-16 code unit; lone surrogates are allowed, as in JavaScript. */
  newtype CodeUnit = x: int | 0 <= x < 0x1_0000

  type JsString = seq<CodeUnit>

  /** The code unit of '/'. */
  const SLASH: CodeUnit := 0x2F

  /**
   * The JavaScript string written by a literal whose characters all lie in
   * the Basic Multilingual Plane: one code unit per character.
   */
  function Js(s: string): (r: JsString)
    requires forall c :: c in s ==> c as int < 0x1_0000
    ensures |r| == |s|
    ensures forall i :: 0 <= i < |s| ==> r[i] as int == s[i] as int
  {
    seq(|s|, i requires 0 <= i < |s| => assert s[i] in s; s[i] as int as CodeUnit)
  }

  /** A literal of printable ASCII has no '/' code unit when its text has no '/'. */
  lemma JsHasNoSlash(s: string)
    requires forall c :: c in s ==> c as int < 0x80 && c != '/'
    ensures SLASH !in Js(s)
  {
    forall i | 0 <= i < |s|
      ensures Js(s)[i] != SLASH
    {
      assert s[i] in s;
    }
  }

  /**
   * `a > b` on two strings: true when b is a proper prefix of a, or when at
   * the first index where they differ a's code unit is the larger one.
   */
  predicate Greater(a: JsString, b: JsString)
    ensures Greater(a, b) ==> |a| > 0 && (|b| == 0 || a[0] >= b[0])
    ensures |b| < |a| && a[..|b|] == b ==> Greater(a, b)
    decreases |a|
  {
    if |a| == 0 then false
    else if |b| == 0 then true
    else if a[0] != b[0] then a[0] > b[0]
    else Greater(a[1..], b[1..])
  }

  /** The order as ECMA-262 states it, by prefixes and the first differing index. */
  ghost predicate GreaterByDefinition(a: JsString, b: JsString)
  {
    || (|b| < |a| && a[..|b|] == b)
    || exists k :: 0 <= k < |a| && k < |b| && a[..k] == b[..k] && a[k] > b[k]
  }

  /** The recursive comparison is exactly the order ECMA-262 defines. */
  lemma {:induction false} GreaterMatchesDefinition(a: JsString, b: JsString)
    ensures Greater(a, b) <==> GreaterByDefinition(a, b)
    decreases |a|
  {
    if |a| == 0 {
    } else if |b| == 0 {
      assert a[..|b|] == b;
    } else if a[0] != b[0] {
      assert a[..0] == b[..0];
      forall k | 0 < k <= |a| && k <= |b|
        ensures a[..k] != b[..k]
      {
        assert a[..k][0] == a[0] && b[..k][0] == b[0];
      }
    } else {
      var a', b' := a[1..], b[1..];
      GreaterMatchesDefinition(a', b');
      if |b'| < |a'| && a'[..|b'|] == b' {
        assert a[..|b|] == [a[0]] + a'[..|b'|];
        assert b == [b[0]] + b';
      }
      if |b| < |a| && a[..|b|] == b {
        assert a'[..|b'|] == a[..|b|][1..];
        assert b' == b[1..];
      }
      if exists k :: 0 <= k < |a'| && k < |b'| && a'[..k] == b'[..k] && a'[k] > b'[k] {
        var k :| 0 <= k < |a'| && k < |b'| && a'[..k] == b'[..k] && a'[k] > b'[k];
        assert a[..k + 1] == [a[0]] + a'[..k];
        assert b[..k + 1] == [b[0]] + b'[..k];
        assert a[k + 1] == a'[k] && b[k + 1] == b'[k];
      }
      if exists k :: 0 <= k < |a| && k < |b| && a[..k] == b[..k] && a[k] > b[k] {
        var k :| 0 <= k < |a| && k < |b| && a[..k] == b[..k] && a[k] > b[k];
        assert k > 0;
        assert a'[..k - 1] == a[..k][1..];
        assert b'[..k - 1] == b[..k][1..];
        assert a'[k - 1] == a[k] && b'[k - 1] == b[k];
      }
    }
  }

  lemma {:induction false} GreaterIrreflexive(a: JsString)
    ensures !Greater(a, a)
    decreases |a|
  {
    if |a| > 0 {
      GreaterIrreflexive(a[1..]);
    }
  }

  lemma {:induction false} GreaterAsymmetric(a: JsString, b: JsString)
    ensures Greater(a, b) ==> !Greater(b, a)
    decreases |a|
  {
    if |a| > 0 && |b| > 0 && a[0] == b[0] {
      GreaterAsymmetric(a[1..], b[1..]);
    }
  }

  lemma {:induction false} GreaterTransitive(a: JsString, b: JsString, c: JsString)
    ensures Greater(a, b) && Greater(b, c) ==> Greater(a, c)
    decreases |a|
  {
    if |a| > 0 && |b| > 0 && |c| > 0 && a[0] == b[0] && b[0] == c[0] {
      GreaterTransitive(a[1..], b[1..], c[1..]);
    }
  }

  /** Two different strings are always ordered one way or the other. */
  lemma {:induction false} GreaterTotal(a: JsString, b: JsString)
    ensures a != b ==> Greater(a, b) || Greater(b, a)
    decreases |a|
  {
    if |a| > 0 && |b| > 0 && a[0] == b[0] {
      GreaterTotal(a[1..], b[1..]);
      if a[1..] == b[1..] {
        assert a == [a[0]] + a[1..] && b == [b[0]] + b[1..];
      }
    }
  }

  /** "Not greater" is transitive, which is what a sorted listing relies on. */
  lemma NotGreaterTransitive(a: JsString, b: JsString, c: JsString)
    ensures !Greater(a, b) && !Greater(b, c) ==> !Greater(a, c)
  {
    if !Greater(a, b) && !Greater(b, c) && a != b && b != c {
      GreaterTotal(a, b);
      GreaterTotal(b, c);
      GreaterTransitive(c, b, a);
      GreaterAsymmetric(c, a);
    }
  }

  /**
   * The order is case-sensitive: a string starting with an upper-case ASCII
   * letter precedes every string starting with a lower-case one, so "Beta"
   * comes before "alpha".
   */
  lemma UpperCaseFirst(lower: JsString, upper: JsString)
    requires |lower| > 0 && 'a' as int <= lower[0] as int <= 'z' as int
    requires |upper| > 0 && 'A' as int <= upper[0] as int <= 'Z' as int
    ensures Greater(lower, upper) && !Greater(upper, lower)
  {
  }
}
