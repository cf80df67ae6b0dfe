/** Shared vocabulary of the storefront model: optional values, outcomes of
    backend calls, dynamically typed JavaScript values, and the string
    operations the components use (trim, lower-case, substring search). */
module Common {

  datatype Option<+T> = None | Some(value: T)

  /** What an awaited backend call did: resolved with a value, or threw. */
  datatype Outcome<+T> = Succeeded(value: T) | Failed

  datatype Result<+T, +E> = Ok(value: T) | Err(error: E)

  /** A JavaScript value as it travels in documents, query parameters and
      query results. Numbers are integers in this model. */
  datatype Value = Undefined | Null | Bool(b: bool) | Num(n: int) | Str(s: string)

  /** JavaScript truthiness: `undefined`, `null`, `false`, `0` and `''` are falsy. */
  predicate Truthy(v: Value) {
    match v
    case Undefined => false
    case Null => false
    case Bool(b) => b
    case Num(n) => n != 0
    case Str(s) => s != ""
  }

  /** `v || fallback` */
  function OrElse(v: Value, fallback: Value): (r: Value)
    ensures Truthy(v) ==> r == v
    ensures !Truthy(v) ==> r == fallback
  {
    if Truthy(v) then v else fallback
  }

  /** The `useX()` hooks: the context value when a provider is mounted above
      the caller, otherwise the hook throws the given message. */
  function RequireProvider<T>(ctx: Option<T>, message: string): (r: Result<T, string>)
    ensures r.Ok? <==> ctx.Some?
    ensures r.Ok? ==> r.value == ctx.value
    ensures r.Err? ==> r.error == message
  {
    match ctx
    case Some(c) => Ok(c)
    case None => Err(message)
  }

  // ---------------------------------------------------------------------
  // Whitespace and String.prototype.trim

  /** ECMAScript WhiteSpace and LineTerminator code points: exactly the
      characters that `String.prototype.trim` strips. */
  predicate IsWs(c: char) {
    || c == '\t' || c == '\n' || c == '\U{000B}' || c == '\U{000C}' || c == '\r'
    || c == ' ' || c == '\U{00A0}' || c == '\U{1680}'
    || ('\U{2000}' <= c <= '\U{200A}')
    || c == '\U{2028}' || c == '\U{2029}' || c == '\U{202F}' || c == '\U{205F}'
    || c == '\U{3000}' || c == '\U{FEFF}'
  }

  predicate AllWs(s: string) {
    forall k :: 0 <= k < |s| ==> IsWs(s[k])
  }

  predicate NoWs(s: string) {
    forall k :: 0 <= k < |s| ==> !IsWs(s[k])
  }

  /** The end of the whitespace run of `s` that starts at `i`. */
  function SkipWs(s: string, i: nat): (k: nat)
    requires i <= |s|
    ensures i <= k <= |s|
    ensures forall j :: i <= j < k ==> IsWs(s[j])
    ensures k < |s| ==> !IsWs(s[k])
    decreases |s| - i
  {
    if i < |s| && IsWs(s[i]) then SkipWs(s, i + 1) else i
  }

  /** The start of the whitespace run of `s` that ends at `j`, not going below `lo`. */
  function SkipWsBack(s: string, lo: nat, j: nat): (k: nat)
    requires lo <= j <= |s|
    ensures lo <= k <= j
    ensures forall m :: k <= m < j ==> IsWs(s[m])
    ensures k > lo ==> !IsWs(s[k - 1])
    decreases j
  {
    if j > lo && IsWs(s[j - 1]) then SkipWsBack(s, lo, j - 1) else j
  }

  /** `r` is `s` with the whitespace prefix `s[..i]` and a whitespace suffix removed. */
  predicate TrimmedAt(s: string, r: string, i: int) {
    0 <= i <= |s| - |r| && r == s[i..i + |r|] && AllWs(s[..i]) && AllWs(s[i + |r|..])
  }

  /** `s.trim()`: whitespace dropped from both ends. */
  function Trim(s: string): (r: string)
    ensures |r| <= |s|
    ensures r != [] ==> !IsWs(r[0]) && !IsWs(r[|r| - 1])
  {
    var i := SkipWs(s, 0);
    var j := SkipWsBack(s, i, |s|);
    assert j > i ==> s[i..j][0] == s[i] && s[i..j][j - i - 1] == s[j - 1];
    s[i..j]
  }

  /** `Trim` removes whitespace on both sides only: the result is a slice of
      `s` between a whitespace prefix and a whitespace suffix. */
  lemma TrimIsSlice(s: string) returns (i: int)
    ensures TrimmedAt(s, Trim(s), i)
  {
    i := SkipWs(s, 0);
    var j := SkipWsBack(s, i, |s|);
    assert Trim(s) == s[i..j];
    assert AllWs(s[..i]) by {
      forall k | 0 <= k < i ensures IsWs(s[..i][k]) {
        assert s[..i][k] == s[k];
      }
    }
    assert AllWs(s[j..]) by {
      forall k | 0 <= k < |s| - j ensures IsWs(s[j..][k]) {
        assert s[j..][k] == s[j + k];
      }
    }
  }

  /** `!s.trim()`, equivalently `s.trim() === ''`. */
  predicate IsBlank(s: string) {
    Trim(s) == ""
  }

  lemma BlankIffAllWs(s: string)
    ensures IsBlank(s) <==> AllWs(s)
  {
    var r := Trim(s);
    var i := TrimIsSlice(s);
    if r == [] {
      forall k | 0 <= k < |s| ensures IsWs(s[k]) {
        if k < i { assert s[..i][k] == s[k]; } else { assert s[i..][k - i] == s[k]; }
      }
    } else {
      assert s[i] == r[0];
    }
  }

  // ---------------------------------------------------------------------
  // Case folding and substring search

  /** `toLowerCase` on one character, for the Basic Latin letters. */
  function LowerChar(c: char): (r: char)
    ensures 'A' <= c <= 'Z' ==> 'a' <= r <= 'z' && r as int - c as int == 32
    ensures !('A' <= c <= 'Z') ==> r == c
  {
    if 'A' <= c <= 'Z' then (c as int + 32) as char else c
  }

  function Lower(s: string): (r: string)
    ensures |r| == |s|
    ensures forall k :: 0 <= k < |s| ==> r[k] == LowerChar(s[k])
  {
    seq(|s|, k requires 0 <= k < |s| => LowerChar(s[k]))
  }

  predicate OccursAt(s: string, p: string, i: int) {
    0 <= i <= |s| - |p| && s[i..i + |p|] == p
  }

  /** `s.includes(p)` */
  predicate Contains(s: string, p: string) {
    exists i | 0 <= i <= |s| - |p| :: OccursAt(s, p, i)
  }

  lemma ContainsMiddle(a: string, p: string, b: string)
    ensures Contains(a + p + b, p)
  {
    assert (a + p + b)[|a|..|a| + |p|] == p;
    assert OccursAt(a + p + b, p, |a|);
  }

  lemma ContainsItself(p: string)
    ensures Contains(p, p)
  {
    assert p[0..|p|] == p;
    assert OccursAt(p, p, 0);
  }

  lemma TooLongNotContained(s: string, p: string)
    requires |p| > |s|
    ensures !Contains(s, p)
  {
  }

  /** An occurrence of `q + p` contains an occurrence of `p`. */
  lemma ContainsSuffixOfPattern(s: string, q: string, p: string)
    ensures Contains(s, q + p) ==> Contains(s, p)
  {
    if Contains(s, q + p) {
      var i :| 0 <= i <= |s| - |q + p| && OccursAt(s, q + p, i);
      assert s[i + |q|..i + |q| + |p|] == (q + p)[|q|..];
      assert OccursAt(s, p, i + |q|);
    }
  }

  /** A pattern that needs a character the text lacks does not occur in it. */
  lemma AbsentByMissingChar(s: string, p: string, c: char)
    requires c in p && c !in s
    ensures !Contains(s, p)
  {
    var k :| 0 <= k < |p| && p[k] == c;
    forall i | 0 <= i <= |s| - |p| ensures !OccursAt(s, p, i) {
      assert s[i + k] in s;
      assert s[i..i + |p|][k] == s[i + k];
    }
  }

  /** Splitting a text after a whitespace character: a pattern without
      whitespace occurs in `a + rest` only inside `a` or inside `rest`. */
  lemma AbsentAcrossWs(a: string, rest: string, p: string, c: char)
    requires |a| > 0 && IsWs(a[|a| - 1]) && NoWs(p)
    requires c in p && c !in a && !Contains(rest, p)
    ensures !Contains(a + rest, p)
  {
    var k :| 0 <= k < |p| && p[k] == c;
    forall i | 0 <= i <= |a + rest| - |p| ensures !OccursAt(a + rest, p, i) {
      if i + |p| <= |a| {
        assert a[i + k] in a;
        assert (a + rest)[i..i + |p|][k] == a[i + k];
      } else if i >= |a| {
        assert !OccursAt(rest, p, i - |a|);
        assert (a + rest)[i..i + |p|] == rest[i - |a|..i - |a| + |p|];
      } else {
        assert (a + rest)[i..i + |p|][|a| - 1 - i] == a[|a| - 1];
      }
    }
  }

  // ---------------------------------------------------------------------
  // Order-preserving sublists

  /** `r` is `s` with some elements dropped and the rest in their order. */
  predicate SubsequenceOf<T(==)>(r: seq<T>, s: seq<T>)
    decreases |s|
  {
    if s == [] then r == []
    else (r != [] && r[0] == s[0] && SubsequenceOf(r[1..], s[1..])) || SubsequenceOf(r, s[1..])
  }

  lemma {:induction false} SubsequenceOfItself<T>(s: seq<T>)
    ensures SubsequenceOf(s, s)
    decreases |s|
  {
    if s != [] {
      SubsequenceOfItself(s[1..]);
    }
  }

  lemma {:induction false} SubsequenceMultiset<T>(r: seq<T>, s: seq<T>)
    requires SubsequenceOf(r, s)
    ensures multiset(r) <= multiset(s)
    decreases |s|
  {
    if s != [] {
      assert s == [s[0]] + s[1..];
      if r != [] && r[0] == s[0] && SubsequenceOf(r[1..], s[1..]) {
        SubsequenceMultiset(r[1..], s[1..]);
        assert r == [r[0]] + r[1..];
      } else {
        SubsequenceMultiset(r, s[1..]);
      }
    }
  }
}
