/** What the category index makes of names and categories (internal/categories/index.go:24-31,
    103-108). */
module CategoryNames {
  import opened CategoryIndex
  import opened DomainNames
  import opened Wrappers

  /** A category's number is its first position in the order of precedence; others have none. */
  lemma RankIs(c: string)
    ensures match Rank(c)
            case Some(i) => i < |PRECEDENCE| && PRECEDENCE[i] == c && forall j :: 0 <= j < i ==> PRECEDENCE[j] != c
            case None => c !in PRECEDENCE
  {
    FindIs(PRECEDENCE, c, 0);
  }

  lemma {:induction false} FindIs(list: seq<string>, c: string, i: nat)
    requires i <= |list|
    ensures match Find(list, c, i)
            case Some(k) => i <= k < |list| && list[k] == c && forall j :: i <= j < k ==> list[j] != c
            case None => forall j :: i <= j < |list| ==> list[j] != c
    decreases |list| - i
  {
    if i < |list| && list[i] != c { FindIs(list, c, i + 1); }
  }

  predicate IsSpace(c: char) { c in {' ', '\t', '\n', '\U{0B}', '\U{0C}', '\r'} }

  predicate AllSpace(s: string) { forall i :: 0 <= i < |s| ==> IsSpace(s[i]) }

  /** `t` is the string without the white space around it. */
  ghost predicate TrimmedTo(d: string, t: string) {
    && (exists a, b :: d == a + t + b && AllSpace(a) && AllSpace(b))
    && (t != "" ==> !IsSpace(t[0]) && !IsSpace(t[|t| - 1]))
  }

  predicate WithoutDot(t: string, u: string) { t == u + "." || (t == u && (u == "" || u[|u| - 1] != '.')) }

  predicate WithoutStar(u: string, v: string) { u == "*." + v || (u == v && !("*." <= u)) }

  predicate InLower(v: string, n: string) {
    |n| == |v| && forall i :: 0 <= i < |v| ==>
                    if 'A' <= v[i] <= 'Z' then n[i] as int == v[i] as int + 32 else n[i] == v[i]
  }

  /** The name in the index: without white space around it, then a trailing dot, then a leading
      "*.", in lower case. */
  ghost predicate NormalOf(d: string, n: string) {
    exists t, u, v :: TrimmedTo(d, t) && WithoutDot(t, u) && WithoutStar(u, v) && InLower(v, n)
  }

  lemma {:induction false} LeftTrims(s: string) returns (a: string)
    ensures s == a + TrimLeft(s) && AllSpace(a) && (TrimLeft(s) != "" ==> !IsSpace(TrimLeft(s)[0]))
  {
    if s != "" && Space(s[0]) {
      var b := LeftTrims(s[1..]);
      a := [s[0]] + b;
      assert s == [s[0]] + s[1..];
    } else {
      a := "";
      assert s == "" + s;
    }
  }

  lemma {:induction false} RightTrims(s: string) returns (b: string)
    ensures s == TrimRight(s) + b && AllSpace(b)
    ensures TrimRight(s) != "" ==> !IsSpace(TrimRight(s)[|TrimRight(s)| - 1]) && TrimRight(s)[0] == s[0]
  {
    if s != "" && Space(s[|s| - 1]) {
      var c := RightTrims(s[..|s| - 1]);
      b := c + [s[|s| - 1]];
      assert s == s[..|s| - 1] + [s[|s| - 1]];
    } else {
      b := "";
      assert s == s + "";
    }
  }

  lemma NormalizeIs(d: string)
    ensures NormalOf(d, Normalize(d))
  {
    var a := LeftTrims(d);
    var l := TrimLeft(d);
    var b := RightTrims(l);
    var t := TrimRight(l);
    assert d == a + t + b;
    assert TrimmedTo(d, t);
    var u := if t != "" && t[|t| - 1] == '.' then t[..|t| - 1] else t;
    assert WithoutDot(t, u) by { if t != "" && t[|t| - 1] == '.' { assert t == u + "."; } }
    var v := if |u| >= 2 && u[..2] == "*." then u[2..] else u;
    assert WithoutStar(u, v) by { if |u| >= 2 && u[..2] == "*." { assert u == "*." + v; } }
    assert InLower(v, Normalize(d));
  }
}
