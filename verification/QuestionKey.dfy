/** The key of a question: `keyFor` (internal/cache/cache.go) and `forwardKey`
    (internal/resolver/singleflight.go) build the same bytes, and those bytes identify
    the question up to the case of ASCII letters in its name. */
module QuestionKeys {

  newtype Byte = x: int | 0 <= x < 256

  type Bytes = seq<Byte>

  const PLUS: Byte := 43
  const SLASH: Byte := 47
  const ZERO: Byte := 48

  datatype Question = Question(name: Bytes, qtype: nat, qclass: nat)

  function Lower(b: Byte): Byte { if 65 <= b <= 90 then b + 32 else b }

  function LowerAll(s: Bytes): (r: Bytes)
    ensures |r| == |s| && forall i | 0 <= i < |s| :: r[i] == Lower(s[i])
  {
    if s == [] then [] else LowerAll(s[..|s| - 1]) + [Lower(s[|s| - 1])]
  }

  /** `strconv.AppendUint` in base 10. */
  function Decimal(n: nat): (r: Bytes)
    ensures r != [] && forall b <- r :: ZERO <= b <= ZERO + 9
  {
    if n < 10 then [ZERO + n as Byte] else Decimal(n / 10) + [ZERO + (n % 10) as Byte]
  }

  function Key(q: Question, do: bool): Bytes {
    (if do then [PLUS] else []) + Decimal(q.qclass) + [SLASH] + Decimal(q.qtype) + [SLASH] + LowerAll(q.name)
  }

  /** `forwardKey`. */
  method ForwardKey(q: Question, do: bool) returns (buf: Bytes)
    ensures buf == Key(q, do)
  {
    buf := [];
    if do { buf := buf + [PLUS]; }
    buf := buf + Decimal(q.qclass);
    buf := buf + [SLASH];
    buf := buf + Decimal(q.qtype);
    buf := buf + [SLASH];
    ghost var head := buf;
    for i := 0 to |q.name|
      invariant buf == head + LowerAll(q.name[..i])
    {
      var c := q.name[i];
      if 65 <= c && c <= 90 { c := c + 32; }
      assert q.name[..i + 1][..i] == q.name[..i];
      buf := buf + [c];
    }
    assert q.name[..|q.name|] == q.name;
  }

  /** `appendLower`. */
  method AppendLower(buf0: Bytes, s: Bytes) returns (buf: Bytes)
    ensures buf == buf0 + LowerAll(s)
  {
    buf := buf0;
    for i := 0 to |s|
      invariant buf == buf0 + LowerAll(s[..i])
    {
      var c := s[i];
      if 65 <= c && c <= 90 { c := c + 32; }
      assert s[..i + 1][..i] == s[..i];
      buf := buf + [c];
    }
    assert s[..|s|] == s;
  }

  /** `keyFor`. */
  method KeyFor(q: Question, do: bool) returns (buf: Bytes)
    ensures buf == Key(q, do)
  {
    buf := [];
    if do { buf := buf + [PLUS]; }
    buf := buf + Decimal(q.qclass) + [SLASH];
    buf := buf + Decimal(q.qtype) + [SLASH];
    buf := AppendLower(buf, q.name);
  }

  lemma {:induction false} DecimalInjective(m: nat, n: nat)
    requires Decimal(m) == Decimal(n)
    ensures m == n
  {
    var a, b := Decimal(m), Decimal(n);
    if m < 10 && n < 10 {
      assert a[0] == b[0];
    } else if m >= 10 && n >= 10 {
      assert a[..|a| - 1] == Decimal(m / 10) && b[..|b| - 1] == Decimal(n / 10);
      assert a[|a| - 1] == b[|b| - 1];
      DecimalInjective(m / 10, n / 10);
    } else {
      assert false;
    }
  }

  /** What stands before the first slash, and what after, is determined. */
  lemma SlashSplits(a: Bytes, x: Bytes, b: Bytes, y: Bytes)
    requires a + [SLASH] + x == b + [SLASH] + y
    requires SLASH !in a && SLASH !in b
    ensures a == b && x == y
  {
    var s, t := a + [SLASH] + x, b + [SLASH] + y;
    assert s[|a|] == SLASH && t[|b|] == SLASH;
    assert |a| == |b|;
    assert a == s[..|a|] && b == t[..|b|];
    assert x == s[|a| + 1..] && y == t[|b| + 1..];
  }

  function Head(do: bool, n: nat): Bytes { (if do then [PLUS] else []) + Decimal(n) }

  lemma HeadInjective(d: bool, m: nat, e: bool, n: nat)
    requires Head(d, m) == Head(e, n)
    ensures d == e && m == n
  {
    assert Head(d, m)[0] == if d then PLUS else Decimal(m)[0];
    assert Head(e, n)[0] == if e then PLUS else Decimal(n)[0];
    assert Decimal(m)[0] in Decimal(m) && Decimal(n)[0] in Decimal(n);
    if d {
      assert Decimal(m) == Head(d, m)[1..] && Decimal(n) == Head(e, n)[1..];
    } else {
      assert Decimal(m) == Head(d, m) && Decimal(n) == Head(e, n);
    }
    DecimalInjective(m, n);
  }

  /** The same byte, or the two cases of one ASCII letter. */
  predicate SameByte(a: Byte, b: Byte) {
    || a == b
    || (65 <= a <= 90 && b as int == a as int + 32)
    || (65 <= b <= 90 && a as int == b as int + 32)
  }

  predicate SameName(a: Bytes, b: Bytes) { |a| == |b| && forall i :: 0 <= i < |a| ==> SameByte(a[i], b[i]) }

  lemma LowerDecides(a: Bytes, b: Bytes)
    ensures LowerAll(a) == LowerAll(b) <==> SameName(a, b)
  {
    if LowerAll(a) == LowerAll(b) {
      forall i | 0 <= i < |a| ensures SameByte(a[i], b[i]) {
        assert LowerAll(a)[i] == LowerAll(b)[i];
      }
    }
  }

  /** Two questions share a key exactly when they agree on the DNSSEC variant, class and
      type, and on the name up to ASCII case: a signed answer never goes to a client
      that asked for the unsigned one, and coalescing and caching see the same questions. */
  lemma KeyIdentifies(p: Question, d: bool, q: Question, e: bool)
    ensures Key(p, d) == Key(q, e) <==>
            d == e && p.qclass == q.qclass && p.qtype == q.qtype && SameName(p.name, q.name)
  {
    LowerDecides(p.name, q.name);
    if Key(p, d) == Key(q, e) {
      var x, y := Decimal(p.qtype) + [SLASH] + LowerAll(p.name), Decimal(q.qtype) + [SLASH] + LowerAll(q.name);
      assert Key(p, d) == Head(d, p.qclass) + [SLASH] + x;
      assert Key(q, e) == Head(e, q.qclass) + [SLASH] + y;
      SlashSplits(Head(d, p.qclass), x, Head(e, q.qclass), y);
      HeadInjective(d, p.qclass, e, q.qclass);
      SlashSplits(Decimal(p.qtype), LowerAll(p.name), Decimal(q.qtype), LowerAll(q.name));
      DecimalInjective(p.qtype, q.qtype);
    }
  }
}
