/** The content hash of the replicated configuration (internal/store/cluster.go): the
    streamed hash of the sorted lines, the rewrites chosen for a node, and the batched,
    memoised versions of many nodes. Strings are sequences of bytes; the digest is a
    parameter. */
module ConfigVersion {
  import opened Wrappers

  // ---------------------------------------------------------------- sort.Strings

  predicate Leq(a: string, b: string) {
    a == "" || (b != "" && (a[0] < b[0] || (a[0] == b[0] && Leq(a[1..], b[1..]))))
  }

  lemma {:induction false} LeqTotal(a: string, b: string)
    ensures Leq(a, b) || Leq(b, a)
  {
    if a != "" && b != "" { LeqTotal(a[1..], b[1..]); }
  }

  lemma {:induction false} LeqAntisymmetric(a: string, b: string)
    requires Leq(a, b) && Leq(b, a)
    ensures a == b
  {
    if a != "" && b != "" {
      LeqAntisymmetric(a[1..], b[1..]);
      assert a == [a[0]] + a[1..] && b == [b[0]] + b[1..];
    }
  }

  lemma {:induction false} LeqTransitive(a: string, b: string, c: string)
    requires Leq(a, b) && Leq(b, c)
    ensures Leq(a, c)
  {
    if a != "" && a[0] == b[0] == c[0] { LeqTransitive(a[1..], b[1..], c[1..]); }
  }

  predicate Below(x: string, s: seq<string>) { forall i :: 0 <= i < |s| ==> Leq(x, s[i]) }

  predicate Ordered(s: seq<string>) { s == [] || (Below(s[0], s[1..]) && Ordered(s[1..])) }

  function Insert(x: string, s: seq<string>): (r: seq<string>)
    ensures multiset(r) == multiset{x} + multiset(s)
  {
    if s == [] then [x]
    else if Leq(x, s[0]) then [x] + s
    else
      assert s == [s[0]] + s[1..];
      [s[0]] + Insert(x, s[1..])
  }

  function Sorted(s: seq<string>): (r: seq<string>)
    ensures multiset(r) == multiset(s)
  {
    if s == [] then []
    else
      assert s == [s[0]] + s[1..];
      Insert(s[0], Sorted(s[1..]))
  }

  lemma {:induction false} InsertOrdered(x: string, s: seq<string>)
    requires Ordered(s)
    ensures Ordered(Insert(x, s))
  {
    if s != [] {
      LeqTotal(x, s[0]);
      if Leq(x, s[0]) {
        forall i | 0 <= i < |s| ensures Leq(x, s[i]) {
          if i > 0 {
            assert s[i] == s[1..][i - 1];
            LeqTransitive(x, s[0], s[i]);
          }
        }
        assert ([x] + s)[1..] == s;
      } else {
        var r := Insert(x, s[1..]);
        InsertOrdered(x, s[1..]);
        forall i | 0 <= i < |r| ensures Leq(s[0], r[i]) {
          assert r[i] in multiset(r);
          if r[i] != x { assert r[i] in s[1..]; }
        }
        assert ([s[0]] + r)[1..] == r;
      }
    }
  }

  lemma {:induction false} SortedOrdered(s: seq<string>)
    ensures Ordered(Sorted(s))
  {
    if s != [] {
      SortedOrdered(s[1..]);
      InsertOrdered(s[0], Sorted(s[1..]));
    }
  }

  lemma {:induction false} OrderedUnique(a: seq<string>, b: seq<string>)
    requires Ordered(a) && Ordered(b) && multiset(a) == multiset(b)
    ensures a == b
  {
    assert |multiset(a)| == |a| && |multiset(b)| == |b|;
    if a != [] {
      assert a[0] in multiset(b);
      assert b[0] in multiset(a);
      assert a == [a[0]] + a[1..] && b == [b[0]] + b[1..];
      if a[0] != b[0] {
        assert b[0] in a[1..] && a[0] in b[1..];
        LeqAntisymmetric(a[0], b[0]);
      }
      assert multiset(a[1..]) == multiset(a) - multiset{a[0]};
      assert multiset(b[1..]) == multiset(b) - multiset{b[0]};
      OrderedUnique(a[1..], b[1..]);
    }
  }

  // ---------------------------------------------------------------- hashLines

  /** strings.Join(lines, "\n"). */
  function Join(lines: seq<string>): string {
    if lines == [] then ""
    else if |lines| == 1 then lines[0]
    else lines[0] + "\n" + Join(lines[1..])
  }

  lemma {:induction false} JoinOneMore(lines: seq<string>, last: string)
    ensures Join(lines + [last]) == Join(lines) + (if lines == [] then "" else "\n") + last
  {
    if lines == [] {
      assert lines + [last] == [last];
    } else {
      assert (lines + [last])[1..] == lines[1..] + [last];
      JoinOneMore(lines[1..], last);
    }
  }

  /** The text a set of lines is hashed from. */
  function Text(lines: seq<string>): string { Join(Sorted(lines)) }

  lemma StreamOneMore(lines: seq<string>, i: nat)
    requires i < |lines|
    ensures Join(lines[..i + 1]) == Join(lines[..i]) + (if i > 0 then "\n" + lines[i] else lines[i])
  {
    JoinOneMore(lines[..i], lines[i]);
    assert lines[..i + 1] == lines[..i] + [lines[i]];
    if i > 0 { assert Join(lines[..i]) + "\n" + lines[i] == Join(lines[..i]) + ("\n" + lines[i]); }
  }

  const BUFFER_SIZE: nat := 65536

  /** One turn: flush if the line does not fit, then append it. The capacity may grow. */
  method Stream(fed0: string, buf0: string, capacity0: nat, piece: string, size: nat)
    returns (fed: string, buf: string, capacity: nat)
    ensures fed + buf == fed0 + buf0 + piece
  {
    fed, buf, capacity := fed0, buf0, capacity0;
    if |buf| > 0 && |buf| + size + 1 > capacity {
      fed := fed + buf;
      buf := "";
    }
    assert fed + buf == fed0 + buf0;
    assert fed + (buf + piece) == (fed + buf) + piece;
    buf := buf + piece;
    if |buf| > capacity { capacity :| capacity >= |buf|; }
  }

  /** The lines pass through a buffer; the hasher is fed the sorted lines joined by
      newlines, whatever the flushes. */
  method HashLines(lines: seq<string>, digest: string -> string) returns (hash: string)
    ensures hash == digest(Text(lines))
  {
    var sorted := Sorted(lines);
    var fed, buf, capacity := "", "", BUFFER_SIZE;
    for i := 0 to |sorted|
      invariant fed + buf == Join(sorted[..i])
    {
      StreamOneMore(sorted, i);
      fed, buf, capacity := Stream(fed, buf, capacity, if i > 0 then "\n" + sorted[i] else sorted[i], |sorted[i]|);
    }
    assert sorted[..|sorted|] == sorted;
    fed := fed + buf;
    hash := digest(fed);
  }

  /** The hash does not depend on the order of the lines. */
  lemma TextIsOrderFree(a: seq<string>, b: seq<string>)
    requires multiset(a) == multiset(b)
    ensures Text(a) == Text(b)
  {
    SortedOrdered(a);
    SortedOrdered(b);
    OrderedUnique(Sorted(a), Sorted(b));
  }

  // ---------------------------------------------------------------- joined lines

  predicate Line(s: string) { s != "" && '\n' !in s }

  predicate Lines(s: seq<string>) { forall i :: 0 <= i < |s| ==> Line(s[i]) }

  lemma FirstLine(a: seq<string>)
    requires a != []
    ensures |a[0]| <= |Join(a)| && Join(a)[..|a[0]|] == a[0]
    ensures |a| == 1 ==> |Join(a)| == |a[0]|
    ensures |a| > 1 ==> |a[0]| < |Join(a)| && Join(a)[|a[0]|] == '\n' && Join(a)[|a[0]| + 1..] == Join(a[1..])
  {
  }

  lemma FirstLineHasNoNewline(a: seq<string>, k: nat)
    requires Lines(a) && a != [] && k < |a[0]|
    ensures k < |Join(a)| && Join(a)[k] != '\n'
  {
    FirstLine(a);
    assert Join(a)[k] == a[0][k];
    assert a[0][k] in a[0];
  }

  lemma FirstLinesEqual(a: seq<string>, b: seq<string>)
    requires Lines(a) && Lines(b) && a != [] && b != [] && Join(a) == Join(b)
    ensures |a[0]| <= |b[0]|
  {
    if |b[0]| < |a[0]| {
      FirstLineHasNoNewline(a, |b[0]|);
      FirstLine(b);
    }
  }

  /** Joined lines determine the lines, when none is empty or holds a newline. */
  lemma {:induction false} JoinInjective(a: seq<string>, b: seq<string>)
    requires Lines(a) && Lines(b) && Join(a) == Join(b)
    ensures a == b
  {
    if a == [] || b == [] {
      if a != [] { FirstLine(a); }
      if b != [] { FirstLine(b); }
    } else {
      FirstLinesEqual(a, b);
      FirstLinesEqual(b, a);
      FirstLine(a);
      FirstLine(b);
      if |a| > 1 {
        JoinInjective(a[1..], b[1..]);
        assert a == [a[0]] + a[1..] && b == [b[0]] + b[1..];
      }
    }
  }

  // ---------------------------------------------------------------- the rewrites of a node

  datatype Node = Node(name: string, site: string)

  /** A rewrite row; the integration that owns it is not modelled. */
  datatype Rewrite = Rewrite(domain: string, rrtype: string, target: string, enabled: bool,
                             scopeType: string, scopeValues: seq<string>)

  datatype Key = Key(domain: string, rrtype: string)

  function KeyOf(r: Rewrite): Key { Key(r.domain, r.rrtype) }

  /** The row as served: without its scope. */
  function Served(r: Rewrite): Rewrite { r.(scopeType := "", scopeValues := []) }

  function ScopeRank(scope: string): (r: int)
    ensures 1 <= r <= 3
  {
    if scope == "nodes" then 3 else if scope == "sites" then 2 else 1
  }

  predicate ScopeMatches(r: Rewrite, n: Node) {
    if r.scopeType == "nodes" then n.name in r.scopeValues
    else if r.scopeType == "sites" then n.site != "" && n.site in r.scopeValues
    else true
  }

  function Rank(r: Rewrite): (rank: int)
    ensures 1 <= rank <= 6
  {
    ScopeRank(r.scopeType) + if r.enabled then 3 else 0
  }

  predicate Applies(r: Rewrite, n: Node, k: Key) { ScopeMatches(r, n) && KeyOf(r) == k }

  /** The first row of highest rank among those that apply to the node and key. */
  function Best(rows: seq<Rewrite>, n: Node, k: Key): Option<Rewrite> {
    if rows == [] then None
    else
      var best := Best(rows[..|rows| - 1], n, k);
      var last := rows[|rows| - 1];
      if Applies(last, n, k) && (best == None || Rank(last) > Rank(best.value)) then Some(last) else best
  }

  function Choice(rows: seq<Rewrite>, n: Node, k: Key): Option<Rewrite> {
    var best := Best(rows, n, k);
    if best.Some? then Some(Served(best.value)) else None
  }

  predicate Top(rows: seq<Rewrite>, n: Node, k: Key, r: Rewrite) {
    Applies(r, n, k) && forall i :: 0 <= i < |rows| && Applies(rows[i], n, k) ==> Rank(rows[i]) <= Rank(r)
  }

  /** An enabled row beats every disabled one, a narrower scope a broader one. */
  lemma {:induction false} BestIsTop(rows: seq<Rewrite>, n: Node, k: Key)
    ensures match Best(rows, n, k)
            case None => forall i :: 0 <= i < |rows| ==> !Applies(rows[i], n, k)
            case Some(b) => b in rows && Top(rows, n, k, b)
  {
    if rows != [] { BestIsTop(rows[..|rows| - 1], n, k); }
  }

  lemma {:induction false} FirstTopWins(rows: seq<Rewrite>, n: Node, k: Key)
    requires rows != [] && Top(rows, n, k, rows[0])
    ensures Best(rows, n, k) == Some(rows[0])
  {
    if |rows| > 1 {
      FirstTopWins(rows[..|rows| - 1], n, k);
    } else {
      assert rows[..0] == [];
    }
  }

  /** All the rows of highest rank serve the same. */
  predicate TiesAgree(rows: seq<Rewrite>, n: Node, k: Key) {
    forall i, j :: 0 <= i < |rows| && 0 <= j < |rows| && Top(rows, n, k, rows[i]) && Top(rows, n, k, rows[j]) ==>
      Served(rows[i]) == Served(rows[j])
  }

  lemma TopInPermutation(rows: seq<Rewrite>, other: seq<Rewrite>, n: Node, k: Key, r: Rewrite)
    requires multiset(rows) == multiset(other) && Top(other, n, k, r)
    ensures Top(rows, n, k, r)
  {
    forall i | 0 <= i < |rows| && Applies(rows[i], n, k) ensures Rank(rows[i]) <= Rank(r) {
      assert rows[i] in multiset(other);
    }
  }

  lemma AgreedChoice(rows: seq<Rewrite>, other: seq<Rewrite>, n: Node, k: Key)
    requires multiset(rows) == multiset(other) && TiesAgree(rows, n, k)
    ensures Choice(rows, n, k) == Choice(other, n, k)
  {
    BestIsTop(rows, n, k);
    BestIsTop(other, n, k);
    var a, b := Best(rows, n, k), Best(other, n, k);
    if b.Some? {
      assert b.value in multiset(rows);
      TopInPermutation(rows, other, n, k, b.value);
    }
    if a.Some? { assert a.value in multiset(other); }
  }

  /** A row of highest rank can be the choice: put it first. */
  lemma TopCanBeChosen(rows: seq<Rewrite>, n: Node, k: Key, i: nat)
    requires i < |rows| && Top(rows, n, k, rows[i])
    ensures var front := [rows[i]] + (rows[..i] + rows[i + 1..]);
            multiset(front) == multiset(rows) && Choice(front, n, k) == Some(Served(rows[i]))
  {
    var front := [rows[i]] + (rows[..i] + rows[i + 1..]);
    assert rows == rows[..i] + ([rows[i]] + rows[i + 1..]);
    assert multiset(front) == multiset(rows);
    TopInPermutation(front, rows, n, k, rows[i]);
    FirstTopWins(front, n, k);
  }

  /** Any order of the rows gives the same choice. */
  ghost predicate OrderFree(rows: seq<Rewrite>, n: Node, k: Key) {
    forall other: seq<Rewrite> :: multiset(other) == multiset(rows) ==> Choice(other, n, k) == Choice(rows, n, k)
  }

  lemma OrderFreeTiesAgree(rows: seq<Rewrite>, n: Node, k: Key)
    requires OrderFree(rows, n, k)
    ensures TiesAgree(rows, n, k)
  {
    forall i, j | 0 <= i < |rows| && 0 <= j < |rows| && Top(rows, n, k, rows[i]) && Top(rows, n, k, rows[j])
      ensures Served(rows[i]) == Served(rows[j])
    {
      TopCanBeChosen(rows, n, k, i);
      TopCanBeChosen(rows, n, k, j);
    }
  }

  /** The choice does not depend on the order of the rows exactly when the rows of highest
      rank serve the same. */
  lemma ChoiceIsOrderFreeIff(rows: seq<Rewrite>, n: Node, k: Key)
    ensures OrderFree(rows, n, k) <==> TiesAgree(rows, n, k)
  {
    if OrderFree(rows, n, k) { OrderFreeTiesAgree(rows, n, k); }
    if TiesAgree(rows, n, k) {
      forall other: seq<Rewrite> | multiset(other) == multiset(rows)
        ensures Choice(other, n, k) == Choice(rows, n, k)
      {
        AgreedChoice(rows, other, n, k);
      }
    }
  }

  // the served set: one row per key, in key order

  predicate KeyLess(a: Key, b: Key) {
    if a.domain != b.domain then Leq(a.domain, b.domain) else a.rrtype != b.rrtype && Leq(a.rrtype, b.rrtype)
  }

  lemma KeyLessTotal(a: Key, b: Key)
    ensures a == b || KeyLess(a, b) || KeyLess(b, a)
    ensures !(KeyLess(a, b) && KeyLess(b, a))
  {
    LeqTotal(a.domain, b.domain);
    LeqTotal(a.rrtype, b.rrtype);
    if Leq(a.domain, b.domain) && Leq(b.domain, a.domain) { LeqAntisymmetric(a.domain, b.domain); }
    if Leq(a.rrtype, b.rrtype) && Leq(b.rrtype, a.rrtype) { LeqAntisymmetric(a.rrtype, b.rrtype); }
  }

  lemma KeyLessTransitive(a: Key, b: Key, c: Key)
    requires KeyLess(a, b) && KeyLess(b, c)
    ensures KeyLess(a, c)
  {
    if a.domain != b.domain && b.domain != c.domain {
      LeqTransitive(a.domain, b.domain, c.domain);
      if a.domain == c.domain { LeqAntisymmetric(a.domain, b.domain); }
    }
    if a.domain == b.domain == c.domain {
      LeqTransitive(a.rrtype, b.rrtype, c.rrtype);
      if a.rrtype == c.rrtype { LeqAntisymmetric(a.rrtype, b.rrtype); }
    }
  }

  predicate Before(k: Key, rows: seq<Rewrite>) { forall i :: 0 <= i < |rows| ==> KeyLess(k, KeyOf(rows[i])) }

  predicate Ascending(rows: seq<Rewrite>) {
    rows == [] || (Before(KeyOf(rows[0]), rows[1..]) && Ascending(rows[1..]))
  }

  /** sort.Slice by domain, then type. */
  function InsertRow(r: Rewrite, rows: seq<Rewrite>): (out: seq<Rewrite>)
    ensures forall x :: x in out <==> x == r || x in rows
  {
    if rows == [] then [r]
    else if KeyLess(KeyOf(r), KeyOf(rows[0])) then [r] + rows
    else
      assert rows == [rows[0]] + rows[1..];
      [rows[0]] + InsertRow(r, rows[1..])
  }

  lemma {:induction false} InsertRowAscending(r: Rewrite, rows: seq<Rewrite>)
    requires Ascending(rows) && forall i :: 0 <= i < |rows| ==> KeyOf(rows[i]) != KeyOf(r)
    ensures Ascending(InsertRow(r, rows))
  {
    if rows != [] {
      KeyLessTotal(KeyOf(r), KeyOf(rows[0]));
      if KeyLess(KeyOf(r), KeyOf(rows[0])) {
        forall i | 0 <= i < |rows| ensures KeyLess(KeyOf(r), KeyOf(rows[i])) {
          if i > 0 {
            assert rows[i] == rows[1..][i - 1];
            KeyLessTransitive(KeyOf(r), KeyOf(rows[0]), KeyOf(rows[i]));
          }
        }
        assert ([r] + rows)[1..] == rows;
      } else {
        var out := InsertRow(r, rows[1..]);
        InsertRowAscending(r, rows[1..]);
        forall i | 0 <= i < |out| ensures KeyLess(KeyOf(rows[0]), KeyOf(out[i])) {
          assert out[i] in out;
        }
        assert ([rows[0]] + out)[1..] == out;
      }
    }
  }

  lemma {:induction false} AscendingUnique(a: seq<Rewrite>, b: seq<Rewrite>)
    requires Ascending(a) && Ascending(b) && forall x :: x in a <==> x in b
    ensures a == b
  {
    assert a == [] <==> b == [] by {
      if a != [] { assert a[0] in b; }
      if b != [] { assert b[0] in a; }
    }
    if a != [] {
      assert a[0] in b && b[0] in a;
      KeyLessTotal(KeyOf(a[0]), KeyOf(b[0]));
      assert a == [a[0]] + a[1..] && b == [b[0]] + b[1..];
      assert a[0] == b[0];
      forall x ensures x in a[1..] <==> x in b[1..] {
        KeyLessTotal(KeyOf(a[0]), KeyOf(a[0]));
        assert a[0] !in a[1..] && b[0] !in b[1..];
        assert x in a <==> x in b;
      }
      AscendingUnique(a[1..], b[1..]);
    }
  }

  /** One row for each key that has a choice, in key order, and nothing else. */
  ghost predicate Serves(out: seq<Rewrite>, all: seq<Rewrite>, n: Node) {
    && Ascending(out)
    && (forall i :: 0 <= i < |out| ==> Choice(all, n, KeyOf(out[i])) == Some(out[i]))
    && (forall k: Key :: Choice(all, n, k).Some? ==> Choice(all, n, k).value in out)
  }

  ghost predicate Chosen(best: map<Key, Rewrite>, rank: map<Key, int>, rows: seq<Rewrite>, n: Node) {
    && best.Keys == rank.Keys
    && forall k: Key ::
         if k in best then Best(rows, n, k).Some? && best[k] == Served(Best(rows, n, k).value)
                           && rank[k] == Rank(Best(rows, n, k).value)
         else Best(rows, n, k) == None
  }

  /** The served set of the keys of the first `i` rows. */
  function ServedUpTo(all: seq<Rewrite>, n: Node, i: nat): seq<Rewrite>
    requires i <= |all|
  {
    if i == 0 then []
    else
      var rest := ServedUpTo(all, n, i - 1);
      var c := Choice(all, n, KeyOf(all[i - 1]));
      if c.Some? && c.value !in rest then InsertRow(c.value, rest) else rest
  }

  /** The served set, as a function of the rows and the node. */
  function ServedRows(all: seq<Rewrite>, n: Node): seq<Rewrite> { ServedUpTo(all, n, |all|) }

  lemma ChoiceHasKey(all: seq<Rewrite>, n: Node, k: Key)
    ensures Choice(all, n, k).Some? ==> KeyOf(Choice(all, n, k).value) == k
  {
    BestIsTop(all, n, k);
  }

  lemma {:induction false} ServedUpToServes(all: seq<Rewrite>, n: Node, i: nat)
    requires i <= |all|
    ensures Ascending(ServedUpTo(all, n, i))
    ensures forall r <- ServedUpTo(all, n, i) :: Choice(all, n, KeyOf(r)) == Some(r)
    ensures forall j :: 0 <= j < i && Choice(all, n, KeyOf(all[j])).Some? ==>
              Choice(all, n, KeyOf(all[j])).value in ServedUpTo(all, n, i)
  {
    if i > 0 {
      ServedUpToServes(all, n, i - 1);
      var rest, k := ServedUpTo(all, n, i - 1), KeyOf(all[i - 1]);
      var c := Choice(all, n, k);
      ChoiceHasKey(all, n, k);
      if c.Some? && c.value !in rest {
        forall j | 0 <= j < |rest| ensures KeyOf(rest[j]) != KeyOf(c.value) {
          assert rest[j] in rest;
        }
        InsertRowAscending(c.value, rest);
      }
    }
  }

  lemma ServedRowsServe(all: seq<Rewrite>, n: Node)
    ensures Serves(ServedRows(all, n), all, n)
  {
    ServedUpToServes(all, n, |all|);
    var out := ServedRows(all, n);
    forall i | 0 <= i < |out| ensures Choice(all, n, KeyOf(out[i])) == Some(out[i]) {
      assert out[i] in out;
    }
    forall k: Key | Choice(all, n, k).Some? ensures Choice(all, n, k).value in out {
      BestIsTop(all, n, k);
      var j :| 0 <= j < |all| && all[j] == Best(all, n, k).value;
      assert KeyOf(all[j]) == k;
    }
  }

  /** Nothing else serves the node. */
  lemma ServedUnique(all: seq<Rewrite>, n: Node, out: seq<Rewrite>)
    requires Serves(out, all, n)
    ensures out == ServedRows(all, n)
  {
    ServedRowsServe(all, n);
    SameServed(all, n, out, ServedRows(all, n));
    SameServed(all, n, ServedRows(all, n), out);
    AscendingUnique(out, ServedRows(all, n));
  }

  lemma SameServed(all: seq<Rewrite>, n: Node, a: seq<Rewrite>, b: seq<Rewrite>)
    requires Serves(a, all, n) && Serves(b, all, n)
    ensures forall x :: x in a ==> x in b
  {
    forall x | x in a ensures x in b {
      var i :| 0 <= i < |a| && a[i] == x;
      assert Choice(all, n, KeyOf(a[i])) == Some(a[i]);
    }
  }

  /** The order in which the map is walked does not matter: the rows are sorted. */
  method SortRows(best: map<Key, Rewrite>) returns (out: seq<Rewrite>)
    requires forall k <- best :: KeyOf(best[k]) == k
    ensures Ascending(out)
    ensures forall k <- best :: best[k] in out
    ensures forall i :: 0 <= i < |out| ==> KeyOf(out[i]) in best && best[KeyOf(out[i])] == out[i]
  {
    out := [];
    var left := best.Keys;
    while left != {}
      invariant left <= best.Keys && Ascending(out)
      invariant forall k <- best :: k in left || best[k] in out
      invariant forall i :: 0 <= i < |out| ==>
                  KeyOf(out[i]) in best && best[KeyOf(out[i])] == out[i] && KeyOf(out[i]) !in left
      decreases |left|
    {
      var k :| k in left;
      InsertRowAscending(best[k], out);
      var next := InsertRow(best[k], out);
      forall i | 0 <= i < |next|
        ensures KeyOf(next[i]) in best && best[KeyOf(next[i])] == next[i] && KeyOf(next[i]) !in left - {k}
      {
        assert next[i] in next;
      }
      out, left := next, left - {k};
    }
  }

  method FilterRewritesForNode(all: seq<Rewrite>, n: Node) returns (out: seq<Rewrite>)
    ensures Serves(out, all, n) && out == ServedRows(all, n)
  {
    var best: map<Key, Rewrite>, rank: map<Key, int> := map[], map[];
    for i := 0 to |all|
      invariant Chosen(best, rank, all[..i], n)
    {
      var r := all[i];
      assert all[..i + 1][..|all[..i + 1]| - 1] == all[..i];
      if ScopeMatches(r, n) {
        var k := KeyOf(r);
        if Rank(r) > (if k in rank then rank[k] else 0) {
          rank := rank[k := Rank(r)];
          best := best[k := Served(r)];
        }
      }
    }
    assert all[..|all|] == all;
    forall k <- best ensures KeyOf(best[k]) == k {
      BestIsTop(all, n, k);
    }
    out := SortRows(best);
    forall i | 0 <= i < |out| ensures Choice(all, n, KeyOf(out[i])) == Some(out[i]) {
      assert KeyOf(out[i]) in best;
    }
    forall k: Key | Choice(all, n, k).Some? ensures Choice(all, n, k).value in out {
      assert k in best;
    }
    ServedUnique(all, n, out);
  }

  /** The set served to a node does not depend on the order of the rows, when for each key
      the rows of highest rank serve the same. */
  lemma ServedSetIsOrderFree(a: seq<Rewrite>, b: seq<Rewrite>, n: Node, outA: seq<Rewrite>, outB: seq<Rewrite>)
    requires multiset(a) == multiset(b) && Serves(outA, a, n) && Serves(outB, b, n)
    requires forall k: Key :: TiesAgree(a, n, k)
    ensures outA == outB
  {
    forall k: Key ensures Choice(a, n, k) == Choice(b, n, k) {
      AgreedChoice(a, b, n, k);
    }
    AscendingUnique(outA, outB);
  }

  // ---------------------------------------------------------------- lines

  function Bool(b: bool): string { if b then "true" else "false" }

  function RewriteLine(r: Rewrite): string {
    "W|" + r.domain + "|" + r.rrtype + "|" + r.target + "|" + Bool(r.enabled)
  }

  /** A rewrite without a newline in its fields gives a line without one. */
  lemma RewriteLineIsLine(r: Rewrite)
    ensures Line(RewriteLine(r)) <==> '\n' !in r.domain && '\n' !in r.rrtype && '\n' !in r.target
  {
  }

  function RewriteLines(rows: seq<Rewrite>): (lines: seq<string>)
    ensures |lines| == |rows| && forall i :: 0 <= i < |rows| ==> lines[i] == RewriteLine(rows[i])
  {
    seq(|rows|, i requires 0 <= i < |rows| => RewriteLine(rows[i]))
  }

  // ---------------------------------------------------------------- versions of many nodes

  /** The joined lines of each node. */
  function Keys(nodes: seq<Node>, view: Node -> seq<string>): (keys: seq<string>)
    ensures |keys| == |nodes| && forall i :: 0 <= i < |nodes| ==> keys[i] == Join(view(nodes[i]))
  {
    seq(|nodes|, i requires 0 <= i < |nodes| => Join(view(nodes[i])))
  }

  /** The per-node versions, as `configHash` computes each from its lines. */
  function PerNode(rules: seq<string>, nodes: seq<Node>, view: Node -> seq<string>,
                   digest: string -> string): (hs: seq<string>)
    ensures |hs| == |nodes| && forall i :: 0 <= i < |nodes| ==> hs[i] == digest(Text(rules + view(nodes[i])))
  {
    seq(|nodes|, i requires 0 <= i < |nodes| => digest(Text(rules + view(nodes[i]))))
  }

  /** The node whose hash the memo holds for node `i`: the first with the same key. */
  function FirstAlike<K(==)>(keys: seq<K>, i: nat, j: nat): (r: nat)
    requires j <= i < |keys|
    ensures j <= r <= i && keys[r] == keys[i]
    decreases i - j
  {
    if j == i || keys[j] == keys[i] then j else FirstAlike(keys, i, j + 1)
  }

  lemma {:induction false} AlikeShareFirst<K>(keys: seq<K>, i: nat, k: nat, j: nat)
    requires j <= i <= k < |keys| && keys[i] == keys[k]
    ensures FirstAlike(keys, i, j) == FirstAlike(keys, k, j)
    decreases i - j
  {
    if j < i && keys[j] != keys[i] { AlikeShareFirst(keys, i, k, j + 1); }
  }

  lemma {:induction false} NewIsFirst<K>(keys: seq<K>, i: nat, j: nat)
    requires j <= i < |keys| && forall k :: 0 <= k < i ==> keys[k] != keys[i]
    ensures FirstAlike(keys, i, j) == i
    decreases i - j
  {
    if j < i { NewIsFirst(keys, i, j + 1); }
  }

  /** The memo holds, for each key met, the version of the first node that has it. */
  predicate MemoHolds<K(==), V(==)>(keys: seq<K>, versions: seq<V>, memo: map<K, V>, i: nat)
    requires i <= |keys| == |versions|
  {
    && (forall k :: 0 <= k < i ==> keys[k] in memo && memo[keys[k]] == versions[FirstAlike(keys, k, 0)])
    && (forall key <- memo :: exists k :: 0 <= k < i && keys[k] == key)
  }

  lemma MemoHit<K, V>(keys: seq<K>, versions: seq<V>, memo: map<K, V>, i: nat)
    requires i < |keys| == |versions| && MemoHolds(keys, versions, memo, i) && keys[i] in memo
    ensures memo[keys[i]] == versions[FirstAlike(keys, i, 0)] && MemoHolds(keys, versions, memo, i + 1)
  {
    var k :| 0 <= k < i && keys[k] == keys[i];
    AlikeShareFirst(keys, k, i, 0);
  }

  lemma MemoMiss<K, V>(keys: seq<K>, versions: seq<V>, memo: map<K, V>, i: nat)
    requires i < |keys| == |versions| && MemoHolds(keys, versions, memo, i) && keys[i] !in memo
    ensures FirstAlike(keys, i, 0) == i && MemoHolds(keys, versions, memo[keys[i] := versions[i]], i + 1)
  {
    NewIsFirst(keys, i, 0);
  }

  predicate LastOfName(nodes: seq<Node>, i: nat, end: nat)
    requires i < end <= |nodes|
  {
    forall k :: i < k < end ==> nodes[k].name != nodes[i].name
  }

  /** The answer names, for each name, the version given to its last node. */
  predicate OutHolds(nodes: seq<Node>, keys: seq<string>, versions: seq<string>, out: map<string, string>, i: nat)
    requires i <= |nodes| == |keys| == |versions|
  {
    forall k :: 0 <= k < i && LastOfName(nodes, k, i) ==>
      nodes[k].name in out && out[nodes[k].name] == versions[FirstAlike(keys, k, 0)]
  }

  lemma OutOneMore(nodes: seq<Node>, keys: seq<string>, versions: seq<string>, out: map<string, string>, i: nat)
    requires i < |nodes| == |keys| == |versions| && OutHolds(nodes, keys, versions, out, i)
    ensures OutHolds(nodes, keys, versions, out[nodes[i].name := versions[FirstAlike(keys, i, 0)]], i + 1)
  {
    forall k | 0 <= k < i && LastOfName(nodes, k, i + 1)
      ensures LastOfName(nodes, k, i) && nodes[k].name != nodes[i].name
    {
      assert nodes[i].name != nodes[k].name;
    }
  }

  /** One turn of the loop, for a node with these lines. */
  method VersionOne(rules: seq<string>, lines: seq<string>, memo0: map<string, string>, digest: string -> string,
                    ghost keys: seq<string>, ghost versions: seq<string>, ghost i: nat)
    returns (hash: string, memo: map<string, string>)
    requires i < |keys| == |versions| && MemoHolds(keys, versions, memo0, i)
    requires keys[i] == Join(lines) && versions[i] == digest(Text(rules + lines))
    ensures hash == versions[FirstAlike(keys, i, 0)] && MemoHolds(keys, versions, memo, i + 1)
  {
    var key := Join(lines);
    if key in memo0 {
      MemoHit(keys, versions, memo0, i);
      return memo0[key], memo0;
    }
    hash := HashLines(rules + lines, digest);
    MemoMiss(keys, versions, memo0, i);
    memo := memo0[key := hash];
  }

  /** A node's lines: its filtered rewrites', then its forwarders' (`fwd`). */
  function View(rewrites: seq<Rewrite>, fwd: Node -> seq<string>): Node -> seq<string> {
    (n: Node) => RewriteLines(ServedRows(rewrites, n)) + fwd(n)
  }

  /** Each node is given the version of the first node whose lines join alike. */
  method ConfigVersionsForNodes(rules: seq<string>, rewrites: seq<Rewrite>, fwd: Node -> seq<string>,
                                nodes: seq<Node>, digest: string -> string)
    returns (out: map<string, string>)
    ensures var view := View(rewrites, fwd);
            OutHolds(nodes, Keys(nodes, view), PerNode(rules, nodes, view, digest), out, |nodes|)
  {
    var memo: map<string, string> := map[];
    out := map[];
    ghost var view := View(rewrites, fwd);
    ghost var keys, versions := Keys(nodes, view), PerNode(rules, nodes, view, digest);
    for i := 0 to |nodes|
      invariant MemoHolds(keys, versions, memo, i)
      invariant OutHolds(nodes, keys, versions, out, i)
    {
      var rows := FilterRewritesForNode(rewrites, nodes[i]);
      var lines := RewriteLines(rows) + fwd(nodes[i]);
      assert lines == view(nodes[i]);
      var hash;
      hash, memo := VersionOne(rules, lines, memo, digest, keys, versions, i);
      OutOneMore(nodes, keys, versions, out, i);
      out := out[nodes[i].name := hash];
    }
  }

  ghost predicate Injective(digest: string -> string) {
    forall a, b :: digest(a) == digest(b) ==> a == b
  }

  /** The batch gives every node the version `configHash` computes for it. */
  predicate EachItsOwn(rules: seq<string>, nodes: seq<Node>, view: Node -> seq<string>, digest: string -> string) {
    forall i :: 0 <= i < |nodes| ==>
      PerNode(rules, nodes, view, digest)[FirstAlike(Keys(nodes, view), i, 0)] == digest(Text(rules + view(nodes[i])))
  }

  /** No two nodes have lines that join alike and sort apart. */
  predicate NoneConfused(rules: seq<string>, nodes: seq<Node>, view: Node -> seq<string>) {
    forall i, k :: 0 <= i < k < |nodes| && Join(view(nodes[i])) == Join(view(nodes[k])) ==>
      Text(rules + view(nodes[i])) == Text(rules + view(nodes[k]))
  }

  lemma OwnMeansNoneConfused(rules: seq<string>, nodes: seq<Node>, view: Node -> seq<string>, digest: string -> string)
    requires Injective(digest) && EachItsOwn(rules, nodes, view, digest)
    ensures NoneConfused(rules, nodes, view)
  {
    var keys := Keys(nodes, view);
    forall i, k | 0 <= i < k < |nodes| && Join(view(nodes[i])) == Join(view(nodes[k]))
      ensures Text(rules + view(nodes[i])) == Text(rules + view(nodes[k]))
    {
      assert keys[i] == keys[k];
      AlikeShareFirst(keys, i, k, 0);
      assert digest(Text(rules + view(nodes[i]))) == digest(Text(rules + view(nodes[k])));
    }
  }

  /** The batch agrees with the per-node versions exactly when no two nodes have lines that
      join alike and sort apart. */
  lemma BatchIsPerNodeIff(rules: seq<string>, nodes: seq<Node>, view: Node -> seq<string>, digest: string -> string)
    requires Injective(digest)
    ensures EachItsOwn(rules, nodes, view, digest) <==> NoneConfused(rules, nodes, view)
  {
    if EachItsOwn(rules, nodes, view, digest) { OwnMeansNoneConfused(rules, nodes, view, digest); }
    if NoneConfused(rules, nodes, view) {
      var keys := Keys(nodes, view);
      forall i | 0 <= i < |nodes|
        ensures PerNode(rules, nodes, view, digest)[FirstAlike(keys, i, 0)] == digest(Text(rules + view(nodes[i])))
      {
        var first := FirstAlike(keys, i, 0);
        assert keys[first] == keys[i];
      }
    }
  }

  /** Which holds when no field of a rewrite and no forwarder line has a newline. */
  lemma BatchIsPerNode(rules: seq<string>, rewrites: seq<Rewrite>, fwd: Node -> seq<string>, nodes: seq<Node>)
    requires forall i :: 0 <= i < |rewrites| ==> Line(RewriteLine(rewrites[i]))
    requires forall i :: 0 <= i < |nodes| ==> Lines(fwd(nodes[i]))
    ensures NoneConfused(rules, nodes, View(rewrites, fwd))
  {
    var view := View(rewrites, fwd);
    forall i, k | 0 <= i < k < |nodes| && Join(view(nodes[i])) == Join(view(nodes[k]))
      ensures Text(rules + view(nodes[i])) == Text(rules + view(nodes[k]))
    {
      ServedLines(rewrites, nodes[i]);
      ServedLines(rewrites, nodes[k]);
      JoinInjective(view(nodes[i]), view(nodes[k]));
    }
  }

  lemma ServedLines(rewrites: seq<Rewrite>, n: Node)
    requires forall i :: 0 <= i < |rewrites| ==> Line(RewriteLine(rewrites[i]))
    ensures Lines(RewriteLines(ServedRows(rewrites, n)))
  {
    var rows := ServedRows(rewrites, n);
    ServedRowsServe(rewrites, n);
    forall i | 0 <= i < |rows| ensures Line(RewriteLine(rows[i])) {
      BestIsTop(rewrites, n, KeyOf(rows[i]));
      var best := Best(rewrites, n, KeyOf(rows[i])).value;
      assert RewriteLine(Served(best)) == RewriteLine(best);
    }
  }

  // a newline in a field

  const PLAIN: Rewrite := Rewrite("a", "A", "8", true, "nodes", ["n2"])
  const OTHER: Rewrite := Rewrite("a-b", "A", "9", true, "nodes", ["n2"])
  const BROKEN: Rewrite := Rewrite("a", "A", "8|true\nW|a-b|A|9", true, "nodes", ["n1"])
  const NODE_1: Node := Node("n1", "")
  const NODE_2: Node := Node("n2", "")

  lemma BestOneMore(rows: seq<Rewrite>, r: Rewrite, n: Node, k: Key)
    ensures Best(rows + [r], n, k) ==
            var best := Best(rows, n, k);
            if Applies(r, n, k) && (best == None || Rank(r) > Rank(best.value)) then Some(r) else best
  {
    assert (rows + [r])[..|rows|] == rows;
  }

  /** Three rows of which none shares a key with another that applies to the node. */
  function ThreeRows(): seq<Rewrite> { [] + [BROKEN] + [PLAIN] + [OTHER] }

  lemma BestOfThree(n: Node, k: Key)
    requires n == NODE_1 || n == NODE_2
    ensures Best(ThreeRows(), n, k) ==
            if n == NODE_1 then (if k == KeyOf(BROKEN) then Some(BROKEN) else None)
            else if k == KeyOf(PLAIN) then Some(PLAIN)
            else if k == KeyOf(OTHER) then Some(OTHER)
            else None
  {
    BestOneMore([], BROKEN, n, k);
    BestOneMore([] + [BROKEN], PLAIN, n, k);
    BestOneMore([] + [BROKEN] + [PLAIN], OTHER, n, k);
    assert KeyOf(PLAIN) != KeyOf(OTHER) by { assert "a" != "a-b" by { assert |"a"| == 1; } }
  }

  lemma ServedToFirst()
    ensures ServedRows(ThreeRows(), NODE_1) == [Served(BROKEN)]
  {
    forall k: Key ensures Best(ThreeRows(), NODE_1, k) == if k == KeyOf(BROKEN) then Some(BROKEN) else None {
      BestOfThree(NODE_1, k);
    }
    assert [Served(BROKEN)][1..] == [];
    ServedUnique(ThreeRows(), NODE_1, [Served(BROKEN)]);
  }

  lemma ServedToSecond()
    ensures ServedRows(ThreeRows(), NODE_2) == [Served(PLAIN), Served(OTHER)]
  {
    var out := [Served(PLAIN), Served(OTHER)];
    forall k: Key ensures Best(ThreeRows(), NODE_2, k) ==
        if k == KeyOf(PLAIN) then Some(PLAIN) else if k == KeyOf(OTHER) then Some(OTHER) else None {
      BestOfThree(NODE_2, k);
    }
    assert out[1..] == [Served(OTHER)] && out[1..][1..] == [];
    assert "a" != "a-b" by { assert |"a"| == 1; }
    assert Leq("a", "a-b") by { assert "a"[1..] == ""; }
    assert out[0] in out && out[1] in out;
    ServedUnique(ThreeRows(), NODE_2, out);
  }

  /** The one line of the first node reads like the two of the second. */
  lemma LinesJoinAlike()
    ensures RewriteLine(BROKEN) == RewriteLine(PLAIN) + "\n" + RewriteLine(OTHER)
  {
    assert BROKEN.target == "8" + "|true" + "\n" + "W|" + "a-b" + "|" + "A" + "|" + "9";
  }

  lemma TextOfOne(x: string)
    ensures Text([x]) == x
  {
    assert [x][1..] == [];
    assert Sorted([x]) == [x];
  }

  lemma TextOfTwo(a: string, b: string)
    requires !Leq(a, b)
    ensures Text([a, b]) == b + "\n" + a
  {
    var s, t := [a, b], [b, a];
    assert s[1..] == [b] && t[1..] == [a] && [b][1..] == [];
    assert Insert(a, []) == [a];
    assert Sorted([b]) == Insert(b, Sorted([])) == [b];
    assert Sorted(s) == Insert(a, Sorted(s[1..])) == [b] + Insert(a, [b][1..]) == t;
    assert Join(t) == t[0] + "\n" + Join(t[1..]);
  }

  lemma LinesSortApart()
    ensures Text([RewriteLine(BROKEN)]) != Text([RewriteLine(PLAIN), RewriteLine(OTHER)])
  {
    var x, a, b := RewriteLine(BROKEN), RewriteLine(PLAIN), RewriteLine(OTHER);
    assert x[3] == '|' && a[3] == '|' && b[3] == '-' && a[..3] == b[..3];
    LaterSorts(a, b, 3);
    TextOfOne(x);
    TextOfTwo(a, b);
    assert (b + "\n" + a)[3] == b[3];
  }

  lemma {:induction false} LaterSorts(a: string, b: string, i: nat)
    requires i < |a| && i < |b| && a[..i] == b[..i] && b[i] < a[i]
    ensures !Leq(a, b)
  {
    if i > 0 {
      assert a[0] == a[..i][0] == b[..i][0] == b[0];
      assert a[1..][..i - 1] == a[..i][1..] && b[1..][..i - 1] == b[..i][1..];
      LaterSorts(a[1..], b[1..], i - 1);
    }
  }

  const NO_FORWARDERS: Node -> seq<string> := (n: Node) => []

  lemma NodesConfused()
    ensures var view := View(ThreeRows(), NO_FORWARDERS);
            Join(view(NODE_1)) == Join(view(NODE_2)) && Text([] + view(NODE_1)) != Text([] + view(NODE_2))
  {
    var view := View(ThreeRows(), NO_FORWARDERS);
    var x, a, b := RewriteLine(BROKEN), RewriteLine(PLAIN), RewriteLine(OTHER);
    ServedToFirst();
    ServedToSecond();
    assert [] + view(NODE_1) == view(NODE_1) == [x];
    assert [] + view(NODE_2) == view(NODE_2) == [a, b];
    LinesJoinAlike();
    LinesSortApart();
    assert Join([a, b]) == a + "\n" + b by { assert [a, b][1..] == [b]; }
  }

  lemma TwoAlike(nodes: seq<Node>, keys: seq<string>, versions: seq<string>, out: map<string, string>)
    requires |nodes| == |keys| == |versions| == 2 && nodes[0].name != nodes[1].name && keys[0] == keys[1]
    requires OutHolds(nodes, keys, versions, out, 2)
    ensures nodes[0].name in out && nodes[1].name in out && out[nodes[0].name] == out[nodes[1].name] == versions[0]
  {
    assert FirstAlike(keys, 0, 0) == 0 && FirstAlike(keys, 1, 0) == 0;
    assert LastOfName(nodes, 0, 2) && LastOfName(nodes, 1, 2);
  }

  /** Such a batch: the second node is given the first one's version, which is not its own. */
  method NewlineConfusesBatch(digest: string -> string) returns (out: map<string, string>)
    requires Injective(digest)
    ensures NODE_1.name in out && NODE_2.name in out
    ensures out[NODE_2.name] == out[NODE_1.name] != digest(Text([] + View(ThreeRows(), NO_FORWARDERS)(NODE_2)))
  {
    var nodes := [NODE_1, NODE_2];
    out := ConfigVersionsForNodes([], ThreeRows(), NO_FORWARDERS, nodes, digest);
    ghost var view := View(ThreeRows(), NO_FORWARDERS);
    NodesConfused();
    TwoAlike(nodes, Keys(nodes, view), PerNode([], nodes, view, digest), out);
  }
}
