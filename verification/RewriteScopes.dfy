/** Which rewrite a node is served for a name and type (internal/store/cluster.go:233-282), in
    terms of scopes and enabled flags. */
module RewriteScopes {
  import opened ConfigVersion
  import opened Wrappers

  /** A field without the separator is read back from the text it begins. */
  lemma {:induction false} FieldsSplit(x: string, y: string, u: string, v: string)
    requires x + "|" + y == u + "|" + v && '|' !in x && '|' !in u
    ensures x == u && y == v
  {
    var all := x + "|" + y;
    assert all == u + "|" + v;
    assert all[|x|] == '|' && all[|u|] == '|';
    assert x == all[..|x|] && u == all[..|u|];
    assert y == all[|x| + 1..] && v == all[|u| + 1..];
  }

  lemma FlagSplits(x: string, a: bool, y: string, b: bool)
    requires x + ("|" + (if a then "true" else "false")) == y + ("|" + (if b then "true" else "false"))
    ensures x == y && a == b
  {
    var s, t := "|" + (if a then "true" else "false"), "|" + (if b then "true" else "false");
    var all := x + s;
    assert all == y + t;
    assert s[|s| - 5] == all[|all| - 5] && t[|t| - 5] == all[|all| - 5];
    assert x == all[..|all| - |s|] && y == all[..|all| - |s|];
  }

  /** What follows the type on a rewrite's line. */
  function Tail(r: Rewrite): string { r.target + ("|" + (if r.enabled then "true" else "false")) }

  lemma LineIs(r: Rewrite)
    ensures RewriteLine(r) == "W|" + (r.domain + "|" + (r.rrtype + "|" + Tail(r)))
  {
    var flag := if r.enabled then "true" else "false";
    assert "W|" + r.domain + "|" + r.rrtype + "|" + r.target + "|" + flag
        == "W|" + (r.domain + "|" + (r.rrtype + "|" + (r.target + ("|" + flag))));
  }

  lemma TagDrops(c: string, d: string)
    requires "W|" + c == "W|" + d
    ensures c == d
  {
    assert c == ("W|" + c)[2..] && d == ("W|" + d)[2..];
  }

  /** What is hashed of a rewrite determines it: its domain, type, target and flag, if neither
      domain nor type holds the separator. */
  lemma LineIdentifies(a: Rewrite, b: Rewrite)
    requires RewriteLine(a) == RewriteLine(b)
    requires '|' !in a.domain && '|' !in a.rrtype && '|' !in b.domain && '|' !in b.rrtype
    ensures a.domain == b.domain && a.rrtype == b.rrtype && a.target == b.target && a.enabled == b.enabled
  {
    LineIs(a);
    LineIs(b);
    TagDrops(a.domain + "|" + (a.rrtype + "|" + Tail(a)), b.domain + "|" + (b.rrtype + "|" + Tail(b)));
    FieldsSplit(a.domain, a.rrtype + "|" + Tail(a), b.domain, b.rrtype + "|" + Tail(b));
    FieldsSplit(a.rrtype, Tail(a), b.rrtype, Tail(b));
    FlagSplits(a.target, a.enabled, b.target, b.enabled);
  }

  /** The row is for this node and key. */
  predicate Concerns(r: Rewrite, n: Node, k: Key) {
    && r.domain == k.domain && r.rrtype == k.rrtype
    && (r.scopeType == "nodes" ==> n.name in r.scopeValues)
    && (r.scopeType == "sites" ==> n.site != "" && n.site in r.scopeValues)
  }

  /** Nodes are narrower than sites, and both than everything. */
  predicate Narrower(s: string, t: string) {
    (s == "nodes" && t != "nodes") || (s == "sites" && t != "nodes" && t != "sites")
  }

  predicate Beats(a: Rewrite, b: Rewrite) {
    (a.enabled && !b.enabled) || (a.enabled == b.enabled && Narrower(a.scopeType, b.scopeType))
  }

  lemma BeatsIff(a: Rewrite, b: Rewrite)
    ensures Beats(a, b) <==> Rank(a) > Rank(b)
  {
  }

  /** The choice is a row for this node and key that no other such row beats, the first of
      those, served without its scope; and there is one if there is any such row. */
  lemma {:induction false} ChoiceIsNarrowest(rows: seq<Rewrite>, n: Node, k: Key)
    ensures Choice(rows, n, k) == None <==> forall i :: 0 <= i < |rows| ==> !Concerns(rows[i], n, k)
    ensures Choice(rows, n, k).Some? ==>
              exists i :: 0 <= i < |rows| && Concerns(rows[i], n, k)
                          && Choice(rows, n, k).value
                             == Rewrite(rows[i].domain, rows[i].rrtype, rows[i].target, rows[i].enabled, "", [])
                          && (forall j :: 0 <= j < |rows| && Concerns(rows[j], n, k) ==> !Beats(rows[j], rows[i]))
                          && forall j :: 0 <= j < i && Concerns(rows[j], n, k) ==> Beats(rows[i], rows[j])
  {
    BestIsTop(rows, n, k);
    if Best(rows, n, k).Some? {
      var i := BestIsFirst(rows, n, k);
      forall j | 0 <= j < |rows| && Concerns(rows[j], n, k) ensures !Beats(rows[j], rows[i]) {
        BeatsIff(rows[j], rows[i]);
      }
      forall j | 0 <= j < i && Concerns(rows[j], n, k) ensures Beats(rows[i], rows[j]) {
        BeatsIff(rows[i], rows[j]);
      }
    }
  }

  lemma {:induction false} BestIsFirst(rows: seq<Rewrite>, n: Node, k: Key) returns (i: nat)
    requires Best(rows, n, k).Some?
    ensures i < |rows| && rows[i] == Best(rows, n, k).value && Applies(rows[i], n, k)
    ensures forall j :: 0 <= j < i && Applies(rows[j], n, k) ==> Rank(rows[j]) < Rank(rows[i])
  {
    var rest := rows[..|rows| - 1];
    BestIsTop(rest, n, k);
    if Best(rows, n, k) == Best(rest, n, k) { i := BestIsFirst(rest, n, k); } else { i := |rows| - 1; }
  }
}
