/** The packed category index (internal/categories/index.go): a sorted, compacted array of
    hashes whose low byte holds the category, against the map from domains to categories
    it stands for. The hash is a parameter: `hash(d)` is the upper 56 bits of the FNV-1a
    hash of `d`. Strings are ASCII. */
module CategoryIndex {
  import opened DomainNames
  import opened Wrappers

  /** `precedence`: a domain listed in several categories has the first of them. */
  const PRECEDENCE: seq<string> := [
    "adult", "gambling", "dating", "chat", "social", "streaming", "gaming", "shopping",
    "news", "sports", "finance", "jobs", "education", "email", "search", "productivity",
    "technology", "ai", "vpn", "filesharing", "cdn",
    "ads", "trackers", "malware", "phishing", "local", "other"]

  /** The first position of `c` from `i` on. */
  function Find(list: seq<string>, c: string, i: nat): (r: Option<nat>)
    requires i <= |list|
    ensures r.Some? ==> i <= r.value < |list| && list[r.value] == c
    decreases |list| - i
  {
    if i == |list| then None else if list[i] == c then Some(i) else Find(list, c, i + 1)
  }

  function Rank(c: string): Option<nat> { Find(PRECEDENCE, c, 0) }

  // ---------------------------------------------------------------- names

  predicate Space(c: char) { c == ' ' || '\t' <= c <= '\r' }

  function TrimLeft(s: string): string { if s != "" && Space(s[0]) then TrimLeft(s[1..]) else s }

  function TrimRight(s: string): string {
    if s != "" && Space(s[|s| - 1]) then TrimRight(s[..|s| - 1]) else s
  }

  function Normalize(d: string): string {
    var t := TrimRight(TrimLeft(d));
    var u := if t != "" && t[|t| - 1] == '.' then t[..|t| - 1] else t;
    var v := if |u| >= 2 && u[..2] == "*." then u[2..] else u;
    Lower(v)
  }

  // ---------------------------------------------------------------- the map it stands for

  /** A listed domain, with its category's 1-based rank. */
  datatype Pair = Pair(domain: string, id: nat)

  predicate Ranked(pairs: seq<Pair>) {
    forall i :: 0 <= i < |pairs| ==> 1 <= pairs[i].id <= |PRECEDENCE|
  }

  /** The category of best precedence `d` is listed in; 0 if it is not listed. */
  function Best(pairs: seq<Pair>, d: string): nat {
    if pairs == [] then 0
    else
      var rest := Best(pairs[1..], d);
      if pairs[0].domain == d && (rest == 0 || pairs[0].id < rest) then pairs[0].id else rest
  }

  lemma {:induction false} BestMeaning(pairs: seq<Pair>, d: string)
    requires Ranked(pairs)
    ensures Best(pairs, d) != 0 ==> Pair(d, Best(pairs, d)) in pairs
    ensures forall i :: 0 <= i < |pairs| && pairs[i].domain == d ==> 1 <= Best(pairs, d) <= pairs[i].id
  {
    if pairs != [] {
      BestMeaning(pairs[1..], d);
      assert pairs == [pairs[0]] + pairs[1..];
    }
  }

  /** The names a lookup tries: the name and its parents, but no single label. */
  function Walk(name: string): seq<string>
    decreases |name|
  {
    if AfterDot(name) == None then [] else [name] + Walk(AfterDot(name).value)
  }

  /** The reference lookup: the first tried name that is listed. */
  function Listed(pairs: seq<Pair>, walk: seq<string>): Option<string>
    requires Ranked(pairs)
  {
    if walk == [] then None
    else if Best(pairs, walk[0]) != 0 then BestMeaning(pairs, walk[0]); Some(PRECEDENCE[Best(pairs, walk[0]) - 1])
    else Listed(pairs, walk[1..])
  }

  // ---------------------------------------------------------------- entries

  function Entry(hash: string -> nat, p: Pair): nat { 256 * hash(p.domain) + p.id }

  predicate Strict(s: seq<nat>) { forall i, j :: 0 <= i < j < |s| ==> s[i] < s[j] }

  predicate Ordered(s: seq<nat>) { forall i, j :: 0 <= i < j < |s| ==> s[i] <= s[j] }

  function Insert(x: nat, s: seq<nat>): (r: seq<nat>)
    requires Ordered(s)
    ensures Ordered(r) && forall y :: y in r <==> y == x || y in s
  {
    if s == [] then [x]
    else if x <= s[0] then [x] + s
    else
      var r := Insert(x, s[1..]);
      assert s == [s[0]] + s[1..];
      assert forall y :: y in r ==> s[0] <= y;
      assert forall i :: 0 <= i < |r| ==> r[i] in r;
      assert forall i :: 0 <= i < |r| ==> s[0] <= r[i];
      [s[0]] + r
  }

  /** slices.Sort. */
  function Sort(s: seq<nat>): (r: seq<nat>)
    ensures Ordered(r) && forall y :: y in r <==> y in s
  {
    if s == [] then []
    else
      assert s == [s[0]] + s[1..];
      Insert(s[0], Sort(s[1..]))
  }

  /** slices.Compact. */
  method Compact(s: seq<nat>) returns (r: seq<nat>)
    requires Ordered(s)
    ensures Strict(r) && forall y :: y in r <==> y in s
  {
    r := [];
    for i := 0 to |s|
      invariant Strict(r) && forall y :: y in r <==> y in s[..i]
      invariant i == 0 ==> r == []
      invariant i > 0 ==> r != [] && r[|r| - 1] == s[i - 1]
    {
      assert s[..i + 1] == s[..i] + [s[i]];
      if i == 0 || s[i] != s[i - 1] {
        if i > 0 { assert s[i - 1] < s[i]; }
        assert forall j :: 0 <= j < |r| ==> r[j] < s[i];
        r := r + [s[i]];
      }
    }
    assert s[..|s|] == s;
  }

  /** The entries are those of the pairs. */
  predicate Packs(entries: seq<nat>, pairs: seq<Pair>, hash: string -> nat) {
    && (forall i :: 0 <= i < |pairs| ==> Entry(hash, pairs[i]) in entries)
    && (forall k :: 0 <= k < |entries| ==> exists i :: 0 <= i < |pairs| && Entry(hash, pairs[i]) == entries[k])
  }

  lemma PackOne(entries: seq<nat>, pairs: seq<Pair>, hash: string -> nat, p: Pair)
    requires Packs(entries, pairs, hash)
    ensures Packs(entries + [Entry(hash, p)], pairs + [p], hash)
  {
    var e, after := entries + [Entry(hash, p)], pairs + [p];
    forall i | 0 <= i < |after| ensures Entry(hash, after[i]) in e {
      if i < |pairs| {
        assert Entry(hash, pairs[i]) in entries;
      } else {
        assert e[|entries|] == Entry(hash, p);
      }
    }
    forall k | 0 <= k < |e| ensures exists i :: 0 <= i < |after| && Entry(hash, after[i]) == e[k] {
      if k < |entries| {
        var i :| 0 <= i < |pairs| && Entry(hash, pairs[i]) == entries[k];
        assert after[i] == pairs[i];
      } else {
        assert after[|pairs|] == p;
      }
    }
  }

  class Builder {
    const hash: string -> nat
    var entries: seq<nat>
    ghost var pairs: seq<Pair>

    ghost predicate Valid()
      reads this
    {
      Ranked(pairs) && Packs(entries, pairs, hash)
    }

    constructor (hash: string -> nat)
      ensures Valid() && pairs == [] && this.hash == hash
    {
      this.hash := hash;
      entries, pairs := [], [];
    }

    /** A pair with an unknown category or an empty domain is ignored. */
    method Add(domain: string, category: string)
      requires Valid()
      modifies this
      ensures Valid()
      ensures pairs == if Rank(category).Some? && Normalize(domain) != ""
                       then old(pairs) + [Pair(Normalize(domain), Rank(category).value + 1)] else old(pairs)
    {
      var id := Rank(category);
      var d := Normalize(domain);
      if id == None || d == "" { return; }
      var p := Pair(d, id.value + 1);
      PackOne(entries, pairs, hash, p);
      entries := entries + [256 * hash(d) + (id.value + 1)];
      pairs := pairs + [p];
    }

    /** Sorting and compacting loses no pair and invents none. */
    method Build() returns (x: Index)
      requires Valid()
      modifies this
      ensures x.Valid() && x.pairs == old(pairs) && x.hash == hash
      ensures entries == []
    {
      var sorted := Sort(entries);
      var e := Compact(sorted);
      forall k | 0 <= k < |e| ensures exists i :: 0 <= i < |pairs| && Entry(hash, pairs[i]) == e[k] {
        assert e[k] in entries;
      }
      x := new Index(hash, e, pairs);
      entries := [];
    }
  }

  // ---------------------------------------------------------------- lookups

  /** slices.BinarySearch: the first position whose entry is not below `k`. */
  method BinarySearch(entries: seq<nat>, k: nat) returns (pos: nat)
    requires Strict(entries)
    ensures pos <= |entries|
    ensures forall i :: 0 <= i < pos ==> entries[i] < k
    ensures forall i :: pos <= i < |entries| ==> k <= entries[i]
  {
    var lo, hi := 0, |entries|;
    while lo < hi
      invariant 0 <= lo <= hi <= |entries|
      invariant forall i :: 0 <= i < lo ==> entries[i] < k
      invariant forall i :: hi <= i < |entries| ==> k <= entries[i]
    {
      var mid := (lo + hi) / 2;
      if entries[mid] < k { lo := mid + 1; } else { hi := mid; }
    }
    return lo;
  }

  /** `best` is the least id of the entries of page `k`, 0 if there are none. */
  predicate IsLeastOf(best: nat, entries: seq<nat>, k: nat) {
    && (best != 0 ==> k + best in entries && best < 256)
    && (forall i :: 0 <= i < |entries| && Page(entries[i]) == k ==> 1 <= best <= entries[i] % 256)
  }

  function Page(e: nat): nat { e - e % 256 }

  lemma PageBounds(e: nat, k: nat)
    requires k % 256 == 0
    ensures Page(e) == k <==> k <= e < k + 256
    ensures Page(e) == k ==> e == k + e % 256
  {
  }

  lemma EntryPage(hash: string -> nat, p: Pair)
    requires p.id < 256
    ensures Page(Entry(hash, p)) == 256 * hash(p.domain) && Entry(hash, p) % 256 == p.id
  {
  }

  /** No listed domain other than `name` itself has its hash. */
  predicate NoClash(hash: string -> nat, pairs: seq<Pair>, name: string) {
    forall i :: 0 <= i < |pairs| && hash(pairs[i].domain) == hash(name) ==> pairs[i].domain == name
  }

  lemma LeastIsBest(hash: string -> nat, pairs: seq<Pair>, entries: seq<nat>, name: string, best: nat)
    requires Ranked(pairs) && Packs(entries, pairs, hash) && NoClash(hash, pairs, name)
    requires IsLeastOf(best, entries, 256 * hash(name))
    ensures best == Best(pairs, name)
  {
    BestMeaning(pairs, name);
    var want := Best(pairs, name);
    if want != 0 {
      var i :| 0 <= i < |pairs| && pairs[i] == Pair(name, want);
      EntryPage(hash, pairs[i]);
      assert Entry(hash, pairs[i]) in entries;
    }
    if best != 0 {
      var k :| 0 <= k < |entries| && entries[k] == 256 * hash(name) + best;
      var i :| 0 <= i < |pairs| && Entry(hash, pairs[i]) == entries[k];
      EntryPage(hash, pairs[i]);
      EntryPage(hash, Pair(name, best));
      assert pairs[i].id == best && hash(pairs[i].domain) == hash(name);
    }
  }

  class Index {
    const hash: string -> nat
    const entries: seq<nat>
    ghost const pairs: seq<Pair>

    ghost predicate Valid() {
      Strict(entries) && Ranked(pairs) && Packs(entries, pairs, hash)
    }

    constructor (hash: string -> nat, e: seq<nat>, ghost listed: seq<Pair>)
      requires Strict(e) && Ranked(listed) && Packs(e, listed, hash)
      ensures Valid() && pairs == listed && this.hash == hash && entries == e
    {
      this.hash, entries, pairs := hash, e, listed;
    }

    method LookupExact(name: string) returns (best: nat)
      requires Strict(entries)
      requires forall i :: 0 <= i < |entries| ==> entries[i] % 256 != 0
      ensures IsLeastOf(best, entries, 256 * hash(name))
    {
      var k := 256 * hash(name);
      var pos := BinarySearch(entries, k);
      var i := pos;
      best := 0;
      while i < |entries| && Page(entries[i]) == k
        invariant pos <= i <= |entries|
        invariant best != 0 ==> k + best in entries && best < 256
        invariant forall j :: pos <= j < i ==> 1 <= best <= entries[j] % 256
      {
        PageBounds(entries[i], k);
        var id := entries[i] % 256;
        if best == 0 || id < best { best := id; }
        i := i + 1;
      }
      if i < |entries| {
        PageBounds(entries[i], k);
        assert forall j :: i <= j < |entries| ==> entries[j] >= k + 256;
      }
      forall j | 0 <= j < |entries| && Page(entries[j]) == k ensures pos <= j < i {
        PageBounds(entries[j], k);
      }
    }

    /** With no collision of the tried names with listed ones, the lookup is that of the
        map. */
    method Lookup(name: string) returns (cat: Option<string>)
      requires Valid()
      ensures AllClear(hash, pairs, Walk(Normalize(name))) ==> cat == Listed(pairs, Walk(Normalize(name)))
    {
      if |entries| == 0 {
        EmptyListsNone(pairs, Walk(Normalize(name)));
        return None;
      }
      IdsAreNonzero(hash, pairs, entries);
      ghost var walk := Walk(Normalize(name));
      var rest := Normalize(name);
      while rest != "" && AfterDot(rest) != None
        invariant AllClear(hash, pairs, walk) ==>
                    AllClear(hash, pairs, Walk(rest)) && Listed(pairs, walk) == Listed(pairs, Walk(rest))
        decreases |rest|
      {
        var id := LookupExact(rest);
        LookupStep(hash, pairs, entries, rest, id);
        if id != 0 { return Some(PRECEDENCE[id - 1]); }
        rest := AfterDot(rest).value;
      }
      return None;
    }
  }

  /** One turn of the walk, against the map. */
  lemma LookupStep(hash: string -> nat, pairs: seq<Pair>, entries: seq<nat>, name: string, id: nat)
    requires Ranked(pairs) && Packs(entries, pairs, hash) && AfterDot(name).Some?
    requires IsLeastOf(id, entries, 256 * hash(name))
    ensures id <= |PRECEDENCE|
    ensures AllClear(hash, pairs, Walk(name)) ==>
              if id != 0 then Listed(pairs, Walk(name)) == Some(PRECEDENCE[id - 1])
              else AllClear(hash, pairs, Walk(AfterDot(name).value))
                   && Listed(pairs, Walk(name)) == Listed(pairs, Walk(AfterDot(name).value))
  {
    if id != 0 { IdIsRanked(hash, pairs, entries, name, id); }
    WalkStep(name);
    if AllClear(hash, pairs, Walk(name)) {
      assert NoClash(hash, pairs, Walk(name)[0]);
      LeastIsBest(hash, pairs, entries, name, id);
      assert forall i :: 0 <= i < |Walk(name)[1..]| ==> Walk(name)[1..][i] == Walk(name)[i + 1];
    }
  }

  predicate AllClear(hash: string -> nat, pairs: seq<Pair>, walk: seq<string>) {
    forall i :: 0 <= i < |walk| ==> NoClash(hash, pairs, walk[i])
  }

  lemma WalkStep(name: string)
    requires AfterDot(name).Some?
    ensures Walk(name) != [] && Walk(name)[0] == name && Walk(name)[1..] == Walk(AfterDot(name).value)
  {
  }

  lemma IdsAreNonzero(hash: string -> nat, pairs: seq<Pair>, entries: seq<nat>)
    requires Ranked(pairs) && Packs(entries, pairs, hash)
    ensures forall i :: 0 <= i < |entries| ==> entries[i] % 256 != 0
  {
    forall k | 0 <= k < |entries| ensures entries[k] % 256 != 0 {
      var i :| 0 <= i < |pairs| && Entry(hash, pairs[i]) == entries[k];
      EntryPage(hash, pairs[i]);
    }
  }

  lemma IdIsRanked(hash: string -> nat, pairs: seq<Pair>, entries: seq<nat>, name: string, id: nat)
    requires Ranked(pairs) && Packs(entries, pairs, hash) && 256 * hash(name) + id in entries && id < 256
    ensures id <= |PRECEDENCE|
  {
    var k :| 0 <= k < |entries| && entries[k] == 256 * hash(name) + id;
    var i :| 0 <= i < |pairs| && Entry(hash, pairs[i]) == entries[k];
    EntryPage(hash, pairs[i]);
    EntryPage(hash, Pair(name, id));
  }

  lemma {:induction false} EmptyListsNone(pairs: seq<Pair>, walk: seq<string>)
    requires Ranked(pairs)
    ensures pairs == [] ==> Listed(pairs, walk) == None
  {
    if walk != [] { EmptyListsNone(pairs, walk[1..]); }
  }

  /** What the map's lookup returns: the best category of the first tried name that is in
      any, every earlier one being in none. */
  lemma {:induction false} ListedMeaning(pairs: seq<Pair>, walk: seq<string>, i: nat)
    requires Ranked(pairs) && i < |walk|
    requires forall j :: 0 <= j < i ==> Best(pairs, walk[j]) == 0
    ensures Best(pairs, walk[i]) != 0 ==>
              Best(pairs, walk[i]) <= |PRECEDENCE| && Listed(pairs, walk) == Some(PRECEDENCE[Best(pairs, walk[i]) - 1])
    ensures i == |walk| - 1 && Best(pairs, walk[i]) == 0 ==> Listed(pairs, walk) == None
  {
    BestMeaning(pairs, walk[i]);
    if i > 0 {
      forall j | 0 <= j < i - 1 ensures Best(pairs, walk[1..][j]) == 0 {
        assert walk[1..][j] == walk[j + 1];
      }
      ListedMeaning(pairs, walk[1..], i - 1);
    }
  }

  /** The order the pairs were added in, and repeats, do not matter. */
  lemma BestIsASet(a: seq<Pair>, b: seq<Pair>, d: string)
    requires Ranked(a) && Ranked(b) && forall p :: p in a <==> p in b
    ensures Best(a, d) == Best(b, d)
  {
    BestMeaning(a, d);
    BestMeaning(b, d);
    if Best(a, d) != 0 { assert Pair(d, Best(a, d)) in b; }
    if Best(b, d) != 0 { assert Pair(d, Best(b, d)) in a; }
  }

  /** With a collision the lookup may answer for a domain that is not listed. */
  lemma CollisionAnswers(hash: string -> nat, listed: Pair, name: string)
    requires 1 <= listed.id <= |PRECEDENCE| && hash(name) == hash(listed.domain) && name != listed.domain
    ensures IsLeastOf(listed.id, [Entry(hash, listed)], 256 * hash(name)) && Best([listed], name) == 0
  {
    EntryPage(hash, listed);
    assert [listed][1..] == [];
  }
}
