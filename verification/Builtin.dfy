/** The built-in list of platforms (internal/categories/builtin.go) and the part of it sent
    to agents, as their resolver walks it (`blockedCategory` in
    internal/resolver/resolver.go). */
module BuiltinTable {
  import opened DomainNames
  import opened Wrappers

  type Table = map<string, string>

  /** The domain a walk from `name` stops at: the most specific listed one. */
  function Stop(t: Table, name: string): (s: Option<string>)
    ensures s.Some? ==> s.value in t
    decreases |name|
  {
    if name in t then Some(name)
    else if AfterDot(name) == None then None
    else Stop(t, AfterDot(name).value)
  }

  /** A proper parent of `name` is listed in a category of `cats`. */
  predicate UnderBlocked(t: Table, cats: set<string>, name: string)
    decreases |name|
  {
    AfterDot(name).Some?
    && var p := AfterDot(name).value; (p in t && t[p] in cats) || UnderBlocked(t, cats, p)
  }

  /** The entries sent: the blocked ones, and those under a blocked one. */
  function Sent(t: Table, cats: set<string>): Table {
    map d <- t | t[d] in cats || UnderBlocked(t, cats, d) :: t[d]
  }

  // ---------------------------------------------------------------- the two loops

  /** The second loop's walk from one domain over what is collected so far. */
  method IsUnder(out: Table, cats: set<string>, d: string) returns (under: bool)
    ensures under == UnderBlocked(out, cats, d)
  {
    var rest := d;
    while AfterDot(rest).Some?
      invariant UnderBlocked(out, cats, d) == UnderBlocked(out, cats, rest)
      decreases |rest|
    {
      rest := AfterDot(rest).value;
      if rest in out && out[rest] in cats { return true; }
    }
    return false;
  }

  /** The tables agree on the entries of blocked categories. */
  predicate SameBlocked(a: Table, b: Table, cats: set<string>) {
    && (forall d <- a :: a[d] in cats ==> d in b && b[d] == a[d])
    && (forall d <- b :: b[d] in cats ==> d in a && a[d] == b[d])
  }

  lemma {:induction false} SameUnder(a: Table, b: Table, cats: set<string>, d: string)
    requires SameBlocked(a, b, cats)
    ensures UnderBlocked(a, cats, d) == UnderBlocked(b, cats, d)
    decreases |d|
  {
    if AfterDot(d).Some? { SameUnder(a, b, cats, AfterDot(d).value); }
  }

  method BuiltinDomains(t: Table, cats: set<string>) returns (out: Table)
    ensures out == Sent(t, cats)
  {
    out := map[];
    var left := t.Keys;
    while left != {}
      invariant left <= t.Keys
      invariant out == map d <- t | d !in left && t[d] in cats :: t[d]
      decreases |left|
    {
      var d :| d in left;
      left := left - {d};
      if t[d] in cats { out := out[d := t[d]]; }
    }
    left := t.Keys;
    while left != {}
      invariant left <= t.Keys
      invariant out == map d <- t | t[d] in cats || (d !in left && UnderBlocked(t, cats, d)) :: t[d]
      decreases |left|
    {
      var d :| d in left;
      left := left - {d};
      if d in out { continue; }
      var under := IsUnder(out, cats, d);
      SameUnder(t, out, cats, d);
      if under { out := out[d := t[d]]; }
    }
  }

  /** `Builtin`: the control plane's walk, which stops at an empty name. */
  method Builtin(t: Table, name: string) returns (cat: Option<string>)
    requires "" !in t
    ensures cat == if Stop(t, name).Some? then Some(t[Stop(t, name).value]) else None
  {
    var rest := name;
    while rest != ""
      invariant Stop(t, name) == Stop(t, rest)
      decreases |rest|
    {
      if rest in t { return Some(t[rest]); }
      if AfterDot(rest) == None { break; }
      rest := AfterDot(rest).value;
    }
    return None;
  }

  /** The agent's decision: the corrections first, then what the database says. */
  function Decision(t: Table, blocked: set<string>, db: Option<string>, name: string): (string, bool) {
    if blocked == {} then ("", false)
    else if Stop(t, name).Some? then (t[Stop(t, name).value], t[Stop(t, name).value] in blocked)
    else if db.Some? && db.value in blocked then (db.value, true)
    else ("", false)
  }

  /** The domain itself or a parent of it. */
  predicate IsUpFrom(s: string, name: string) {
    s == name || exists i :: 0 <= i < |name| && name[i] == '.' && name[i + 1..] == s
  }

  lemma {:induction false} AfterDotIsUp(name: string)
    ensures AfterDot(name).None? <==> forall i :: 0 <= i < |name| ==> name[i] != '.'
    ensures AfterDot(name).Some? ==>
              exists i :: 0 <= i < |name| && name[i] == '.' && name[i + 1..] == AfterDot(name).value
                          && forall j :: 0 <= j < i ==> name[j] != '.'
  {
    if name != "" && name[0] != '.' {
      AfterDotIsUp(name[1..]);
      if AfterDot(name).Some? {
        var i :| 0 <= i < |name[1..]| && name[1..][i] == '.' && name[1..][i + 1..] == AfterDot(name).value
                 && forall j :: 0 <= j < i ==> name[1..][j] != '.';
        assert name[i + 1] == '.' && name[i + 2..] == AfterDot(name).value;
        forall j | 0 <= j < i + 1 ensures name[j] != '.' { if j > 0 { assert name[j] == name[1..][j - 1]; } }
      } else {
        forall i | 0 <= i < |name| ensures name[i] != '.' { if i > 0 { assert name[i] == name[1..][i - 1]; } }
      }
    }
  }

  /** `p` follows the dot at `d`, the first of the name. */
  predicate FollowsDot(name: string, d: nat, p: string) {
    d < |name| && name[d] == '.' && name[d + 1..] == p && forall j :: 0 <= j < d ==> name[j] != '.'
  }

  lemma UpFromParent(s: string, name: string, d: nat, p: string)
    requires FollowsDot(name, d, p) && IsUpFrom(s, p)
    ensures IsUpFrom(s, name)
  {
    if s == p {
      assert name[d + 1..] == s;
    } else {
      var i :| 0 <= i < |p| && p[i] == '.' && p[i + 1..] == s;
      assert name[d + 1 + i] == '.' && name[d + 1 + i + 1..] == s;
    }
  }

  lemma UpPastParent(s: string, name: string, d: nat, p: string)
    requires FollowsDot(name, d, p) && IsUpFrom(s, name) && s != name
    ensures IsUpFrom(s, p)
  {
    var i :| 0 <= i < |name| && name[i] == '.' && name[i + 1..] == s;
    if i > d { assert p[i - d - 1] == '.' && p[i - d - 1 + 1..] == s; }
  }

  /** The domains up from a name are the name and those up from what follows its first dot. */
  lemma UpOnce(s: string, name: string)
    ensures IsUpFrom(s, name) <==> s == name || (AfterDot(name).Some? && IsUpFrom(s, AfterDot(name).value))
  {
    AfterDotIsUp(name);
    if AfterDot(name).Some? {
      var p := AfterDot(name).value;
      var d :| 0 <= d < |name| && name[d] == '.' && name[d + 1..] == p && forall j :: 0 <= j < d ==> name[j] != '.';
      if IsUpFrom(s, p) { UpFromParent(s, name, d, p); }
      if IsUpFrom(s, name) && s != name { UpPastParent(s, name, d, p); }
    }
  }

  /** A walk stops at the most specific listed domain up from the name, if there is one. */
  lemma {:induction false} StopMeaning(t: Table, name: string)
    ensures Stop(t, name).None? <==> forall s <- t :: !IsUpFrom(s, name)
    ensures Stop(t, name).Some? ==>
              var s := Stop(t, name).value;
              s in t && IsUpFrom(s, name) && forall u <- t :: IsUpFrom(u, name) ==> |u| <= |s|
    decreases |name|
  {
    forall s <- t
      ensures IsUpFrom(s, name) <==> s == name || (AfterDot(name).Some? && IsUpFrom(s, AfterDot(name).value))
    {
      UpOnce(s, name);
    }
    if name in t {
      forall u <- t | IsUpFrom(u, name) ensures |u| <= |name| {
        if u != name { var i :| 0 <= i < |name| && name[i] == '.' && name[i + 1..] == u; }
      }
    } else if AfterDot(name).Some? {
      StopMeaning(t, AfterDot(name).value);
      if Stop(t, name).Some? { UpOnce(Stop(t, name).value, name); }
    }
  }

  /** The decision: with nothing blocked, none; else a correction for the name or a parent of
      it decides, the most specific first, for or against; else the database's category, if
      it is blocked. */
  lemma DecisionMeaning(t: Table, blocked: set<string>, db: Option<string>, name: string)
    ensures blocked == {} ==> Decision(t, blocked, db, name) == ("", false)
    ensures forall s <- t ::
              blocked != {} && IsUpFrom(s, name) && (forall u <- t :: IsUpFrom(u, name) ==> |u| <= |s|) ==>
                Decision(t, blocked, db, name) == (t[s], t[s] in blocked)
    ensures blocked != {} && (forall s <- t :: !IsUpFrom(s, name)) ==>
              match db
              case Some(cat) => Decision(t, blocked, db, name) == if cat in blocked then (cat, true) else ("", false)
              case None => Decision(t, blocked, db, name) == ("", false)
  {
    StopMeaning(t, name);
    forall s <- t | IsUpFrom(s, name) && forall u <- t :: IsUpFrom(u, name) ==> |u| <= |s|
      ensures Stop(t, name) == Some(s)
    {
      SameLength(Stop(t, name).value, s, name);
    }
  }

  lemma SameLength(a: string, b: string, name: string)
    requires IsUpFrom(a, name) && IsUpFrom(b, name) && |a| == |b|
    ensures a == b
  {
    assert a == name[|name| - |a|..] && b == name[|name| - |b|..];
  }

  method BlockedCategory(t: Table, blocked: set<string>, db: Option<string>, name: string)
    returns (cat: string, hit: bool)
    ensures (cat, hit) == Decision(t, blocked, db, name)
  {
    if |blocked| == 0 { return "", false; }
    if |t| > 0 {
      var rest := name;
      while true
        invariant Stop(t, name) == Stop(t, rest)
        decreases |rest|
      {
        if rest in t { return t[rest], t[rest] in blocked; }
        if AfterDot(rest) == None { break; }
        rest := AfterDot(rest).value;
      }
    } else {
      EmptyStops(name);
      assert t == map[];
    }
    if db.Some? && db.value in blocked { return db.value, true; }
    return "", false;
  }

  lemma {:induction false} EmptyStops(name: string)
    ensures Stop(map[], name) == None
    decreases |name|
  {
    if AfterDot(name).Some? { EmptyStops(AfterDot(name).value); }
  }

  // ---------------------------------------------------------------- what is sent

  /** A listed, blocked domain at or above `name`. */
  predicate BlockedUp(t: Table, cats: set<string>, s: string, name: string) {
    s in t && t[s] in cats && IsUpFrom(s, name)
  }

  lemma UpIsShorter(s: string, name: string)
    requires IsUpFrom(s, name)
    ensures s == name || |s| < |name|
  {
  }

  lemma {:induction false} UnderMeaning(t: Table, cats: set<string>, name: string)
    ensures UnderBlocked(t, cats, name) <==> exists s <- t :: BlockedUp(t, cats, s, name) && s != name
    decreases |name|
  {
    if AfterDot(name).Some? {
      var p := AfterDot(name).value;
      UnderMeaning(t, cats, p);
      if UnderBlocked(t, cats, name) {
        var s := if p in t && t[p] in cats then p else (var u :| BlockedUp(t, cats, u, p); u);
        UpIsShorter(s, p);
        UpOnce(s, name);
        assert BlockedUp(t, cats, s, name) && s != name;
      }
    }
    forall s <- t | BlockedUp(t, cats, s, name) && s != name ensures UnderBlocked(t, cats, name) {
      UpOnce(s, name);
      assert BlockedUp(t, cats, s, AfterDot(name).value);
    }
  }

  /** Sent are exactly the entries a blocked one stands at or above, as they are. */
  lemma SentMeaning(t: Table, cats: set<string>, d: string)
    ensures d in Sent(t, cats) <==> d in t && exists s <- t :: t[s] in cats && IsUpFrom(s, d)
    ensures d in Sent(t, cats) ==> Sent(t, cats)[d] == t[d]
  {
    UnderMeaning(t, cats, d);
    if s :| s in t && t[s] in cats && IsUpFrom(s, d) { assert BlockedUp(t, cats, s, d); }
  }

  // ---------------------------------------------------------------- the walks agree

  /** The category a walk reaches, if it is blocked. */
  function Blocked(t: Table, cats: set<string>, name: string): Option<string> {
    var s := Stop(t, name);
    if s.Some? && t[s.value] in cats then Some(t[s.value]) else None
  }

  /** Above a domain with no blocked parent nothing blocked is reached. */
  lemma {:induction false} NothingBlockedAbove(t: Table, cats: set<string>, name: string)
    requires !UnderBlocked(t, cats, name) && !(name in t && t[name] in cats)
    ensures Blocked(Sent(t, cats), cats, name) == None
    decreases |name|
  {
    if AfterDot(name).Some? { NothingBlockedAbove(t, cats, AfterDot(name).value); }
  }

  /** For every table, blocked set and name, the walk over the sent entries reaches a
      blocked category exactly when the walk over the whole table does, and then the same
      one. */
  lemma {:induction false} SentWalksAlike(t: Table, cats: set<string>, name: string)
    ensures Blocked(Sent(t, cats), cats, name) == Blocked(t, cats, name)
    decreases |name|
  {
    if name in t {
      if t[name] !in cats && !UnderBlocked(t, cats, name) { NothingBlockedAbove(t, cats, name); }
    } else if AfterDot(name).Some? {
      SentWalksAlike(t, cats, AfterDot(name).value);
    }
  }

  /** Only the blocked entries: what the first loop alone would send. */
  function FirstPass(t: Table, cats: set<string>): Table { map d <- t | t[d] in cats :: t[d] }

  lemma {:induction false} FirstPassStops(t: Table, cats: set<string>, name: string)
    ensures Blocked(FirstPass(t, cats), cats, name).Some?
        <==> (name in t && t[name] in cats) || UnderBlocked(t, cats, name)
    decreases |name|
  {
    if AfterDot(name).Some? { FirstPassStops(t, cats, AfterDot(name).value); }
  }

  lemma {:induction false} FirstPassReaches(t: Table, cats: set<string>, name: string)
    ensures Blocked(t, cats, name).Some? ==> Blocked(FirstPass(t, cats), cats, name) == Blocked(t, cats, name)
    decreases |name|
  {
    if name !in t && AfterDot(name).Some? { FirstPassReaches(t, cats, AfterDot(name).value); }
  }

  /** Without the second loop the walks would differ for exactly the names whose most
      specific entry is not blocked but lies under one that is. */
  lemma SecondPassNeededIff(t: Table, cats: set<string>, name: string)
    ensures Blocked(FirstPass(t, cats), cats, name) != Blocked(t, cats, name)
            <==> (Stop(t, name).Some? && t[Stop(t, name).value] !in cats && UnderBlocked(t, cats, Stop(t, name).value))
  {
    FirstPassReaches(t, cats, name);
    FirstPassStops(t, cats, name);
    UnderFromStop(t, cats, name);
  }

  lemma {:induction false} UnderFromStop(t: Table, cats: set<string>, name: string)
    ensures Stop(t, name) == None ==> !UnderBlocked(t, cats, name)
    ensures Stop(t, name).Some? && Stop(t, name).value != name ==>
              (UnderBlocked(t, cats, name)
               <==> t[Stop(t, name).value] in cats || UnderBlocked(t, cats, Stop(t, name).value))
    decreases |name|
  {
    if name !in t && AfterDot(name).Some? { UnderFromStop(t, cats, AfterDot(name).value); }
  }
}
