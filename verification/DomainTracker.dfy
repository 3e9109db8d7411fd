/** k-anonymity for domains (internal/privacy/domains.go): per UTC day, how many distinct
    devices queried each name and each registered domain, remembering at most k devices a
    name and a bounded number of names.

    `reg` stands for the Public Suffix List (the registered domain of a canonical name in
    stored form, "" if none). A device is counted by its pseudonym under the key the day's
    key ring holds when the query comes in (module Keyrings). */
module DomainTrackers {
  import opened DomainNames
  import opened Keyrings
  import opened PrivacyTerms

  /** What the tracker is built over; `cap` bounds the names counted per day
      (1 000 000 in the source). */
  datatype Env = Env(reg: string -> string, mac: Mac, cap: nat)

  datatype SeenBy = SeenBy(common: bool, devs: seq<Dev>)

  type Table = map<string, SeenBy>

  datatype Day = Day(names: Table, regs: Table)

  /** Every (key, device) pair counted since the day's counts began. */
  datatype Seen = Seen(names: set<(string, Dev)>, regs: set<(string, Dev)>)

  /** The counts, with the record of what was counted, and the key ring. */
  datatype Tracker = Tracker(k: nat, days: map<int, Day>, seen: map<int, Seen>, ring: Ring)

  const NEW := Tracker(0, map[], map[], Ring(map[], 0))

  function TrimDot(s: string): string { if s != "" && s[|s| - 1] == '.' then s[..|s| - 1] else s }

  function Canonical(name: string): string { Lower(TrimDot(name)) + "." }

  function Registered(e: Env, name: string): string { e.reg(Canonical(name)) }

  // ---------------------------------------------------------------- one table

  function Common(m: Table, key: string): bool { key in m && m[key].common }

  function Grow(s: SeenBy, dev: Dev, k: nat): SeenBy {
    if s.common || dev in s.devs then s
    else if |s.devs| + 1 >= k then SeenBy(true, [])
    else SeenBy(false, s.devs + [dev])
  }

  function RowOf(m: Table, key: string): SeenBy { if key in m then m[key] else SeenBy(false, []) }

  function Add(m: Table, key: string, dev: Dev, k: nat, cap: nat): Table {
    if key !in m && |m| >= cap then m else m[key := Grow(RowOf(m, key), dev, k)]
  }

  function Devs(seen: set<(string, Dev)>, key: string): set<Dev> { set p | p in seen && p.0 == key :: p.1 }

  function SetOf(devs: seq<Dev>): set<Dev> { set d | d in devs }

  ghost predicate RowFine(s: SeenBy, devs: set<Dev>, k: nat) {
    && |s.devs| < k
    && |SetOf(s.devs)| == |s.devs|
    && (if s.common then s.devs == [] && |devs| >= k else SetOf(s.devs) == devs)
  }

  /** A tracked key knows its devices exactly, up to k; below the cap every counted key
      is tracked. */
  ghost predicate TableFine(m: Table, seen: set<(string, Dev)>, k: nat, cap: nat) {
    && |m| <= cap
    && (forall key <- m :: RowFine(m[key], Devs(seen, key), k))
    && (|m| < cap ==> forall p <- seen :: p.0 in m)
  }

  lemma DevsAdded(seen: set<(string, Dev)>, key: string, dev: Dev)
    ensures Devs(seen + {(key, dev)}, key) == Devs(seen, key) + {dev}
    ensures forall other :: other != key ==> Devs(seen + {(key, dev)}, other) == Devs(seen, other)
  {
    var more := seen + {(key, dev)};
    forall d | d in Devs(seen, key) + {dev} ensures d in Devs(more, key) {
      if d == dev { assert (key, dev) in more; } else {
        var p :| p in seen && p.0 == key && p.1 == d;
        assert p in more;
      }
    }
    forall other | other != key ensures Devs(more, other) == Devs(seen, other) {
      forall d | d in Devs(seen, other) ensures d in Devs(more, other) {
        var p :| p in seen && p.0 == other && p.1 == d;
        assert p in more;
      }
    }
  }

  lemma RowGrows(s: SeenBy, devs: set<Dev>, dev: Dev, k: nat)
    requires RowFine(s, devs, k)
    ensures RowFine(Grow(s, dev, k), devs + {dev}, k)
  {
    if s.common {
      assert devs + {dev} == devs || |devs + {dev}| == |devs| + 1;
    } else if dev in s.devs {
      assert devs + {dev} == devs;
    } else {
      assert SetOf(s.devs + [dev]) == SetOf(s.devs) + {dev};
      assert dev !in SetOf(s.devs);
      assert |devs + {dev}| == |s.devs| + 1;
      assert SetOf([]) == {};
    }
  }

  lemma AddKeepsTable(m: Table, seen: set<(string, Dev)>, key: string, dev: Dev, k: nat, cap: nat)
    requires k > 0 && TableFine(m, seen, k, cap)
    ensures TableFine(Add(m, key, dev, k, cap), seen + {(key, dev)}, k, cap)
    ensures Add(m, key, dev, k, cap).Keys == if key in m || |m| < cap then m.Keys + {key} else m.Keys
  {
    var n, more := Add(m, key, dev, k, cap), seen + {(key, dev)};
    DevsAdded(seen, key, dev);
    if key in m || |m| < cap {
      if key !in m {
        assert SetOf([]) == {};
        assert Devs(seen, key) == {};
      }
      RowGrows(RowOf(m, key), Devs(seen, key), dev, k);
      assert n.Keys == m.Keys + {key};
      assert |n| == |n.Keys| && |m| == |m.Keys|;
      forall other <- n ensures RowFine(n[other], Devs(more, other), k) {
        if other != key { assert n[other] == m[other]; }
      }
    } else {
      assert n == m;
      forall other <- n ensures RowFine(n[other], Devs(more, other), k) {
        assert other != key;
      }
    }
  }

  /** A name counts as common only if k devices were counted for it; for a tracked name,
      or below the cap, exactly then. */
  lemma CommonMeansShared(m: Table, seen: set<(string, Dev)>, key: string, k: nat, cap: nat)
    requires k > 0 && TableFine(m, seen, k, cap)
    ensures Common(m, key) ==> |Devs(seen, key)| >= k
    ensures key in m || |m| < cap ==> (Common(m, key) <==> |Devs(seen, key)| >= k)
  {
    if key !in m && |m| < cap {
      assert Devs(seen, key) == {};
    }
  }

  // ---------------------------------------------------------------- one day

  function Count(e: Env, d: Day, n: string, dev: Dev, k: nat): Day {
    Day(Add(d.names, n, dev, k, e.cap),
        if e.reg(n) == "" then d.regs else Add(d.regs, e.reg(n), dev, k, e.cap))
  }

  function CountSeen(e: Env, s: Seen, n: string, dev: Dev): Seen {
    Seen(s.names + {(n, dev)}, if e.reg(n) == "" then s.regs else s.regs + {(e.reg(n), dev)})
  }

  /** Row s of a name is within row r of its registered domain. */
  ghost predicate Within(s: SeenBy, r: SeenBy) { r.common || (!s.common && SetOf(s.devs) <= SetOf(r.devs)) }

  ghost predicate Linked(e: Env, d: Day) {
    forall n <- d.names :: e.reg(n) != "" ==> e.reg(n) in d.regs && Within(d.names[n], d.regs[e.reg(n)])
  }

  /** Until the names are full, every registered domain comes from a tracked name. */
  ghost predicate Backed(e: Env, d: Day) {
    |d.names| < e.cap ==> d.regs.Keys <= set n | n in d.names :: e.reg(n)
  }

  ghost predicate DayFine(e: Env, d: Day, s: Seen, k: nat) {
    && TableFine(d.names, s.names, k, e.cap)
    && TableFine(d.regs, s.regs, k, e.cap)
    && Linked(e, d)
    && Backed(e, d)
  }

  lemma SubsetSize<T>(a: set<T>, b: set<T>)
    requires a <= b
    ensures |a| <= |b|
  {
    assert b == a + (b - a);
  }

  lemma {:induction false} ImageSize(e: Env, ns: set<string>)
    ensures |set n | n in ns :: e.reg(n)| <= |ns|
    decreases |ns|
  {
    if ns != {} {
      var n :| n in ns;
      ImageSize(e, ns - {n});
      assert (set m | m in ns :: e.reg(m)) == (set m | m in ns - {n} :: e.reg(m)) + {e.reg(n)};
    } else {
      assert (set m | m in ns :: e.reg(m)) == {};
    }
  }

  lemma WithinGrows(s: SeenBy, r: SeenBy, dev: Dev, k: nat)
    requires Within(s, r) && |SetOf(s.devs)| == |s.devs| < k && |SetOf(r.devs)| == |r.devs| < k
    ensures Within(Grow(s, dev, k), Grow(r, dev, k)) && Within(s, Grow(r, dev, k))
  {
    if !r.common {
      assert SetOf(r.devs + [dev]) == SetOf(r.devs) + {dev};
      assert SetOf(s.devs + [dev]) == SetOf(s.devs) + {dev};
      SubsetSize(SetOf(s.devs), SetOf(r.devs));
      if dev !in s.devs && dev in r.devs && |s.devs| + 1 >= k {
        SubsetSize(SetOf(s.devs) + {dev}, SetOf(r.devs));
      }
    }
  }

  /** When a new name is tracked, there is room for its registered domain. */
  lemma RoomForDomain(e: Env, d: Day)
    requires Backed(e, d) && |d.names| < e.cap
    ensures |d.regs| < e.cap
  {
    ImageSize(e, d.names.Keys);
    assert (set n | n in d.names.Keys :: e.reg(n)) == (set n | n in d.names :: e.reg(n));
    SubsetSize(d.regs.Keys, set n | n in d.names :: e.reg(n));
    assert |d.regs.Keys| == |d.regs| && |d.names.Keys| == |d.names|;
  }

  lemma OtherStaysWithin(e: Env, d: Day, s: Seen, n: string, dev: Dev, k: nat, m: string)
    requires k > 0 && DayFine(e, d, s, k) && m in d.names && e.reg(m) != ""
    ensures var regs := Count(e, d, n, dev, k).regs;
            e.reg(m) in regs && Within(d.names[m], regs[e.reg(m)])
  {
    if e.reg(m) == e.reg(n) { WithinGrows(d.names[m], d.regs[e.reg(m)], dev, k); }
  }

  lemma CountedStaysWithin(e: Env, d: Day, s: Seen, n: string, dev: Dev, k: nat)
    requires k > 0 && DayFine(e, d, s, k) && e.reg(n) != "" && n in Count(e, d, n, dev, k).names
    ensures var c := Count(e, d, n, dev, k);
            e.reg(n) in c.regs && Within(c.names[n], c.regs[e.reg(n)])
  {
    var r := e.reg(n);
    assert SetOf([]) == {};
    if n !in d.names { RoomForDomain(e, d); }
    WithinGrows(RowOf(d.names, n), RowOf(d.regs, r), dev, k);
  }

  lemma CountKeepsLinked(e: Env, d: Day, s: Seen, n: string, dev: Dev, k: nat)
    requires k > 0 && DayFine(e, d, s, k)
    ensures Linked(e, Count(e, d, n, dev, k))
  {
    var c := Count(e, d, n, dev, k);
    forall m <- c.names | e.reg(m) != ""
      ensures e.reg(m) in c.regs && Within(c.names[m], c.regs[e.reg(m)])
    {
      if m == n {
        CountedStaysWithin(e, d, s, n, dev, k);
      } else {
        OtherStaysWithin(e, d, s, n, dev, k, m);
      }
    }
  }

  lemma CountKeepsBacked(e: Env, d: Day, s: Seen, n: string, dev: Dev, k: nat)
    requires k > 0 && DayFine(e, d, s, k)
    ensures Backed(e, Count(e, d, n, dev, k))
  {
    var c := Count(e, d, n, dev, k);
    var r := e.reg(n);
    AddKeepsTable(d.names, s.names, n, dev, k, e.cap);
    if r != "" { AddKeepsTable(d.regs, s.regs, r, dev, k, e.cap); }
    if |c.names| < e.cap {
      SubsetSize(d.names.Keys, c.names.Keys);
      assert |d.names.Keys| == |d.names| && |c.names.Keys| == |c.names|;
      forall x <- c.regs.Keys ensures x in set m | m in c.names :: e.reg(m) {
        if x == r {
          assert n in c.names;
        } else {
          assert x in d.regs.Keys;
          var m :| m in d.names && e.reg(m) == x;
          assert m in c.names;
        }
      }
    }
  }

  lemma CountKeepsDay(e: Env, d: Day, s: Seen, n: string, dev: Dev, k: nat)
    requires k > 0 && DayFine(e, d, s, k)
    ensures DayFine(e, Count(e, d, n, dev, k), CountSeen(e, s, n, dev), k)
  {
    CountKeepsLinked(e, d, s, n, dev, k);
    CountKeepsBacked(e, d, s, n, dev, k);
    AddKeepsTable(d.names, s.names, n, dev, k, e.cap);
    if e.reg(n) != "" { AddKeepsTable(d.regs, s.regs, e.reg(n), dev, k, e.cap); }
  }

  /** A common name has a common registered domain, even at the cap. */
  lemma CommonNameCommonDomain(e: Env, d: Day, s: Seen, n: string, k: nat)
    requires DayFine(e, d, s, k) && Common(d.names, n) && e.reg(n) != ""
    ensures Common(d.regs, e.reg(n))
  {
  }

  // ---------------------------------------------------------------- the tracker

  function DevOf(e: Env, client: string, key: nat): Dev {
    if IsPseudonym(client) then client else e.mac.pseud(key, client)
  }

  /** The key ring once the client was named that day. */
  function Named(r: Ring, client: string, day: int): Ring { if IsPseudonym(client) then r else Draw(r, day) }

  predicate Countable(name: string, client: string) { name != "" && name != HIDDEN && client != "" }

  predicate AnyRaw(pairs: seq<(string, string)>) {
    exists p <- pairs :: Countable(p.0, p.1) && !IsPseudonym(p.1)
  }

  /** A day's counts as the store seeds them from its (name, client) pairs, under one key. */
  function Seeded(e: Env, key: nat, pairs: seq<(string, string)>, k: nat): (Day, Seen) {
    if pairs == [] then (Day(map[], map[]), Seen({}, {}))
    else
      var r := Seeded(e, key, pairs[..|pairs| - 1], k);
      var p := pairs[|pairs| - 1];
      if !Countable(p.0, p.1) then r
      else
        (Count(e, r.0, Canonical(p.0), DevOf(e, p.1, key), k),
         CountSeen(e, r.1, Canonical(p.0), DevOf(e, p.1, key)))
  }

  function SetK(t: Tracker, k: nat): Tracker { if k == t.k then t else Tracker(k, map[], map[], t.ring) }

  /** `day`: the day's counts, seeded on first use (`stored` is what the store holds). */
  function Open(e: Env, t: Tracker, day: int, stored: int -> seq<(string, string)>): Tracker {
    if day in t.days then t
    else
      var r := Seeded(e, KeyOf(t.ring, day), stored(day), t.k);
      Tracker(t.k, t.days[day := r.0], t.seen[day := r.1],
              if AnyRaw(stored(day)) then Draw(t.ring, day) else t.ring)
  }

  function CountOn(e: Env, t: Tracker, day: int, n: string, dev: Dev): Tracker
    requires day in t.days && day in t.seen
  {
    t.(days := t.days[day := Count(e, t.days[day], n, dev, t.k)],
       seen := t.seen[day := CountSeen(e, t.seen[day], n, dev)])
  }

  /** The client is named first, then its day opened. */
  function Observe(e: Env, t: Tracker, name: string, client: string, ts: int, k: nat,
                   stored: int -> seq<(string, string)>): Tracker
  {
    if !Countable(name, client) then t
    else
      var day := DayOf(ts);
      var u := Open(e, SetK(t.(ring := Named(t.ring, client, day)), k), day, stored);
      if day !in u.seen || day !in u.days then u
      else CountOn(e, u, day, Canonical(name), DevOf(e, client, KeyOf(t.ring, day)))
  }

  /** What `keep` decides from the two days' counts. */
  function Decide(e: Env, today: Day, before: Day, name: string): string {
    var n := Canonical(name);
    var r := e.reg(n);
    if Common(today.names, n) || Common(before.names, n) then name
    else if r != "" && (Common(today.regs, r) || Common(before.regs, r)) then r
    else HIDDEN
  }

  function OpenTwo(e: Env, t: Tracker, ts: int, k: nat, stored: int -> seq<(string, string)>): (u: Tracker)
    ensures DayOf(ts) in u.days && DayOf(ts) - 1 in u.days
  {
    Open(e, Open(e, SetK(t, k), DayOf(ts), stored), DayOf(ts) - 1, stored)
  }

  function Keep(e: Env, t: Tracker, name: string, ts: int, k: nat, stored: int -> seq<(string, string)>): (Tracker,
                string) {
    if name == "" || name == HIDDEN then (t, name)
    else
      var u := OpenTwo(e, t, ts, k, stored);
      (u, Decide(e, u.days[DayOf(ts)], u.days[DayOf(ts) - 1], name))
  }

  function Prune(t: Tracker, before: int): Tracker {
    t.(days := map day | day in t.days && day >= before :: t.days[day],
       seen := map day | day in t.seen && day >= before :: t.seen[day])
  }

  /** The end of a scrub pass: the keys of the days before the cutoff's are dropped, and the
      counts of the days before the day before it. */
  function Forget(t: Tracker, cutoff: int): Tracker {
    Prune(t, DayOf(cutoff) - 1).(ring := Drop(t.ring, DayOf(cutoff)))
  }

  /** A new process: the counts start over, and of the keys some are read back. */
  function Restart(t: Tracker, kept: map<int, nat>): Tracker {
    Tracker(0, map[], map[], Ring(map day | day in kept && kept[day] < t.ring.drawn :: kept[day], t.ring.drawn))
  }

  class DomainTracker {
    const env: Env
    const keyring: Keyring
    var k: nat
    var days: map<int, Day>
    ghost var seen: map<int, Seen>

    ghost function State(): Tracker
      reads this, keyring
    {
      Tracker(k, days, seen, keyring.State())
    }

    ghost predicate Valid() { keyring.mac == env.mac }

    constructor (env: Env, keyring: Keyring)
      requires keyring.mac == env.mac
      ensures State() == Tracker(0, map[], map[], keyring.State())
      ensures this.env == env && this.keyring == keyring && Valid()
    {
      this.env, this.keyring, k, days, seen := env, keyring, 0, map[], map[];
    }

    method AddTo(m: Table, key: string, dev: Dev) returns (n: Table)
      ensures n == Add(m, key, dev, k, env.cap)
    {
      n := m;
      if key !in n {
        if |n| >= env.cap { return; }
        n := n[key := SeenBy(false, [])];
      }
      var s := n[key];
      if s.common { return; }
      for i := 0 to |s.devs|
        invariant dev !in s.devs[..i]
      {
        if s.devs[i] == dev { return; }
      }
      assert s.devs[..|s.devs|] == s.devs;
      s := SeenBy(false, s.devs + [dev]);
      if |s.devs| >= k { s := SeenBy(true, []); }
      n := n[key := s];
    }

    method CountIn(d: Day, name: string, dev: Dev) returns (c: Day)
      ensures c == Count(env, d, Canonical(name), dev, k)
    {
      var names := AddTo(d.names, Canonical(name), dev);
      var regs := d.regs;
      var r := Registered(env, name);
      if r != "" { regs := AddTo(d.regs, r, dev); }
      return Day(names, regs);
    }

    method StartOver(k0: nat)
      modifies this
      ensures State() == SetK(old(State()), k0)
    {
      if k0 != k { k, days, seen := k0, map[], map[]; }
    }

    /** The pseudonym a client is counted by. */
    method Device(client: string, ts: int) returns (dev: Dev)
      requires Valid()
      modifies keyring
      ensures dev == DevOf(env, client, KeyOf(old(keyring.State()), DayOf(ts)))
      ensures keyring.State() == Named(old(keyring.State()), client, DayOf(ts))
    {
      dev := client;
      if !IsPseudonym(dev) { dev := keyring.Pseudonym(client, ts); }
    }

    method OpenDay(day: int, stored: int -> seq<(string, string)>)
      requires Valid()
      modifies this, keyring
      ensures State() == Open(env, old(State()), day, stored) && day in days
    {
      if day in days { return; }
      var d := Day(map[], map[]);
      ghost var sn := Seen({}, {});
      ghost var key := KeyOf(keyring.State(), day);
      var pairs := stored(day);
      for i := 0 to |pairs|
        invariant State() == old(State()).(ring := if AnyRaw(pairs[..i]) then Draw(old(keyring.State()), day)
                                                   else old(keyring.State()))
        invariant (d, sn) == Seeded(env, key, pairs[..i], k)
      {
        RawGrows(pairs, i);
        DayStart(day);
        var (name, client) := pairs[i];
        if name == "" || name == HIDDEN || client == "" { continue; }
        var dev := Device(client, day * DAY_MS);
        sn := CountSeen(env, sn, Canonical(name), dev);
        d := CountIn(d, name, dev);
      }
      assert pairs[..|pairs|] == pairs;
      days := days[day := d];
      seen := seen[day := sn];
    }

    method ObserveQuery(name: string, client: string, ts: int, k0: nat, stored: int -> seq<(string, string)>)
      requires Valid() && days.Keys == seen.Keys
      modifies this, keyring
      ensures State() == Observe(env, old(State()), name, client, ts, k0, stored)
    {
      if name == "" || name == HIDDEN || client == "" { return; }
      var dev := Device(client, ts);
      StartOver(k0);
      var day := DayOf(ts);
      OpenDay(day, stored);
      var d := CountIn(days[day], name, dev);
      days := days[day := d];
      seen := seen[day := CountSeen(env, seen[day], Canonical(name), dev)];
    }

    method KeepName(name: string, ts: int, k0: nat, stored: int -> seq<(string, string)>) returns (out: string)
      requires Valid()
      modifies this, keyring
      ensures (State(), out) == Keep(env, old(State()), name, ts, k0, stored)
    {
      if name == "" || name == HIDDEN { return name; }
      StartOver(k0);
      var day := DayOf(ts);
      OpenDay(day, stored);
      OpenDay(day - 1, stored);
      var today, before := days[day], days[day - 1];
      var n := Canonical(name);
      if Common(today.names, n) || Common(before.names, n) { return name; }
      var r := Registered(env, name);
      if r != "" && (Common(today.regs, r) || Common(before.regs, r)) { return r; }
      return HIDDEN;
    }

    method PruneDays(before: int)
      modifies this
      ensures State() == Prune(old(State()), before)
    {
      days := map day | day in days && day >= before :: days[day];
      seen := map day | day in seen && day >= before :: seen[day];
    }

    /** The last statements of a scrub pass but for its recorded values. */
    method ForgetBefore(cutoff: int)
      modifies this, keyring
      ensures State() == Forget(old(State()), cutoff)
    {
      keyring.Prune(cutoff);
      PruneDays(DayOf(cutoff) - 1);
    }
  }

  lemma RawGrows(pairs: seq<(string, string)>, i: nat)
    requires i < |pairs|
    ensures pairs[..i + 1][..i] == pairs[..i]
    ensures AnyRaw(pairs[..i + 1]) <==>
            AnyRaw(pairs[..i]) || (Countable(pairs[i].0, pairs[i].1) && !IsPseudonym(pairs[i].1))
  {
    assert pairs[..i + 1] == pairs[..i] + [pairs[i]];
  }

  lemma DayStart(day: int)
    ensures DayOf(day * DAY_MS) == day
  {
  }

  // ---------------------------------------------------------------- every history

  ghost predicate Fine(e: Env, t: Tracker) {
    && t.days.Keys == t.seen.Keys
    && (t.k == 0 ==> t.days == map[])
    && RingFine(t.ring)
    && forall day <- t.days :: DayFine(e, t.days[day], t.seen[day], t.k)
  }

  lemma {:induction false} SeededIsFine(e: Env, key: nat, pairs: seq<(string, string)>, k: nat)
    requires k > 0
    ensures DayFine(e, Seeded(e, key, pairs, k).0, Seeded(e, key, pairs, k).1, k)
  {
    if pairs != [] {
      var r := Seeded(e, key, pairs[..|pairs| - 1], k);
      var p := pairs[|pairs| - 1];
      SeededIsFine(e, key, pairs[..|pairs| - 1], k);
      if Countable(p.0, p.1) { CountKeepsDay(e, r.0, r.1, Canonical(p.0), DevOf(e, p.1, key), k); }
    }
  }

  lemma OpenKeepsFine(e: Env, t: Tracker, day: int, stored: int -> seq<(string, string)>)
    requires Fine(e, t) && t.k > 0
    ensures Fine(e, Open(e, t, day, stored)) && day in Open(e, t, day, stored).days
    ensures Open(e, t, day, stored).k == t.k
  {
    SeededIsFine(e, KeyOf(t.ring, day), stored(day), t.k);
  }

  /** One thing that happens to the tracker. A pass may end between naming a query's client
      and counting it: that is a `Renamed`, and a `Saw` of the pseudonym afterwards. */
  datatype Op =
    | Saw(name: string, client: string, ts: int, k: nat)
    | Asked(name: string, ts: int, k: nat)
    | Renamed(client: string, day: int)   // a stored client is given its pseudonym
    | Scrubbed(cutoff: int)
    | Restarted(kept: map<int, nat>)

  function Do(e: Env, t: Tracker, op: Op, stored: int -> seq<(string, string)>): Tracker {
    match op
    case Saw(name, client, ts, k) => Observe(e, t, name, client, ts, k, stored)
    case Asked(name, ts, k) => Keep(e, t, name, ts, k, stored).0
    case Renamed(client, day) => t.(ring := Named(t.ring, client, day))
    case Scrubbed(cutoff) => Forget(t, cutoff)
    case Restarted(kept) => Restart(t, kept)
  }

  /** The threshold is at least 2 wherever the tracker is used (`Policy.rareOnly`). */
  predicate Normal(op: Op) { op.Saw? || op.Asked? ==> op.k >= 2 }

  lemma ObserveKeepsFine(e: Env, t: Tracker, name: string, client: string, ts: int, k: nat,
                         stored: int -> seq<(string, string)>)
    requires Fine(e, t) && k > 0
    ensures Fine(e, Observe(e, t, name, client, ts, k, stored))
  {
    if Countable(name, client) {
      var day := DayOf(ts);
      var s := SetK(t.(ring := Named(t.ring, client, day)), k);
      OpenKeepsFine(e, s, day, stored);
      var u := Open(e, s, day, stored);
      CountKeepsDay(e, u.days[day], u.seen[day], Canonical(name), DevOf(e, client, KeyOf(t.ring, day)), k);
    }
  }

  lemma DoKeepsFine(e: Env, t: Tracker, op: Op, stored: int -> seq<(string, string)>)
    requires Fine(e, t) && Normal(op)
    ensures Fine(e, Do(e, t, op, stored))
  {
    match op
    case Saw(name, client, ts, k) => ObserveKeepsFine(e, t, name, client, ts, k, stored);
    case Asked(name, ts, k) =>
      OpenKeepsFine(e, SetK(t, k), DayOf(ts), stored);
      OpenKeepsFine(e, Open(e, SetK(t, k), DayOf(ts), stored), DayOf(ts) - 1, stored);
    case Renamed(_, _) =>
    case Scrubbed(_) =>
    case Restarted(_) =>
  }

  /** A history: what happened, and what the store held at the time. */
  type History = seq<(Op, int -> seq<(string, string)>)>

  ghost predicate NormalHistory(h: History) { forall x <- h :: Normal(x.0) }

  function Replay(e: Env, t: Tracker, h: History): Tracker {
    if h == [] then t else Do(e, Replay(e, t, h[..|h| - 1]), h[|h| - 1].0, h[|h| - 1].1)
  }

  lemma {:induction false} EveryHistory(e: Env, h: History)
    requires NormalHistory(h)
    ensures Fine(e, Replay(e, NEW, h))
  {
    if h != [] {
      EveryHistory(e, h[..|h| - 1]);
      assert h[|h| - 1] in h;
      DoKeepsFine(e, Replay(e, NEW, h[..|h| - 1]), h[|h| - 1].0, h[|h| - 1].1);
    }
  }

  // ---------------------------------------------------------------- one pseudonym a device

  /** The device behind a pseudonym. */
  ghost function Person(e: Env, dev: Dev): string { e.mac.source(dev).1 }

  ghost function Persons(e: Env, devs: set<Dev>): set<string> { set d | d in devs :: Person(e, d) }

  ghost predicate UnderKey(e: Env, dev: Dev, key: nat) { dev == e.mac.pseud(key, Person(e, dev)) }

  ghost predicate OneKey(e: Env, s: Seen, key: nat) {
    (forall p <- s.names :: UnderKey(e, p.1, key)) && (forall p <- s.regs :: UnderKey(e, p.1, key))
  }

  ghost predicate SomeKey(e: Env, s: Seen) { exists key: nat :: OneKey(e, s, key) }

  /** A day's counts are under one key, the one held if there is one. */
  ghost predicate DayKeyed(e: Env, s: Seen, r: Ring, day: int) {
    if day in r.keys then OneKey(e, s, r.keys[day]) else SomeKey(e, s)
  }

  ghost predicate Keyed(e: Env, t: Tracker) { forall day <- t.seen :: DayKeyed(e, t.seen[day], t.ring, day) }

  /** The counts of a day outlived its key. */
  predicate KeyGone(t: Tracker, day: int) {
    day in t.seen && day !in t.ring.keys && t.seen[day] != Seen({}, {})
  }

  ghost predicate PairsUnder(e: Env, pairs: seq<(string, string)>, key: nat) {
    forall p <- pairs :: Countable(p.0, p.1) && IsPseudonym(p.1) ==> UnderKey(e, p.1, key)
  }

  ghost predicate PairsUnderSome(e: Env, pairs: seq<(string, string)>) { exists key: nat :: PairsUnder(e, pairs, key) }

  /** What the store holds for a day is under one key, together with what it would be
      given now. */
  ghost predicate SeedKeyed(e: Env, r: Ring, day: int, pairs: seq<(string, string)>) {
    if day in r.keys || AnyRaw(pairs) then PairsUnder(e, pairs, KeyOf(r, day)) else PairsUnderSome(e, pairs)
  }

  ghost predicate OpensKeyed(e: Env, t: Tracker, day: int, stored: int -> seq<(string, string)>) {
    day in t.days || SeedKeyed(e, t.ring, day, stored(day))
  }

  /** The op names nobody by a second key: no key is drawn for a day whose counts outlived
      theirs, and pseudonyms that come in or were stored are under the day's key. */
  ghost predicate Clean(e: Env, t: Tracker, op: Op, stored: int -> seq<(string, string)>) {
    match op
    case Saw(name, client, ts, k) =>
      Countable(name, client) ==>
        var day := DayOf(ts);
        var s := SetK(t.(ring := Named(t.ring, client, day)), k);
        && OpensKeyed(e, s, day, stored)
        && !KeyGone(SetK(t, k), day)
        && (IsPseudonym(client) ==> day in t.ring.keys && UnderKey(e, client, t.ring.keys[day]))
    case Asked(name, ts, k) =>
      name != "" && name != HIDDEN ==>
        && OpensKeyed(e, SetK(t, k), DayOf(ts), stored)
        && OpensKeyed(e, Open(e, SetK(t, k), DayOf(ts), stored), DayOf(ts) - 1, stored)
    case Renamed(client, day) => !KeyGone(t, day)
    case Scrubbed(_) => true
    case Restarted(_) => true
  }

  lemma {:induction false} SeededUnderKey(e: Env, key: nat, pairs: seq<(string, string)>, k: nat, under: nat)
    requires CollisionFree(e.mac) && PairsUnder(e, pairs, under) && (AnyRaw(pairs) ==> under == key)
    ensures OneKey(e, Seeded(e, key, pairs, k).1, under)
  {
    if pairs != [] {
      var rest, p := pairs[..|pairs| - 1], pairs[|pairs| - 1];
      assert pairs == rest + [p];
      SeededUnderKey(e, key, rest, k, under);
    }
  }

  lemma OpenKeepsKeyed(e: Env, t: Tracker, day: int, stored: int -> seq<(string, string)>)
    requires CollisionFree(e.mac) && t.days.Keys == t.seen.Keys
    requires Keyed(e, t) && OpensKeyed(e, t, day, stored)
    ensures Keyed(e, Open(e, t, day, stored))
  {
    if day !in t.days {
      var pairs, key := stored(day), KeyOf(t.ring, day);
      var u := Open(e, t, day, stored);
      if day in t.ring.keys || AnyRaw(pairs) {
        SeededUnderKey(e, key, pairs, t.k, key);
      } else {
        var under: nat :| PairsUnder(e, pairs, under);
        SeededUnderKey(e, key, pairs, t.k, under);
      }
      assert DayKeyed(e, u.seen[day], u.ring, day);
      forall other <- u.seen ensures DayKeyed(e, u.seen[other], u.ring, other) {
        if other != day { assert DayKeyed(e, t.seen[other], t.ring, other); }
      }
    }
  }

  /** Drawing a key for a day keeps its counts under one key unless they outlived theirs. */
  lemma NamedKeepsKeyed(e: Env, t: Tracker, client: string, day: int)
    requires Keyed(e, t) && !KeyGone(t, day)
    ensures Keyed(e, t.(ring := Named(t.ring, client, day)))
  {
    var r := Named(t.ring, client, day);
    forall other <- t.seen ensures DayKeyed(e, t.seen[other], r, other) {
      assert DayKeyed(e, t.seen[other], t.ring, other);
    }
  }

  lemma CountKeepsKeyed(e: Env, t: Tracker, day: int, n: string, dev: Dev)
    requires Keyed(e, t) && day in t.days && day in t.seen
    requires day in t.ring.keys && UnderKey(e, dev, t.ring.keys[day])
    ensures Keyed(e, CountOn(e, t, day, n, dev))
  {
    var u := CountOn(e, t, day, n, dev);
    assert DayKeyed(e, t.seen[day], t.ring, day);
    forall other <- u.seen ensures DayKeyed(e, u.seen[other], u.ring, other) {
      if other != day { assert DayKeyed(e, t.seen[other], t.ring, other); }
    }
  }

  lemma ForgetKeepsKeyed(e: Env, t: Tracker, cutoff: int)
    requires Keyed(e, t)
    ensures Keyed(e, Forget(t, cutoff))
  {
    var u := Forget(t, cutoff);
    forall day <- u.seen ensures DayKeyed(e, u.seen[day], u.ring, day) {
      assert DayKeyed(e, t.seen[day], t.ring, day);
    }
  }

  lemma ObserveKeepsKeyed(e: Env, t: Tracker, name: string, client: string, ts: int, k: nat,
                          stored: int -> seq<(string, string)>)
    requires CollisionFree(e.mac) && t.days.Keys == t.seen.Keys && Keyed(e, t)
    requires Countable(name, client) && Clean(e, t, Saw(name, client, ts, k), stored)
    ensures Keyed(e, Observe(e, t, name, client, ts, k, stored))
  {
    var day := DayOf(ts);
    assert SetK(t, k).(ring := Named(t.ring, client, day)) == SetK(t.(ring := Named(t.ring, client, day)), k);
    NamedKeepsKeyed(e, SetK(t, k), client, day);
    var s := SetK(t.(ring := Named(t.ring, client, day)), k);
    OpenKeepsKeyed(e, s, day, stored);
    var u := Open(e, s, day, stored);
    CountKeepsKeyed(e, u, day, Canonical(name), DevOf(e, client, KeyOf(t.ring, day)));
  }

  lemma DoKeepsKeyed(e: Env, t: Tracker, op: Op, stored: int -> seq<(string, string)>)
    requires CollisionFree(e.mac) && Fine(e, t) && Keyed(e, t) && Normal(op) && Clean(e, t, op, stored)
    ensures Keyed(e, Do(e, t, op, stored))
  {
    match op
    case Saw(name, client, ts, k) =>
      if Countable(name, client) { ObserveKeepsKeyed(e, t, name, client, ts, k, stored); }
    case Asked(name, ts, k) =>
      if name != "" && name != HIDDEN {
        OpenKeepsKeyed(e, SetK(t, k), DayOf(ts), stored);
        OpenKeepsKeyed(e, Open(e, SetK(t, k), DayOf(ts), stored), DayOf(ts) - 1, stored);
      }
    case Renamed(client, day) => NamedKeepsKeyed(e, t, client, day);
    case Scrubbed(cutoff) => ForgetKeepsKeyed(e, t, cutoff);
    case Restarted(_) =>
  }

  ghost predicate CleanHistory(e: Env, t: Tracker, h: History) {
    h == [] || (var was := h[..|h| - 1];
                CleanHistory(e, t, was) && Clean(e, Replay(e, t, was), h[|h| - 1].0, h[|h| - 1].1))
  }

  lemma {:induction false} CleanStaysKeyed(e: Env, h: History)
    requires CollisionFree(e.mac) && NormalHistory(h) && CleanHistory(e, NEW, h)
    ensures Keyed(e, Replay(e, NEW, h))
  {
    if h != [] {
      CleanStaysKeyed(e, h[..|h| - 1]);
      EveryHistory(e, h[..|h| - 1]);
      assert h[|h| - 1] in h;
      DoKeepsKeyed(e, Replay(e, NEW, h[..|h| - 1]), h[|h| - 1].0, h[|h| - 1].1);
    }
  }

  /** Under one key as many devices as pseudonyms. */
  lemma {:induction false} OnePseudonymEach(e: Env, devs: set<Dev>, key: nat)
    requires forall d <- devs :: UnderKey(e, d, key)
    ensures |Persons(e, devs)| == |devs|
    decreases |devs|
  {
    if devs != {} {
      var d :| d in devs;
      OnePseudonymEach(e, devs - {d}, key);
      assert Persons(e, devs) == Persons(e, devs - {d}) + {Person(e, d)};
      assert Person(e, d) !in Persons(e, devs - {d});
    } else {
      assert Persons(e, devs) == {};
    }
  }

  lemma DevsUnderKey(e: Env, seen: set<(string, Dev)>, n: string, key: nat)
    requires forall p <- seen :: UnderKey(e, p.1, key)
    ensures forall d <- Devs(seen, n) :: UnderKey(e, d, key)
  {
    forall d <- Devs(seen, n) ensures UnderKey(e, d, key) {
      var p :| p in seen && p.0 == n && p.1 == d;
    }
  }

  lemma OnePseudonymEachName(e: Env, s: Seen, r: Ring, day: int, n: string)
    requires DayKeyed(e, s, r, day)
    ensures |Persons(e, Devs(s.names, n))| == |Devs(s.names, n)|
    ensures |Persons(e, Devs(s.regs, n))| == |Devs(s.regs, n)|
  {
    var key: nat :| OneKey(e, s, key);
    assert OneKey(e, s, key);
    DevsUnderKey(e, s.names, n, key);
    DevsUnderKey(e, s.regs, n, key);
    OnePseudonymEach(e, Devs(s.names, n), key);
    OnePseudonymEach(e, Devs(s.regs, n), key);
  }

  /** k devices were counted for the name, that day or the day before. */
  ghost predicate SharedName(e: Env, t: Tracker, ts: int, n: string, k: nat)
    requires DayOf(ts) in t.seen && DayOf(ts) - 1 in t.seen
  {
    || |Persons(e, Devs(t.seen[DayOf(ts)].names, n))| >= k
    || |Persons(e, Devs(t.seen[DayOf(ts) - 1].names, n))| >= k
  }

  ghost predicate SharedDomain(e: Env, t: Tracker, ts: int, r: string, k: nat)
    requires DayOf(ts) in t.seen && DayOf(ts) - 1 in t.seen
  {
    || |Persons(e, Devs(t.seen[DayOf(ts)].regs, r))| >= k
    || |Persons(e, Devs(t.seen[DayOf(ts) - 1].regs, r))| >= k
  }

  ghost predicate BelowCap(e: Env, d: Day) { |d.names| < e.cap && |d.regs| < e.cap }

  /** `keep` after any clean history: a name is stored only if k devices shared it, its
      registered domain only if k devices shared that; below the table cap the converse
      holds too, so the answer is determined by the devices. */
  lemma KeepIsAnonymous(e: Env, h: History, name: string, ts: int, k: nat, stored: int -> seq<(string, string)>)
    requires CollisionFree(e.mac) && NormalHistory(h) && k >= 2 && name != "" && name != HIDDEN
    requires CleanHistory(e, NEW, h) && Clean(e, Replay(e, NEW, h), Asked(name, ts, k), stored)
    ensures var r := Keep(e, Replay(e, NEW, h), name, ts, k, stored);
            var t, out, n, reg := r.0, r.1, Canonical(name), Registered(e, name);
            && DayOf(ts) in t.seen && DayOf(ts) - 1 in t.seen
            && (|| (out == name && SharedName(e, t, ts, n, k))
                || (out == reg && reg != "" && SharedDomain(e, t, ts, reg, k))
                || out == HIDDEN)
            && (BelowCap(e, t.days[DayOf(ts)]) && BelowCap(e, t.days[DayOf(ts) - 1]) ==>
                  out == if SharedName(e, t, ts, n, k) then name
                         else if reg != "" && SharedDomain(e, t, ts, reg, k) then reg
                         else HIDDEN)
  {
    EveryHistory(e, h);
    CleanStaysKeyed(e, h);
    var was := Replay(e, NEW, h);
    DoKeepsFine(e, was, Asked(name, ts, k), stored);
    DoKeepsKeyed(e, was, Asked(name, ts, k), stored);
    var t := Keep(e, was, name, ts, k, stored).0;
    DayCounts(e, t, DayOf(ts), Canonical(name), k);
    DayCounts(e, t, DayOf(ts) - 1, Canonical(name), k);
    DayCounts(e, t, DayOf(ts), Registered(e, name), k);
    DayCounts(e, t, DayOf(ts) - 1, Registered(e, name), k);
  }

  /** What is common on a day whose counts are under one key, in terms of devices. */
  lemma DayCounts(e: Env, t: Tracker, day: int, n: string, k: nat)
    requires Fine(e, t) && Keyed(e, t) && day in t.days && t.k == k > 0
    ensures day in t.seen
    ensures var c := |Persons(e, Devs(t.seen[day].names, n))|;
            (Common(t.days[day].names, n) ==> c >= k)
            && (BelowCap(e, t.days[day]) ==> (Common(t.days[day].names, n) <==> c >= k))
    ensures var c := |Persons(e, Devs(t.seen[day].regs, n))|;
            (Common(t.days[day].regs, n) ==> c >= k)
            && (BelowCap(e, t.days[day]) ==> (Common(t.days[day].regs, n) <==> c >= k))
  {
    assert day in t.seen.Keys;
    assert DayKeyed(e, t.seen[day], t.ring, day);
    OnePseudonymEachName(e, t.seen[day], t.ring, day, n);
    CommonMeansShared(t.days[day].names, t.seen[day].names, n, k, e.cap);
    CommonMeansShared(t.days[day].regs, t.seen[day].regs, n, k, e.cap);
  }

  // ---------------------------------------------------------------- a device counted twice

  ghost predicate CountedAs(t: Tracker, day: int, n: string, dev: Dev) {
    day in t.seen && day in t.days && dev in Devs(t.seen[day].names, n)
  }

  /** One device counts for a name under two pseudonyms. */
  ghost predicate Twice(e: Env, t: Tracker, day: int, n: string, client: string) {
    exists a, b :: a != b && CountedAs(t, day, n, a) && CountedAs(t, day, n, b)
                   && Person(e, a) == client == Person(e, b)
  }

  /** The op leaves the counts of the day in place. */
  predicate KeepsCounts(op: Op, day: int, k: nat) {
    match op
    case Saw(name, client, _, k0) => !Countable(name, client) || k0 == k
    case Asked(name, _, k0) => name == "" || name == HIDDEN || k0 == k
    case Renamed(_, _) => true
    case Scrubbed(cutoff) => DayOf(cutoff) - 1 <= day
    case Restarted(_) => false
  }

  ghost predicate KeepCounts(h: History, day: int, k: nat) { forall x <- h :: KeepsCounts(x.0, day, k) }

  predicate DropsKey(op: Op, day: int) { op.Scrubbed? && day < DayOf(op.cutoff) }

  ghost predicate KeyDropped(h: History, day: int) { exists x <- h :: DropsKey(x.0, day) }

  /** The device's query of the name comes in under a pseudonym other than `dev`. */
  ghost predicate Reports(e: Env, op: Op, day: int, n: string, dev: Dev) {
    op.Saw? && Countable(op.name, op.client) && IsPseudonym(op.client) && op.client != dev
    && Person(e, op.client) == Person(e, dev) && DayOf(op.ts) == day && Canonical(op.name) == n
  }

  ghost predicate ReportedOtherwise(e: Env, h: History, day: int, n: string, dev: Dev) {
    exists x <- h :: Reports(e, x.0, day, n, dev)
  }

  /** The device is counted under `key`; `dropped` and `other` say whether the key was
      dropped since and whether another pseudonym of the device came in. */
  ghost predicate Follows(e: Env, t: Tracker, day: int, n: string, client: string, key: nat, k: nat,
                          dropped: bool, other: bool)
  {
    var dev := e.mac.pseud(key, client);
    && t.k == k && day in t.days && RingFine(t.ring) && t.days.Keys == t.seen.Keys
    && key < t.ring.drawn && CountedAs(t, day, n, dev)
    && (!dropped ==> day in t.ring.keys && t.ring.keys[day] == key)
    && (dropped && day in t.ring.keys ==> t.ring.keys[day] != key)
    && (other ==> Twice(e, t, day, n, client))
    && (!dropped && !other ==> forall d :: CountedAs(t, day, n, d) && Person(e, d) == client ==> d == dev)
  }

  /** A day's record changes by the op only as far as its own query goes. */
  lemma CountedAfterSaw(e: Env, t: Tracker, name: string, client: string, ts: int, k: nat,
                        stored: int -> seq<(string, string)>, day: int, n: string, dev: Dev)
    requires t.days.Keys == t.seen.Keys && day in t.days && Countable(name, client) && t.k == k
    ensures var u := Observe(e, t, name, client, ts, k, stored);
            && u.k == k && day in u.days && u.days.Keys == u.seen.Keys
            && (CountedAs(u, day, n, dev) <==>
                  || CountedAs(t, day, n, dev)
                  || (DayOf(ts) == day && Canonical(name) == n
                      && dev == DevOf(e, client, KeyOf(t.ring, day))))
  {
    var here := DayOf(ts);
    var u := Open(e, SetK(t.(ring := Named(t.ring, client, here)), k), here, stored);
    DevsAdded(u.seen[here].names, Canonical(name), DevOf(e, client, KeyOf(t.ring, here)));
  }

  lemma CountedAfterOther(e: Env, t: Tracker, op: Op, stored: int -> seq<(string, string)>, day: int, n: string,
                          dev: Dev)
    requires t.days.Keys == t.seen.Keys && day in t.days && KeepsCounts(op, day, t.k)
    requires !op.Saw? || !Countable(op.name, op.client)
    ensures var u := Do(e, t, op, stored);
            && u.k == t.k && day in u.days && u.days.Keys == u.seen.Keys
            && (CountedAs(u, day, n, dev) <==> CountedAs(t, day, n, dev))
  {
  }

  /** Keys stay, and one drawn since has a new number. */
  predicate RingGrew(r: Ring, s: Ring, day: int) {
    && RingFine(s) && s.drawn >= r.drawn
    && (if day in r.keys then day in s.keys && s.keys[day] == r.keys[day]
        else day in s.keys ==> s.keys[day] >= r.drawn)
  }

  lemma OpenGrewRing(e: Env, t: Tracker, on: int, stored: int -> seq<(string, string)>, day: int)
    requires RingFine(t.ring)
    ensures RingGrew(t.ring, Open(e, t, on, stored).ring, day)
  {
  }

  lemma ObserveGrewRing(e: Env, t: Tracker, name: string, client: string, ts: int, k: nat,
                        stored: int -> seq<(string, string)>, day: int)
    requires RingFine(t.ring)
    ensures RingGrew(t.ring, Observe(e, t, name, client, ts, k, stored).ring, day)
    ensures Countable(name, client) && !IsPseudonym(client) ==>
              var r := Observe(e, t, name, client, ts, k, stored).ring;
              DayOf(ts) in r.keys && r.keys[DayOf(ts)] == KeyOf(t.ring, DayOf(ts)) < r.drawn
  {
    if Countable(name, client) {
      var s := SetK(t.(ring := Named(t.ring, client, DayOf(ts))), k);
      OpenGrewRing(e, s, DayOf(ts), stored, day);
      OpenGrewRing(e, s, DayOf(ts), stored, DayOf(ts));
    }
  }

  lemma RingAfter(e: Env, t: Tracker, op: Op, stored: int -> seq<(string, string)>, day: int)
    requires RingFine(t.ring) && !op.Restarted?
    ensures var r := Do(e, t, op, stored).ring;
            if DropsKey(op, day) then RingFine(r) && r.drawn == t.ring.drawn && day !in r.keys
            else RingGrew(t.ring, r, day)
  {
    match op
    case Saw(name, client, ts, k) => ObserveGrewRing(e, t, name, client, ts, k, stored, day);
    case Asked(name, ts, k) =>
      OpenGrewRing(e, SetK(t, k), DayOf(ts), stored, day);
      OpenGrewRing(e, Open(e, SetK(t, k), DayOf(ts), stored), DayOf(ts) - 1, stored, day);
    case Renamed(_, _) =>
    case Scrubbed(_) =>
  }

  /** The key behind a device's pseudonym now. */
  lemma SawOwnKey(e: Env, t: Tracker, client: string, key: nat, day: int)
    requires CollisionFree(e.mac) && !IsPseudonym(client)
    ensures var dev := DevOf(e, client, KeyOf(t.ring, day));
            Person(e, dev) == client && (dev == e.mac.pseud(key, client) <==> KeyOf(t.ring, day) == key)
  {
    assert e.mac.source(e.mac.pseud(key, client)) == (key, client);
    assert e.mac.source(e.mac.pseud(KeyOf(t.ring, day), client)) == (KeyOf(t.ring, day), client);
  }

  lemma SawFollows(e: Env, t: Tracker, op: Op, stored: int -> seq<(string, string)>, day: int, n: string,
                   client: string, key: nat, dropped: bool, other: bool)
    requires CollisionFree(e.mac) && Follows(e, t, day, n, client, key, t.k, dropped, other)
    requires KeepsCounts(op, day, t.k) && op.Saw? && Countable(op.name, op.client)
    ensures Follows(e, Do(e, t, op, stored), day, n, client, key, t.k, dropped,
                    other || Reports(e, op, day, n, e.mac.pseud(key, client)))
  {
    var u := Do(e, t, op, stored);
    var dev := e.mac.pseud(key, client);
    var named := DevOf(e, op.client, KeyOf(t.ring, DayOf(op.ts)));
    assert e.mac.source(dev) == (key, client);
    RingAfter(e, t, op, stored, day);
    forall d ensures CountedAs(u, day, n, d) <==>
                     CountedAs(t, day, n, d) || (DayOf(op.ts) == day && Canonical(op.name) == n && d == named)
    {
      CountedAfterSaw(e, t, op.name, op.client, op.ts, op.k, stored, day, n, d);
    }
    CountedAfterSaw(e, t, op.name, op.client, op.ts, op.k, stored, day, n, dev);
    if !IsPseudonym(op.client) { SawOwnKey(e, t, op.client, key, DayOf(op.ts)); }
    if other || Reports(e, op, day, n, dev) {
      assert Twice(e, u, day, n, client);
    }
  }

  lemma OtherFollows(e: Env, t: Tracker, op: Op, stored: int -> seq<(string, string)>, day: int, n: string,
                     client: string, key: nat, dropped: bool, other: bool)
    requires CollisionFree(e.mac) && Follows(e, t, day, n, client, key, t.k, dropped, other)
    requires KeepsCounts(op, day, t.k) && (!op.Saw? || !Countable(op.name, op.client))
    ensures Follows(e, Do(e, t, op, stored), day, n, client, key, t.k, dropped || DropsKey(op, day), other)
  {
    var u := Do(e, t, op, stored);
    RingAfter(e, t, op, stored, day);
    CountedAfterOther(e, t, op, stored, day, n, e.mac.pseud(key, client));
    forall d ensures CountedAs(u, day, n, d) <==> CountedAs(t, day, n, d) {
      CountedAfterOther(e, t, op, stored, day, n, d);
    }
  }

  lemma {:induction false} RunFollows(e: Env, t: Tracker, h: History, day: int, n: string, client: string, key: nat,
                                      k: nat)
    requires CollisionFree(e.mac) && Follows(e, t, day, n, client, key, k, false, false)
    requires KeepCounts(h, day, k)
    ensures Follows(e, Replay(e, t, h), day, n, client, key, k, KeyDropped(h, day),
                    ReportedOtherwise(e, h, day, n, e.mac.pseud(key, client)))
  {
    if h != [] {
      var was, x := h[..|h| - 1], h[|h| - 1];
      assert h == was + [x];
      var dev := e.mac.pseud(key, client);
      assert KeyDropped(h, day) <==> KeyDropped(was, day) || DropsKey(x.0, day);
      assert ReportedOtherwise(e, h, day, n, dev) <==>
             ReportedOtherwise(e, was, day, n, dev) || Reports(e, x.0, day, n, dev);
      RunFollows(e, t, was, day, n, client, key, k);
      var s, d, o := Replay(e, t, was), KeyDropped(was, day), ReportedOtherwise(e, was, day, n, dev);
      if x.0.Saw? && Countable(x.0.name, x.0.client) {
        SawFollows(e, s, x.0, x.1, day, n, client, key, d, o);
      } else {
        OtherFollows(e, s, x.0, x.1, day, n, client, key, d, o);
      }
    }
  }

  /** A device is counted for a name; then anything happens that leaves the counts of the day
      in place; then it asks for the name again. It counts twice exactly if the day's key was
      dropped in between, or its query came in under another pseudonym. */
  lemma CountedTwiceIff(e: Env, t: Tracker, name: string, client: string, ts: int, k: nat, h: History, late: int,
                        stored: int -> seq<(string, string)>, storedLate: int -> seq<(string, string)>)
    requires CollisionFree(e.mac) && Countable(name, client) && !IsPseudonym(client) && DayOf(late) == DayOf(ts)
    requires RingFine(t.ring) && t.days.Keys == t.seen.Keys && KeepCounts(h, DayOf(ts), k)
    requires !Twice(e, Observe(e, t, name, client, ts, k, stored), DayOf(ts), Canonical(name), client)
    ensures var first := Observe(e, t, name, client, ts, k, stored);
            var again := Observe(e, Replay(e, first, h), name, client, late, k, storedLate);
            Twice(e, again, DayOf(ts), Canonical(name), client) <==>
            || KeyDropped(h, DayOf(ts))
            || ReportedOtherwise(e, h, DayOf(ts), Canonical(name),
                                 e.mac.pseud(KeyOf(t.ring, DayOf(ts)), client))
  {
    var day, n := DayOf(ts), Canonical(name);
    var key := KeyOf(t.ring, day);
    var first := Observe(e, t, name, client, ts, k, stored);
    FirstFollows(e, t, name, client, ts, k, stored);
    RunFollows(e, first, h, day, n, client, key, k);
    var v := Replay(e, first, h);
    var op := Saw(name, client, late, k);
    var dropped := KeyDropped(h, day);
    var other := ReportedOtherwise(e, h, day, n, e.mac.pseud(key, client));
    SawFollows(e, v, op, storedLate, day, n, client, key, dropped, other);
    SawOwnKey(e, v, client, key, day);
    CountedAfterSaw(e, v, name, client, late, k, storedLate, day, n, DevOf(e, client, KeyOf(v.ring, day)));
    assert e.mac.source(e.mac.pseud(key, client)) == (key, client);
  }

  lemma FirstFollows(e: Env, t: Tracker, name: string, client: string, ts: int, k: nat,
                     stored: int -> seq<(string, string)>)
    requires CollisionFree(e.mac) && Countable(name, client) && !IsPseudonym(client)
    requires RingFine(t.ring) && t.days.Keys == t.seen.Keys
    requires !Twice(e, Observe(e, t, name, client, ts, k, stored), DayOf(ts), Canonical(name), client)
    ensures Follows(e, Observe(e, t, name, client, ts, k, stored), DayOf(ts), Canonical(name), client,
                    KeyOf(t.ring, DayOf(ts)), k, false, false)
  {
    var day, key, n := DayOf(ts), KeyOf(t.ring, DayOf(ts)), Canonical(name);
    var u := Observe(e, t, name, client, ts, k, stored);
    SawOwnKey(e, t, client, key, day);
    ObserveGrewRing(e, t, name, client, ts, k, stored, day);
    FirstCounted(e, t, name, client, ts, k, stored);
    assert CountedAs(u, day, n, e.mac.pseud(key, client));
  }

  lemma FirstCounted(e: Env, t: Tracker, name: string, client: string, ts: int, k: nat,
                     stored: int -> seq<(string, string)>)
    requires Countable(name, client) && t.days.Keys == t.seen.Keys
    ensures var u := Observe(e, t, name, client, ts, k, stored);
            && u.k == k && u.days.Keys == u.seen.Keys && DayOf(ts) in u.days
            && CountedAs(u, DayOf(ts), Canonical(name), DevOf(e, client, KeyOf(t.ring, DayOf(ts))))
  {
    var here := DayOf(ts);
    var u := Open(e, SetK(t.(ring := Named(t.ring, client, here)), k), here, stored);
    DevsAdded(u.seen[here].names, Canonical(name), DevOf(e, client, KeyOf(t.ring, here)));
  }

  /** A day on which one device asked for one name, and the store held nothing. */
  ghost predicate AskedOnce(e: Env, t: Tracker, day: int, n: string, dev: Dev) {
    && t.k == 2 && day in t.days && day in t.seen && t.seen[day].names == {(n, dev)}
    && n in t.days[day].names && t.days[day].names[n] == SeenBy(false, [dev])
    && (e.reg(n) in t.days[day].regs ==> t.days[day].regs[e.reg(n)] == SeenBy(false, [dev]))
  }

  lemma OpenNothing(e: Env, t: Tracker, day: int, stored: int -> seq<(string, string)>)
    requires day !in t.days && stored(day) == []
    ensures Open(e, t, day, stored) ==
            Tracker(t.k, t.days[day := Day(map[], map[])], t.seen[day := Seen({}, {})], t.ring)
  {
  }

  lemma CountFirst(e: Env, t: Tracker, day: int, n: string, dev: Dev)
    requires t.k == 2 && e.cap > 0 && day in t.days && t.days[day] == Day(map[], map[])
    requires day in t.seen && t.seen[day] == Seen({}, {})
    ensures AskedOnce(e, CountOn(e, t, day, n, dev), day, n, dev)
  {
    var none: Table := map[];
    assert |none| == 0;
  }

  lemma OnceSeen(e: Env, t: Tracker, name: string, client: string, ts: int, stored: int -> seq<(string, string)>)
    requires Countable(name, client) && !IsPseudonym(client) && e.cap > 0 && stored(DayOf(ts)) == [] && t.k == 0
    ensures var a := Observe(e, t, name, client, ts, 2, stored);
            && AskedOnce(e, a, DayOf(ts), Canonical(name), e.mac.pseud(KeyOf(t.ring, DayOf(ts)), client))
            && a.days.Keys == {DayOf(ts)} && a.ring == Draw(t.ring, DayOf(ts))
  {
    var day := DayOf(ts);
    var s := SetK(t.(ring := Named(t.ring, client, day)), 2);
    OpenNothing(e, s, day, stored);
    CountFirst(e, Open(e, s, day, stored), day, Canonical(name), e.mac.pseud(KeyOf(t.ring, day), client));
  }

  /** Such a name is hidden, and stays counted once. */
  lemma OnceIsHidden(e: Env, t: Tracker, name: string, ts: int, dev: Dev, stored: int -> seq<(string, string)>)
    requires AskedOnce(e, t, DayOf(ts), Canonical(name), dev) && DayOf(ts) - 1 !in t.days
    requires stored(DayOf(ts) - 1) == [] && name != "" && name != HIDDEN
    ensures var r := Keep(e, t, name, ts, 2, stored);
            r.1 == HIDDEN && AskedOnce(e, r.0, DayOf(ts), Canonical(name), dev) && r.0.ring == t.ring
  {
    OpenNothing(e, t, DayOf(ts) - 1, stored);
  }

  lemma SecondIsCommon(e: Env, t: Tracker, name: string, client: string, ts: int, dev: Dev,
                       stored: int -> seq<(string, string)>)
    requires Countable(name, client) && AskedOnce(e, t, DayOf(ts), Canonical(name), dev)
    requires DevOf(e, client, KeyOf(t.ring, DayOf(ts))) != dev
    ensures var u := Observe(e, t, name, client, ts, 2, stored);
            && DayOf(ts) in u.days && DayOf(ts) in u.seen && u.k == 2
            && Common(u.days[DayOf(ts)].names, Canonical(name))
            && u.seen[DayOf(ts)].names ==
               {(Canonical(name), dev), (Canonical(name), DevOf(e, client, KeyOf(t.ring, DayOf(ts))))}
  {
  }

  /** The pass after midnight leaves the counts and drops the key. */
  lemma MidnightForgets(e: Env, t: Tracker, cutoff: int, n: string, dev: Dev)
    requires AskedOnce(e, t, DayOf(cutoff) - 1, n, dev)
    ensures var u := Forget(t, cutoff);
            AskedOnce(e, u, DayOf(cutoff) - 1, n, dev) && KeyOf(u.ring, DayOf(cutoff) - 1) == t.ring.drawn
  {
  }

  lemma CommonIsKept(e: Env, t: Tracker, name: string, ts: int, stored: int -> seq<(string, string)>)
    requires t.k == 2 && DayOf(ts) in t.days && DayOf(ts) in t.seen && name != "" && name != HIDDEN
    requires Common(t.days[DayOf(ts)].names, Canonical(name))
    ensures var r := Keep(e, t, name, ts, 2, stored);
            r.1 == name && DayOf(ts) in r.0.seen && r.0.seen[DayOf(ts)] == t.seen[DayOf(ts)]
  {
  }

  lemma BothHis(e: Env, n: string, client: string, a: Dev, b: Dev)
    requires Person(e, a) == client == Person(e, b)
    ensures Persons(e, Devs({(n, a), (n, b)}, n)) == {client}
  {
    assert Devs({}, n) == {};
    DevsAdded({}, n, a);
    DevsAdded({(n, a)}, n, b);
    assert {} + {(n, a)} == {(n, a)} && {(n, a)} + {(n, b)} == {(n, a), (n, b)};
    assert Devs({(n, a), (n, b)}, n) == {a, b};
  }

  /** With k = 2 one device asks for a rare name, which is hidden; the pass after midnight
      drops the key of its day and not the counts; a second query of that day comes in late,
      and the name is stored, though nobody else ever asked. */
  lemma LateQueryRevealsName(e: Env, name: string, client: string, ts: int, late: int, cutoff: int,
                             stored: int -> seq<(string, string)>)
    requires CollisionFree(e.mac) && Countable(name, client) && !IsPseudonym(client) && e.cap > 0
    requires DayOf(ts) == DayOf(late) == DayOf(cutoff) - 1
    requires stored(DayOf(ts)) == [] && stored(DayOf(ts) - 1) == []
    ensures var noon := Keep(e, Observe(e, NEW, name, client, ts, 2, stored), name, ts, 2, stored);
            var after := Observe(e, Forget(noon.0, cutoff), name, client, late, 2, stored);
            var night := Keep(e, after, name, late, 2, stored);
            && noon.1 == HIDDEN && night.1 == name
            && DayOf(ts) in night.0.seen
            && Persons(e, Devs(night.0.seen[DayOf(ts)].names, Canonical(name))) == {client}
  {
    var n, d0, d1 := Canonical(name), e.mac.pseud(0, client), e.mac.pseud(1, client);
    assert e.mac.source(d0) == (0, client) && e.mac.source(d1) == (1, client);
    OnceSeen(e, NEW, name, client, ts, stored);
    var first := Observe(e, NEW, name, client, ts, 2, stored);
    assert first.ring == Draw(NEW.ring, DayOf(ts));
    OnceIsHidden(e, first, name, ts, d0, stored);
    var noon := Keep(e, first, name, ts, 2, stored);
    MidnightForgets(e, noon.0, cutoff, n, d0);
    SecondIsCommon(e, Forget(noon.0, cutoff), name, client, late, d0, stored);
    CommonIsKept(e, Observe(e, Forget(noon.0, cutoff), name, client, late, 2, stored), name, late, stored);
    BothHis(e, n, client, d0, d1);
  }

  // ---------------------------------------------------------------- deciding a decided name again

  /** The list of public suffixes gives canonical names that are their own registered domain. */
  ghost predicate Idempotent(e: Env) {
    forall n :: e.reg(n) != "" ==> Canonical(e.reg(n)) == e.reg(n) && e.reg(e.reg(n)) == e.reg(n)
  }

  /** At once: neither the name nor the counts change. */
  lemma KeepIsIdempotent(e: Env, t: Tracker, name: string, ts: int, k: nat, stored: int -> seq<(string, string)>)
    requires Idempotent(e)
    ensures var r := Keep(e, t, name, ts, k, stored);
            Keep(e, r.0, r.1, ts, k, stored) == r
  {
  }

  /** Whatever was common that day still is. */
  ghost predicate Grew(t: Tracker, u: Tracker, day: int) {
    && t.k == u.k && day in t.days && day in u.days
    && (forall key :: Common(t.days[day].names, key) ==> Common(u.days[day].names, key))
    && (forall key :: Common(t.days[day].regs, key) ==> Common(u.days[day].regs, key))
  }

  lemma CountGrows(e: Env, d: Day, n: string, dev: Dev, k: nat)
    ensures forall key :: Common(d.names, key) ==> Common(Count(e, d, n, dev, k).names, key)
    ensures forall key :: Common(d.regs, key) ==> Common(Count(e, d, n, dev, k).regs, key)
  {
  }

  lemma DoGrows(e: Env, t: Tracker, op: Op, stored: int -> seq<(string, string)>, day: int)
    requires day in t.days && KeepsCounts(op, day, t.k)
    ensures Grew(t, Do(e, t, op, stored), day)
  {
    if op.Saw? && Countable(op.name, op.client) {
      var here := DayOf(op.ts);
      var u := Open(e, SetK(t.(ring := Named(t.ring, op.client, here)), op.k), here, stored);
      if here in u.days {
        CountGrows(e, u.days[here], Canonical(op.name), DevOf(e, op.client, KeyOf(t.ring, here)), op.k);
      }
    }
  }

  lemma {:induction false} ReplayGrows(e: Env, t: Tracker, h: History, day: int)
    requires day in t.days && KeepCounts(h, day, t.k)
    ensures Grew(t, Replay(e, t, h), day)
  {
    if h != [] {
      var was, x := h[..|h| - 1], h[|h| - 1];
      assert h == was + [x];
      ReplayGrows(e, t, was, day);
      DoGrows(e, Replay(e, t, was), x.0, x.1, day);
    }
  }

  /** A decided name stays as it is in every later pass, as long as the counts of its day and
      of the day before are left in place. */
  lemma DecidedStays(e: Env, t: Tracker, name: string, ts: int, k: nat, h: History,
                     stored: int -> seq<(string, string)>, later: int -> seq<(string, string)>)
    requires Idempotent(e) && KeepCounts(h, DayOf(ts) - 1, k)
    ensures var r := Keep(e, t, name, ts, k, stored);
            Keep(e, Replay(e, r.0, h), r.1, ts, k, later).1 == r.1
  {
    if name != "" && name != HIDDEN {
      var u := OpenTwo(e, t, ts, k, stored);
      assert forall x <- h :: KeepsCounts(x.0, DayOf(ts) - 1, k) ==> KeepsCounts(x.0, DayOf(ts), k);
      ReplayGrows(e, u, h, DayOf(ts));
      ReplayGrows(e, u, h, DayOf(ts) - 1);
    }
  }

  /** What a day's counts hold once opened: the record so far, or what the store holds. */
  ghost function Found(e: Env, t: Tracker, day: int, stored: int -> seq<(string, string)>): Seen {
    if day in t.seen then t.seen[day] else StoredSeen(e, KeyOf(t.ring, day), stored(day))
  }

  /** The (name, device) and (registered domain, device) pairs among those stored. */
  ghost function StoredSeen(e: Env, key: nat, pairs: seq<(string, string)>): Seen {
    Seen(set p | p in pairs && Countable(p.0, p.1) :: (Canonical(p.0), DevOf(e, p.1, key)),
         set p | p in pairs && Countable(p.0, p.1) && Registered(e, p.0) != ""
              :: (Registered(e, p.0), DevOf(e, p.1, key)))
  }

  lemma {:induction false} SeededHolds(e: Env, key: nat, pairs: seq<(string, string)>, k: nat)
    ensures Seeded(e, key, pairs, k).1 == StoredSeen(e, key, pairs)
  {
    if pairs == [] {
      assert StoredSeen(e, key, pairs) == Seen({}, {});
    } else {
      var rest, p := pairs[..|pairs| - 1], pairs[|pairs| - 1];
      SeededHolds(e, key, rest, k);
      StoredGrows(e, key, rest, p);
      assert pairs == rest + [p];
    }
  }

  lemma StoredGrows(e: Env, key: nat, rest: seq<(string, string)>, p: (string, string))
    ensures StoredSeen(e, key, rest + [p]) ==
            if Countable(p.0, p.1) then CountSeen(e, StoredSeen(e, key, rest), Canonical(p.0), DevOf(e, p.1, key))
            else StoredSeen(e, key, rest)
  {
    var s, t := StoredSeen(e, key, rest), StoredSeen(e, key, rest + [p]);
    forall q | q in rest + [p] ensures q in rest || q == p {}
    assert forall q :: q in rest + [p] <==> q in rest || q == p;
    var dev := DevOf(e, p.1, key);
    if Countable(p.0, p.1) {
      assert t.names == s.names + {(Canonical(p.0), dev)};
      assert t.regs == if Registered(e, p.0) == "" then s.regs else s.regs + {(Registered(e, p.0), dev)};
    } else {
      assert t.names == s.names && t.regs == s.regs;
    }
  }

  lemma OpenFinds(e: Env, t: Tracker, day: int, stored: int -> seq<(string, string)>)
    requires t.days.Keys == t.seen.Keys
    ensures var u := Open(e, t, day, stored);
            u.days.Keys == u.seen.Keys && day in u.seen && u.seen[day] == Found(e, t, day, stored)
  {
    SeededHolds(e, KeyOf(t.ring, day), stored(day), t.k);
  }

  /** k pseudonyms for the name that day. */
  ghost predicate Shared(seen: set<(string, Dev)>, n: string, k: nat) { |Devs(seen, n)| >= k }

  lemma CommonIffShared(e: Env, t: Tracker, day: int, n: string)
    requires Fine(e, t) && day in t.days && BelowCap(e, t.days[day]) && t.k > 0
    ensures day in t.seen && CommonAsShared(t.days[day], t.seen[day], n, t.k)
  {
    CommonMeansShared(t.days[day].names, t.seen[day].names, n, t.k, e.cap);
    CommonMeansShared(t.days[day].regs, t.seen[day].regs, n, t.k, e.cap);
  }

  ghost predicate CommonAsShared(d: Day, s: Seen, n: string, k: nat) {
    && (Common(d.names, n) <==> Shared(s.names, n, k))
    && (Common(d.regs, n) <==> Shared(s.regs, n, k))
  }

  /** k pseudonyms for the name, or for its registered domain if it is one, on one of two days. */
  ghost predicate FoundShared(e: Env, now: Seen, before: Seen, name: string, k: nat) {
    || Shared(now.names, Canonical(name), k)
    || Shared(before.names, Canonical(name), k)
    || (Registered(e, name) == name && (Shared(now.regs, name, k) || Shared(before.regs, name, k)))
  }

  ghost predicate BothAsShared(e: Env, t: Tracker, ts: int, n: string, k: nat) {
    && DayOf(ts) in t.days && DayOf(ts) in t.seen
    && DayOf(ts) - 1 in t.days && DayOf(ts) - 1 in t.seen
    && CommonAsShared(t.days[DayOf(ts)], t.seen[DayOf(ts)], n, k)
    && CommonAsShared(t.days[DayOf(ts) - 1], t.seen[DayOf(ts) - 1], n, k)
  }

  /** The decision in terms of the pseudonyms counted on two open days. */
  lemma DecideReadsCounts(e: Env, t: Tracker, name: string, ts: int, k: nat)
    requires name != HIDDEN && name != ""
    requires BothAsShared(e, t, ts, Canonical(name), k) && BothAsShared(e, t, ts, Registered(e, name), k)
    ensures Decide(e, t.days[DayOf(ts)], t.days[DayOf(ts) - 1], name) == name <==>
            FoundShared(e, t.seen[DayOf(ts)], t.seen[DayOf(ts) - 1], name, k)
  {
  }

  lemma OpenTwoIsFine(e: Env, h: History, ts: int, k: nat, stored: int -> seq<(string, string)>)
    requires NormalHistory(h) && k >= 2
    ensures var u := OpenTwo(e, Replay(e, NEW, h), ts, k, stored);
            var s := SetK(Replay(e, NEW, h), k);
            && Fine(e, u) && u.k == k && DayOf(ts) in u.seen && DayOf(ts) - 1 in u.seen
            && u.seen[DayOf(ts)] == Found(e, s, DayOf(ts), stored)
            && u.seen[DayOf(ts) - 1] == Found(e, Open(e, s, DayOf(ts), stored), DayOf(ts) - 1, stored)
  {
    EveryHistory(e, h);
    var s := SetK(Replay(e, NEW, h), k);
    OpenKeepsFine(e, s, DayOf(ts), stored);
    OpenFinds(e, s, DayOf(ts), stored);
    var t := Open(e, s, DayOf(ts), stored);
    OpenKeepsFine(e, t, DayOf(ts) - 1, stored);
    OpenFinds(e, t, DayOf(ts) - 1, stored);
  }

  /** After any history, restarts included: a stored name is kept by a later pass exactly if
      k pseudonyms are found for it (or for its registered domain, if it is one) that day or
      the day before, in the counts if they are still there and else in what the store holds. */
  lemma KeptNameStaysIff(e: Env, h: History, name: string, ts: int, k: nat, stored: int -> seq<(string, string)>)
    requires NormalHistory(h) && k >= 2 && name != "" && name != HIDDEN
    requires var u := OpenTwo(e, Replay(e, NEW, h), ts, k, stored);
             BelowCap(e, u.days[DayOf(ts)]) && BelowCap(e, u.days[DayOf(ts) - 1])
    ensures var s := SetK(Replay(e, NEW, h), k);
            var now := Found(e, s, DayOf(ts), stored);
            var before := Found(e, Open(e, s, DayOf(ts), stored), DayOf(ts) - 1, stored);
            Keep(e, Replay(e, NEW, h), name, ts, k, stored).1 == name <==> FoundShared(e, now, before, name, k)
  {
    OpenTwoIsFine(e, h, ts, k, stored);
    var u := OpenTwo(e, Replay(e, NEW, h), ts, k, stored);
    forall n ensures BothAsShared(e, u, ts, n, k) {
      CommonIffShared(e, u, DayOf(ts), n);
      CommonIffShared(e, u, DayOf(ts) - 1, n);
    }
    DecideReadsCounts(e, u, name, ts, k);
  }

  /** What the store holds of a name that two devices asked for one after the other, k = 2. */
  predicate FirstHidden(pairs: seq<(string, string)>, name: string, a: string, b: string) {
    pairs == [(HIDDEN, a), (name, b)]
  }

  lemma OpenFirstHidden(e: Env, t: Tracker, day: int, name: string, a: string, b: string,
                        stored: int -> seq<(string, string)>)
    requires t.k == 2 && day !in t.days && e.cap > 0 && FirstHidden(stored(day), name, a, b) && Countable(name, b)
    ensures AskedOnce(e, Open(e, t, day, stored), day, Canonical(name), DevOf(e, b, KeyOf(t.ring, day)))
  {
    var pairs, key := stored(day), KeyOf(t.ring, day);
    assert pairs[..1] == [(HIDDEN, a)] && pairs[..1][..0] == [];
    assert Seeded(e, key, pairs[..1], 2) == (Day(map[], map[]), Seen({}, {}));
    CountFirst(e, Tracker(2, map[day := Day(map[], map[])], map[day := Seen({}, {})], t.ring), day, Canonical(name),
               DevOf(e, b, key));
  }

  /** Two days on which a name was asked for once each do not make it common. */
  lemma OnceADayIsHidden(e: Env, t: Tracker, name: string, ts: int, now: Dev, before: Dev)
    requires AskedOnce(e, t, DayOf(ts), Canonical(name), now)
    requires AskedOnce(e, t, DayOf(ts) - 1, Canonical(name), before)
    ensures Decide(e, t.days[DayOf(ts)], t.days[DayOf(ts) - 1], name) == HIDDEN
  {
  }

  /** With k = 2: A's query is stored hidden, B's with its name; after a restart a pass finds
      one device in the store and hides B's as well. */
  lemma RestartHidesKeptName(e: Env, name: string, a: string, b: string, ts: int, kept: map<int, nat>,
                             stored: int -> seq<(string, string)>, later: int -> seq<(string, string)>)
    requires CollisionFree(e.mac) && Countable(name, a) && Countable(name, b) && a != b && e.cap > 0
    requires !IsPseudonym(a) && !IsPseudonym(b) && stored(DayOf(ts)) == [] && stored(DayOf(ts) - 1) == []
    requires FirstHidden(later(DayOf(ts)), name, a, b) && later(DayOf(ts) - 1) == []
    ensures var first := Keep(e, Observe(e, NEW, name, a, ts, 2, stored), name, ts, 2, stored);
            var second := Keep(e, Observe(e, first.0, name, b, ts, 2, stored), name, ts, 2, stored);
            && first.1 == HIDDEN && second.1 == name
            && Keep(e, Restart(second.0, kept), name, ts, 2, later).1 == HIDDEN
  {
    SecondIsStored(e, name, a, b, ts, stored);
    var first := Keep(e, Observe(e, NEW, name, a, ts, 2, stored), name, ts, 2, stored);
    var second := Keep(e, Observe(e, first.0, name, b, ts, 2, stored), name, ts, 2, stored);
    var s := SetK(Restart(second.0, kept), 2);
    OpenFirstHidden(e, s, DayOf(ts), name, a, b, later);
    var dev := DevOf(e, b, KeyOf(s.ring, DayOf(ts)));
    OnceIsHidden(e, Open(e, s, DayOf(ts), later), name, ts, dev, later);
  }

  lemma SecondIsStored(e: Env, name: string, a: string, b: string, ts: int, stored: int -> seq<(string, string)>)
    requires CollisionFree(e.mac) && Countable(name, a) && Countable(name, b) && a != b && e.cap > 0
    requires !IsPseudonym(a) && !IsPseudonym(b) && stored(DayOf(ts)) == [] && stored(DayOf(ts) - 1) == []
    ensures var first := Keep(e, Observe(e, NEW, name, a, ts, 2, stored), name, ts, 2, stored);
            var seen := Observe(e, first.0, name, b, ts, 2, stored);
            && first.1 == HIDDEN && Keep(e, seen, name, ts, 2, stored).1 == name
            && seen.k == 2 && DayOf(ts) in seen.days && Common(seen.days[DayOf(ts)].names, Canonical(name))
            && seen.days.Keys == {DayOf(ts), DayOf(ts) - 1}
  {
    var d0, d1 := e.mac.pseud(0, a), e.mac.pseud(0, b);
    assert e.mac.source(d0) == (0, a) && e.mac.source(d1) == (0, b);
    OnceSeen(e, NEW, name, a, ts, stored);
    var t := Observe(e, NEW, name, a, ts, 2, stored);
    OnceIsHidden(e, t, name, ts, d0, stored);
    var first := Keep(e, t, name, ts, 2, stored);
    assert KeyOf(first.0.ring, DayOf(ts)) == 0;
    SecondIsCommon(e, first.0, name, b, ts, d0, stored);
    CommonIsKept(e, Observe(e, first.0, name, b, ts, 2, stored), name, ts, stored);
  }

  /** The day before's counts alone keep a name; once they are dropped the store decides. */
  lemma KeptByDayBefore(e: Env, t: Tracker, name: string, c: string, ts: int, cutoff: int, a: string, b: string,
                        stored: int -> seq<(string, string)>, later: int -> seq<(string, string)>)
    requires Countable(name, c) && !IsPseudonym(c) && e.cap > 0 && Countable(name, b)
    requires t.k == 2 && DayOf(ts) - 1 in t.days && Common(t.days[DayOf(ts) - 1].names, Canonical(name))
    requires DayOf(ts) !in t.days && DayOf(cutoff) == DayOf(ts) + 1 && stored(DayOf(ts)) == []
    requires FirstHidden(later(DayOf(ts) - 1), name, a, b)
    ensures var third := Keep(e, Observe(e, t, name, c, ts, 2, stored), name, ts, 2, stored);
            third.1 == name && Keep(e, Forget(third.0, cutoff), name, ts, 2, later).1 == HIDDEN
  {
    var day := DayOf(ts);
    var s := SetK(t.(ring := Named(t.ring, c, day)), 2);
    var dev := DevOf(e, c, KeyOf(t.ring, day));
    OpenNothing(e, s, day, stored);
    CountFirst(e, Open(e, s, day, stored), day, Canonical(name), dev);
    var u := Observe(e, t, name, c, ts, 2, stored);
    var third := Keep(e, u, name, ts, 2, stored).0;
    assert third == u;
    MidnightForgets(e, third, cutoff, Canonical(name), dev);
    var v := Forget(third, cutoff);
    OpenFirstHidden(e, v, day - 1, name, a, b, later);
    OnceADayIsHidden(e, Open(e, v, day - 1, later), name, ts, dev, DevOf(e, b, KeyOf(v.ring, day - 1)));
  }

  /** With k = 2, no restart: A and B ask for a name one day, C asks the next, and the name is
      kept for C. The first pass after midnight drops the counts of A and B's day, and a later
      one that reaches C's query (the ten-minute overlap does, or a redo) hides it. */
  lemma OverlapHidesKeptName(e: Env, name: string, a: string, b: string, c: string, eve: int, ts: int, cutoff: int,
                             stored: int -> seq<(string, string)>, later: int -> seq<(string, string)>)
    requires CollisionFree(e.mac) && Countable(name, a) && Countable(name, b) && Countable(name, c) && a != b
    requires !IsPseudonym(a) && !IsPseudonym(b) && !IsPseudonym(c) && e.cap > 0
    requires DayOf(eve) + 1 == DayOf(ts) == DayOf(cutoff) - 1
    requires stored(DayOf(eve)) == [] && stored(DayOf(eve) - 1) == [] && stored(DayOf(ts)) == []
    requires FirstHidden(later(DayOf(eve)), name, a, b)
    ensures var first := Keep(e, Observe(e, NEW, name, a, eve, 2, stored), name, eve, 2, stored);
            var second := Keep(e, Observe(e, first.0, name, b, eve, 2, stored), name, eve, 2, stored);
            var third := Keep(e, Observe(e, second.0, name, c, ts, 2, stored), name, ts, 2, stored);
            && first.1 == HIDDEN && second.1 == third.1 == name
            && Keep(e, Forget(third.0, cutoff), name, ts, 2, later).1 == HIDDEN
  {
    SecondIsStored(e, name, a, b, eve, stored);
    var first := Keep(e, Observe(e, NEW, name, a, eve, 2, stored), name, eve, 2, stored);
    var second := Keep(e, Observe(e, first.0, name, b, eve, 2, stored), name, eve, 2, stored);
    KeptByDayBefore(e, second.0, name, c, ts, cutoff, a, b, stored, later);
  }

  /** After any history each device list is shorter than k, without repeats, and a common
      name has a common registered domain. */
  lemma CountsStayBounded(e: Env, h: History, day: int, n: string)
    requires NormalHistory(h)
    ensures var t := Replay(e, NEW, h);
            day in t.days && n in t.days[day].names ==>
              && |SetOf(t.days[day].names[n].devs)| == |t.days[day].names[n].devs| < t.k
              && |t.days[day].names| <= e.cap
              && (Common(t.days[day].names, n) && e.reg(n) != "" ==> Common(t.days[day].regs, e.reg(n)))
  {
    EveryHistory(e, h);
    var t := Replay(e, NEW, h);
    if day in t.days && n in t.days[day].names {
      assert RowFine(t.days[day].names[n], Devs(t.seen[day].names, n), t.k);
      if Common(t.days[day].names, n) && e.reg(n) != "" {
        CommonNameCommonDomain(e, t.days[day], t.seen[day], n, t.k);
      }
    }
  }
}
