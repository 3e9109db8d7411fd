/** What k-anonymity for domains promises, in terms of the queries that came in
    (internal/privacy/domains.go:65-85): a name is kept only if k devices asked for it, and it
    is kept if they did. Names are compared as the source means to compare them (lines
    175-178): up to ASCII case and one trailing dot. */
module DomainPromises {
  import opened DomainNames
  import opened DomainTrackers
  import opened Keyrings
  import opened PrivacyTerms

  // ---------------------------------------------------------------- names

  /** `x` is the name without its trailing dot. */
  predicate StemOf(name: string, x: string) {
    name == x + "." || (name == x && (x == "" || x[|x| - 1] != '.'))
  }

  predicate IsLowerOf(l: char, c: char) {
    if 'A' <= c <= 'Z' then l as int == c as int + 32 else l == c
  }

  predicate SameLetter(c: char, d: char) {
    || c == d
    || ('A' <= c <= 'Z' && d as int == c as int + 32)
    || ('A' <= d <= 'Z' && c as int == d as int + 32)
  }

  ghost predicate SameLetters(x: string, y: string) {
    |x| == |y| && forall i :: 0 <= i < |x| ==> SameLetter(x[i], y[i])
  }

  ghost predicate SameName(a: string, b: string) {
    exists x, y :: StemOf(a, x) && StemOf(b, y) && SameLetters(x, y)
  }

  /** `n` is the name in lower case with one dot at its end. */
  ghost predicate NormalForm(n: string, name: string) {
    exists x :: StemOf(name, x) && |n| == |x| + 1 && n[|x|] == '.' && forall i :: 0 <= i < |x| ==> IsLowerOf(n[i], x[i])
  }

  lemma StemIs(name: string, x: string)
    ensures StemOf(name, x) <==> x == TrimDot(name)
  {
    if name == x + "." { assert name[..|name| - 1] == x; }
    if x == TrimDot(name) && name != x { assert name == name[..|name| - 1] + [name[|name| - 1]]; }
  }

  /** The stored form of a name is its normal form, and it has no other. */
  lemma CanonicalIs(n: string, name: string)
    ensures NormalForm(n, name) <==> n == Canonical(name)
  {
    var x := TrimDot(name);
    StemIs(name, x);
    if NormalForm(n, name) {
      var y :| StemOf(name, y) && |n| == |y| + 1 && n[|y|] == '.' && forall i :: 0 <= i < |y| ==> IsLowerOf(n[i], y[i]);
      StemIs(name, y);
      assert n[..|x|] == Lower(x);
      assert n == n[..|x|] + ".";
    }
  }

  lemma LettersFold(c: char, d: char)
    ensures LowerChar(c) == LowerChar(d) <==> SameLetter(c, d)
  {
  }

  /** Two names have one stored form exactly if they are the same up to ASCII case and one
      trailing dot; it ends in a dot and is its own stored form. */
  lemma CanonicalEqualIff(a: string, b: string)
    ensures Canonical(a) == Canonical(b) <==> SameName(a, b)
    ensures Canonical(Canonical(a)) == Canonical(a) && SameName(a, Canonical(a))
  {
    StemsDecide(a, b);
    StoredAgain(a);
    StemsDecide(a, Canonical(a));
  }

  lemma StoredAgain(a: string)
    ensures Canonical(Canonical(a)) == Canonical(a)
  {
    var x := Lower(TrimDot(a));
    StemIs(Canonical(a), x);
    assert Lower(x) == x;
  }

  lemma LowerDecides(x: string, y: string)
    ensures Lower(x) == Lower(y) <==> SameLetters(x, y)
  {
    forall c, d ensures LowerChar(c) == LowerChar(d) <==> SameLetter(c, d) { LettersFold(c, d); }
    if Lower(x) == Lower(y) {
      assert |Lower(x)| == |x| && |Lower(y)| == |y|;
      forall i | 0 <= i < |x| ensures SameLetter(x[i], y[i]) {
        assert Lower(x)[i] == Lower(y)[i];
      }
    }
  }

  lemma StemsDecide(a: string, b: string)
    ensures Canonical(a) == Canonical(b) <==> SameName(a, b)
  {
    var x, y := TrimDot(a), TrimDot(b);
    StemIs(a, x);
    StemIs(b, y);
    LowerDecides(x, y);
    assert Canonical(a)[..|Lower(x)|] == Lower(x) && Canonical(b)[..|Lower(y)|] == Lower(y);
    if SameName(a, b) {
      var u, v :| StemOf(a, u) && StemOf(b, v) && SameLetters(u, v);
      StemIs(a, u);
      StemIs(b, v);
    }
  }

  // ---------------------------------------------------------------- who asked

  /** The device a client string stands for. */
  ghost function Who(e: Env, client: string): string { if IsPseudonym(client) then Person(e, client) else client }

  ghost predicate Query(name: string, client: string) { name != "" && name != "hidden" && client != "" }

  /** The device asked for `name` that day: its query came in, or was in the store when the
      day's counts were seeded. */
  ghost predicate Asked1(e: Env, x: (Op, int -> seq<(string, string)>), day: int, name: string, person: string) {
    || (x.0.Saw? && Query(x.0.name, x.0.client) && DayOf(x.0.ts) == day && SameName(x.0.name, name)
        && Who(e, x.0.client) == person)
    || exists p <- x.1(day) :: Query(p.0, p.1) && SameName(p.0, name) && Who(e, p.1) == person
  }

  ghost predicate AskedName(e: Env, h: History, day: int, name: string, person: string) {
    exists x <- h :: Asked1(e, x, day, name, person)
  }

  ghost predicate DomainOf(e: Env, name: string, reg: string) { exists n :: NormalForm(n, name) && e.reg(n) == reg }

  ghost predicate AskedUnder(e: Env, h: History, day: int, reg: string, person: string) {
    exists name :: DomainOf(e, name, reg) && AskedName(e, h, day, name, person)
  }

  /** All that was counted comes from such queries. */
  ghost predicate FromQueries(e: Env, h: History, day: int, s: Seen) {
    && (forall p <- s.names :: AskedName(e, h, day, p.0, Person(e, p.1)))
    && (forall p <- s.regs :: p.0 != "" && AskedUnder(e, h, day, p.0, Person(e, p.1)))
  }

  ghost predicate AllFromQueries(e: Env, h: History, t: Tracker) {
    forall day <- t.seen :: FromQueries(e, h, day, t.seen[day])
  }

  lemma WhoIsPerson(e: Env, client: string, key: nat)
    requires CollisionFree(e.mac)
    ensures Person(e, DevOf(e, client, key)) == Who(e, client)
  {
  }

  /** One query counted. */
  lemma CountedFrom(e: Env, h: History, day: int, s: Seen, n: string, dev: Dev)
    requires FromQueries(e, h, day, s) && AskedName(e, h, day, n, Person(e, dev))
    requires e.reg(n) != "" ==> AskedUnder(e, h, day, e.reg(n), Person(e, dev))
    ensures FromQueries(e, h, day, CountSeen(e, s, n, dev))
  {
    var t := CountSeen(e, s, n, dev);
    forall p <- t.names ensures AskedName(e, h, day, p.0, Person(e, p.1)) {
      if p !in s.names { assert p == (n, dev); }
    }
    forall p <- t.regs ensures p.0 != "" && AskedUnder(e, h, day, p.0, Person(e, p.1)) {
      if p !in s.regs { assert p == (e.reg(n), dev); }
    }
  }

  lemma UnderItsDomain(e: Env, h: History, day: int, name: string, person: string)
    requires AskedName(e, h, day, name, person)
    ensures AskedUnder(e, h, day, e.reg(Canonical(name)), person)
  {
    CanonicalIs(Canonical(name), name);
    assert DomainOf(e, name, e.reg(Canonical(name)));
  }

  lemma AskedCounts(e: Env, h: History, day: int, s: Seen, name: string, dev: Dev)
    requires FromQueries(e, h, day, s) && AskedName(e, h, day, name, Person(e, dev))
    ensures FromQueries(e, h, day, CountSeen(e, s, Canonical(name), dev))
  {
    AskedStored(e, h, day, name, Person(e, dev));
    UnderItsDomain(e, h, day, name, Person(e, dev));
    CountedFrom(e, h, day, s, Canonical(name), dev);
  }

  /** Asking for a name is asking for its stored form. */
  lemma AskedStored(e: Env, h: History, day: int, name: string, person: string)
    requires AskedName(e, h, day, name, person)
    ensures AskedName(e, h, day, Canonical(name), person)
  {
    var x :| x in h && Asked1(e, x, day, name, person);
    forall q ensures SameName(q, name) ==> SameName(q, Canonical(name)) {
      CanonicalEqualIff(q, name);
      CanonicalEqualIff(name, name);
      CanonicalEqualIff(q, Canonical(name));
    }
    assert Asked1(e, x, day, Canonical(name), person);
  }

  lemma {:induction false} SeededFrom(e: Env, h: History, day: int, key: nat, pairs: seq<(string, string)>, k: nat,
                                      x: (Op, int -> seq<(string, string)>), all: seq<(string, string)>)
    requires CollisionFree(e.mac) && x in h && x.1(day) == all && pairs <= all
    ensures FromQueries(e, h, day, Seeded(e, key, pairs, k).1)
  {
    if pairs != [] {
      var rest, p := pairs[..|pairs| - 1], pairs[|pairs| - 1];
      SeededFrom(e, h, day, key, rest, k, x, all);
      if Countable(p.0, p.1) {
        var dev := DevOf(e, p.1, key);
        WhoIsPerson(e, p.1, key);
        assert p in all;
        CanonicalEqualIff(p.0, p.0);
        assert Asked1(e, x, day, p.0, Person(e, dev));
        AskedCounts(e, h, day, Seeded(e, key, rest, k).1, p.0, dev);
      }
    }
  }

  lemma MoreHistory(e: Env, h: History, x: (Op, int -> seq<(string, string)>), day: int, s: Seen)
    requires FromQueries(e, h, day, s)
    ensures FromQueries(e, h + [x], day, s)
  {
    forall name, person | AskedName(e, h, day, name, person) ensures AskedName(e, h + [x], day, name, person) {
      var y :| y in h && Asked1(e, y, day, name, person);
      assert y in h + [x];
    }
  }

  lemma OpenFrom(e: Env, h: History, t: Tracker, day: int, x: (Op, int -> seq<(string, string)>))
    requires CollisionFree(e.mac) && x in h && AllFromQueries(e, h, t) && t.days.Keys == t.seen.Keys
    ensures AllFromQueries(e, h, Open(e, t, day, x.1))
  {
    var u := Open(e, t, day, x.1);
    if day !in t.days { SeededFrom(e, h, day, KeyOf(t.ring, day), x.1(day), t.k, x, x.1(day)); }
    forall d <- u.seen ensures FromQueries(e, h, d, u.seen[d]) {
      if d in t.seen && d != day { assert FromQueries(e, h, d, t.seen[d]); }
    }
  }

  lemma QueryAsked(e: Env, h: History, x: (Op, int -> seq<(string, string)>), key: nat)
    requires CollisionFree(e.mac) && x in h && x.0.Saw? && Countable(x.0.name, x.0.client)
    ensures AskedName(e, h, DayOf(x.0.ts), x.0.name, Person(e, DevOf(e, x.0.client, key)))
  {
    WhoIsPerson(e, x.0.client, key);
    CanonicalEqualIff(x.0.name, x.0.name);
    assert Asked1(e, x, DayOf(x.0.ts), x.0.name, Person(e, DevOf(e, x.0.client, key)));
  }

  lemma CountOnFrom(e: Env, h: History, u: Tracker, day: int, name: string, dev: Dev)
    requires AllFromQueries(e, h, u) && day in u.days && day in u.seen && AskedName(e, h, day, name, Person(e, dev))
    ensures AllFromQueries(e, h, CountOn(e, u, day, Canonical(name), dev))
  {
    var v := CountOn(e, u, day, Canonical(name), dev);
    AskedCounts(e, h, day, u.seen[day], name, dev);
    forall d <- v.seen ensures FromQueries(e, h, d, v.seen[d]) {
      if d != day { assert FromQueries(e, h, d, u.seen[d]); }
    }
  }

  lemma ObserveFrom(e: Env, h: History, t: Tracker, x: (Op, int -> seq<(string, string)>))
    requires CollisionFree(e.mac) && x in h && x.0.Saw? && Countable(x.0.name, x.0.client)
    requires AllFromQueries(e, h, t) && t.days.Keys == t.seen.Keys
    ensures AllFromQueries(e, h, Do(e, t, x.0, x.1))
  {
    var day, dev := DayOf(x.0.ts), DevOf(e, x.0.client, KeyOf(t.ring, DayOf(x.0.ts)));
    var s := SetK(t.(ring := Named(t.ring, x.0.client, day)), x.0.k);
    OpenFrom(e, h, s, day, x);
    QueryAsked(e, h, x, KeyOf(t.ring, day));
    CountOnFrom(e, h, Open(e, s, day, x.1), day, x.0.name, dev);
  }

  lemma DoFrom(e: Env, h: History, t: Tracker, x: (Op, int -> seq<(string, string)>))
    requires CollisionFree(e.mac) && x in h && AllFromQueries(e, h, t) && t.days.Keys == t.seen.Keys
    ensures AllFromQueries(e, h, Do(e, t, x.0, x.1))
  {
    match x.0
    case Saw(name, client, ts, k) => if Countable(name, client) { ObserveFrom(e, h, t, x); }
    case Asked(name, ts, k) =>
      OpenFrom(e, h, SetK(t, k), DayOf(ts), x);
      OpenFrom(e, h, Open(e, SetK(t, k), DayOf(ts), x.1), DayOf(ts) - 1, x);
    case Renamed(_, _) =>
    case Scrubbed(_) =>
    case Restarted(_) =>
  }

  lemma {:induction false} HistoryFrom(e: Env, h: History)
    requires CollisionFree(e.mac) && NormalHistory(h)
    ensures AllFromQueries(e, h, Replay(e, NEW, h))
  {
    if h != [] {
      var was, x := h[..|h| - 1], h[|h| - 1];
      var t := Replay(e, NEW, was);
      assert h == was + [x];
      HistoryFrom(e, was);
      forall day <- t.seen ensures FromQueries(e, h, day, t.seen[day]) { MoreHistory(e, was, x, day, t.seen[day]); }
      EveryHistory(e, was);
      DoFrom(e, h, t, x);
    }
  }

  // ---------------------------------------------------------------- kept only if asked for

  ghost predicate AskedByMany(e: Env, h: History, day: int, name: string, k: nat) {
    exists people: set<string> :: |people| >= k && forall p <- people :: AskedName(e, h, day, name, p)
  }

  ghost predicate AskedUnderByMany(e: Env, h: History, day: int, reg: string, k: nat) {
    exists people: set<string> :: |people| >= k && forall p <- people :: AskedUnder(e, h, day, reg, p)
  }

  lemma SeenIsAsked(e: Env, h: History, day: int, s: Seen, name: string, k: nat)
    requires FromQueries(e, h, day, s) && |Persons(e, Devs(s.names, Canonical(name)))| >= k
    ensures AskedByMany(e, h, day, name, k)
  {
    var people := Persons(e, Devs(s.names, Canonical(name)));
    forall p <- people ensures AskedName(e, h, day, name, p) {
      var d :| d in Devs(s.names, Canonical(name)) && Person(e, d) == p;
      var q :| q in s.names && q.0 == Canonical(name) && q.1 == d;
      FromStored(e, h, day, name, p);
    }
  }

  lemma FromStored(e: Env, h: History, day: int, name: string, person: string)
    requires AskedName(e, h, day, Canonical(name), person)
    ensures AskedName(e, h, day, name, person)
  {
    var x :| x in h && Asked1(e, x, day, Canonical(name), person);
    forall q ensures SameName(q, Canonical(name)) ==> SameName(q, name) {
      CanonicalEqualIff(q, name);
      CanonicalEqualIff(name, name);
      CanonicalEqualIff(q, Canonical(name));
    }
    assert Asked1(e, x, day, name, person);
  }

  lemma SeenIsAskedUnder(e: Env, h: History, day: int, s: Seen, reg: string, k: nat)
    requires FromQueries(e, h, day, s) && |Persons(e, Devs(s.regs, reg))| >= k
    ensures AskedUnderByMany(e, h, day, reg, k)
  {
    var people := Persons(e, Devs(s.regs, reg));
    forall p <- people ensures AskedUnder(e, h, day, reg, p) {
      var d :| d in Devs(s.regs, reg) && Person(e, d) == p;
      var q :| q in s.regs && q.0 == reg && q.1 == d;
    }
  }

  /** After any clean history a name is kept only if k devices each asked for it, that day or
      the day before; its registered domain is kept in its place only if k devices each asked
      for a name under it; and else it is hidden. */
  lemma KeptOnlyIfAsked(e: Env, h: History, name: string, ts: int, k: nat, stored: int -> seq<(string, string)>)
    requires CollisionFree(e.mac) && NormalHistory(h) && k >= 2 && name != "" && name != "hidden"
    requires CleanHistory(e, NEW, h) && Clean(e, Replay(e, NEW, h), Asked(name, ts, k), stored)
    ensures var out := Keep(e, Replay(e, NEW, h), name, ts, k, stored).1;
            var all, today, before := h + [(Asked(name, ts, k), stored)], DayOf(ts), DayOf(ts) - 1;
            || (out == name && (AskedByMany(e, all, today, name, k) || AskedByMany(e, all, before, name, k)))
            || (out != "" && DomainOf(e, name, out)
                && (AskedUnderByMany(e, all, today, out, k) || AskedUnderByMany(e, all, before, out, k)))
            || out == "hidden"
  {
    var all := h + [(Asked(name, ts, k), stored)];
    KeepIsAnonymous(e, h, name, ts, k, stored);
    CanonicalIs(Canonical(name), name);
    var t, out := Keep(e, Replay(e, NEW, h), name, ts, k, stored).0, Keep(e, Replay(e, NEW, h), name, ts, k, stored).1;
    AskedFrom(e, h, name, ts, k, stored);
    if out == name && SharedName(e, t, ts, Canonical(name), k) {
      SharedIsAsked(e, all, t, ts, name, k);
    } else if out != HIDDEN {
      SharedIsAskedUnder(e, all, t, ts, out, k);
      assert DomainOf(e, name, out);
    }
  }

  lemma SharedIsAsked(e: Env, h: History, t: Tracker, ts: int, name: string, k: nat)
    requires AllFromQueries(e, h, t) && DayOf(ts) in t.seen && DayOf(ts) - 1 in t.seen
    requires SharedName(e, t, ts, Canonical(name), k)
    ensures AskedByMany(e, h, DayOf(ts), name, k) || AskedByMany(e, h, DayOf(ts) - 1, name, k)
  {
    var today, before := DayOf(ts), DayOf(ts) - 1;
    assert FromQueries(e, h, today, t.seen[today]) && FromQueries(e, h, before, t.seen[before]);
    if |Persons(e, Devs(t.seen[today].names, Canonical(name)))| >= k {
      SeenIsAsked(e, h, today, t.seen[today], name, k);
    } else {
      SeenIsAsked(e, h, before, t.seen[before], name, k);
    }
  }

  lemma SharedIsAskedUnder(e: Env, h: History, t: Tracker, ts: int, reg: string, k: nat)
    requires AllFromQueries(e, h, t) && DayOf(ts) in t.seen && DayOf(ts) - 1 in t.seen
    requires SharedDomain(e, t, ts, reg, k)
    ensures AskedUnderByMany(e, h, DayOf(ts), reg, k) || AskedUnderByMany(e, h, DayOf(ts) - 1, reg, k)
  {
    var today, before := DayOf(ts), DayOf(ts) - 1;
    assert FromQueries(e, h, today, t.seen[today]) && FromQueries(e, h, before, t.seen[before]);
    if |Persons(e, Devs(t.seen[today].regs, reg))| >= k {
      SeenIsAskedUnder(e, h, today, t.seen[today], reg, k);
    } else {
      SeenIsAskedUnder(e, h, before, t.seen[before], reg, k);
    }
  }

  lemma AskedFrom(e: Env, h: History, name: string, ts: int, k: nat, stored: int -> seq<(string, string)>)
    requires CollisionFree(e.mac) && NormalHistory(h) && k >= 2
    ensures AllFromQueries(e, h + [(Asked(name, ts, k), stored)], Keep(e, Replay(e, NEW, h), name, ts, k, stored).0)
  {
    var x := (Asked(name, ts, k), stored);
    assert (h + [x])[..|h|] == h && (h + [x])[|h|] == x;
    HistoryFrom(e, h + [x]);
  }

  // ---------------------------------------------------------------- kept if asked for

  /** The device is counted for the name that day, under whatever key. */
  ghost predicate CountedFor(e: Env, t: Tracker, day: int, n: string, person: string) {
    exists dev :: CountedAs(t, day, n, dev) && Person(e, dev) == person
  }

  /** The device's own query of the name. */
  ghost predicate OwnQuery(op: Op, day: int, name: string, client: string) {
    op.Saw? && Query(op.name, op.client) && !IsPseudonym(op.client) && op.client == client
    && DayOf(op.ts) == day && SameName(op.name, name)
  }

  lemma OwnQueryCounts(e: Env, t: Tracker, op: Op, stored: int -> seq<(string, string)>, day: int, name: string,
                       client: string)
    requires CollisionFree(e.mac) && t.days.Keys == t.seen.Keys && OwnQuery(op, day, name, client)
    ensures CountedFor(e, Do(e, t, op, stored), day, Canonical(name), client)
  {
    var dev := DevOf(e, client, KeyOf(t.ring, day));
    FirstCounted(e, t, op.name, client, op.ts, op.k, stored);
    WhoIsPerson(e, client, KeyOf(t.ring, day));
    CanonicalEqualIff(op.name, name);
    assert CountedAs(Do(e, t, op, stored), day, Canonical(name), dev);
  }

  lemma CountedStays(e: Env, t: Tracker, op: Op, stored: int -> seq<(string, string)>, day: int, n: string,
                     person: string)
    requires t.days.Keys == t.seen.Keys && CountedFor(e, t, day, n, person) && KeepsCounts(op, day, t.k)
    ensures var u := Do(e, t, op, stored);
            u.days.Keys == u.seen.Keys && u.k == t.k && CountedFor(e, u, day, n, person)
  {
    var dev :| CountedAs(t, day, n, dev) && Person(e, dev) == person;
    if op.Saw? && Countable(op.name, op.client) {
      CountedAfterSaw(e, t, op.name, op.client, op.ts, op.k, stored, day, n, dev);
    } else {
      CountedAfterOther(e, t, op, stored, day, n, dev);
    }
    assert CountedAs(Do(e, t, op, stored), day, n, dev);
  }

  ghost predicate Counting(e: Env, t: Tracker, day: int, n: string, person: string, k: nat) {
    t.k == k && CountedFor(e, t, day, n, person)
  }

  lemma CountingStep(e: Env, t: Tracker, op: Op, stored: int -> seq<(string, string)>, day: int, name: string,
                     client: string, k: nat)
    requires CollisionFree(e.mac) && t.days.Keys == t.seen.Keys && KeepsCounts(op, day, k)
    requires OwnQuery(op, day, name, client) || Counting(e, t, day, Canonical(name), client, k)
    ensures Counting(e, Do(e, t, op, stored), day, Canonical(name), client, k)
  {
    if OwnQuery(op, day, name, client) {
      OwnQueryCounts(e, t, op, stored, day, name, client);
      FirstCounted(e, t, op.name, client, op.ts, op.k, stored);
    } else {
      CountedStays(e, t, op, stored, day, Canonical(name), client);
    }
  }

  ghost predicate AskedIn(g: History, day: int, name: string, client: string) {
    exists x <- g :: OwnQuery(x.0, day, name, client)
  }

  lemma FineKeys(e: Env, t: Tracker)
    requires Fine(e, t)
    ensures t.days.Keys == t.seen.Keys
  {
  }

  /** Once asked for under the threshold k, while the counts of the day are in place, a device
      stays counted. */
  lemma {:induction false} AskedIsCounted(e: Env, t: Tracker, g: History, day: int, name: string, client: string,
                                          k: nat)
    requires CollisionFree(e.mac) && Fine(e, t) && NormalHistory(g) && KeepCounts(g, day, k)
    requires AskedIn(g, day, name, client)
    ensures Counting(e, Replay(e, t, g), day, Canonical(name), client, k)
  {
    var was, x := g[..|g| - 1], g[|g| - 1];
    SplitAsked(g, day, name, client, k);
    if AskedIn(was, day, name, client) { AskedIsCounted(e, t, was, day, name, client, k); }
    LastCounting(e, t, g, day, name, client, k);
  }

  lemma SplitAsked(g: History, day: int, name: string, client: string, k: nat)
    requires AskedIn(g, day, name, client) && NormalHistory(g) && KeepCounts(g, day, k)
    ensures g != []
    ensures var was, x := g[..|g| - 1], g[|g| - 1];
            && NormalHistory(was) && KeepCounts(was, day, k) && KeepsCounts(x.0, day, k) && Normal(x.0)
            && (OwnQuery(x.0, day, name, client) || AskedIn(was, day, name, client))
  {
    var x :| x in g && OwnQuery(x.0, day, name, client);
    assert g == g[..|g| - 1] + [g[|g| - 1]];
  }

  lemma LastCounting(e: Env, t: Tracker, g: History, day: int, name: string, client: string, k: nat)
    requires CollisionFree(e.mac) && Fine(e, t) && g != [] && NormalHistory(g[..|g| - 1])
    requires KeepsCounts(g[|g| - 1].0, day, k)
    requires OwnQuery(g[|g| - 1].0, day, name, client)
             || Counting(e, Replay(e, t, g[..|g| - 1]), day, Canonical(name), client, k)
    ensures Counting(e, Replay(e, t, g), day, Canonical(name), client, k)
  {
    var s := Replay(e, t, g[..|g| - 1]);
    ReplayKeepsFine(e, t, g[..|g| - 1]);
    FineKeys(e, s);
    CountingStep(e, s, g[|g| - 1].0, g[|g| - 1].1, day, name, client, k);
  }

  lemma {:induction false} ReplayKeepsFine(e: Env, t: Tracker, g: History)
    requires Fine(e, t) && NormalHistory(g)
    ensures Fine(e, Replay(e, t, g))
  {
    if g != [] {
      assert g[|g| - 1] in g;
      ReplayKeepsFine(e, t, g[..|g| - 1]);
      DoKeepsFine(e, Replay(e, t, g[..|g| - 1]), g[|g| - 1].0, g[|g| - 1].1);
    }
  }

  lemma {:induction false} FewerPersons(e: Env, devs: set<Dev>, people: set<string>)
    requires forall p <- people :: exists d <- devs :: Person(e, d) == p
    ensures |people| <= |devs|
    decreases |people|
  {
    if people != {} {
      var p :| p in people;
      var d :| d in devs && Person(e, d) == p;
      var rest := set c | c in devs && Person(e, c) != p;
      FewerPersons(e, rest, people - {p});
      SubsetSize(rest + {d}, devs);
      assert |rest + {d}| == |rest| + 1;
    }
  }

  /** If k devices asked for a name on one day, while the counts of that day were in place and
      the tables had room, the name is kept, that day and the next. */
  lemma AskedIsKept(e: Env, h: History, g: History, people: set<string>, name: string, day: int, ts: int, k: nat,
                    stored: int -> seq<(string, string)>)
    requires CollisionFree(e.mac) && NormalHistory(h) && NormalHistory(g) && KeepCounts(g, day, k)
    requires k >= 2 && |people| >= k && name != "" && name != "hidden" && (DayOf(ts) == day || DayOf(ts) == day + 1)
    requires forall c <- people :: AskedIn(g, day, name, c)
    requires var u := Keep(e, Replay(e, Replay(e, NEW, h), g), name, ts, k, stored).0;
             day in u.days ==> BelowCap(e, u.days[day])
    ensures Keep(e, Replay(e, Replay(e, NEW, h), g), name, ts, k, stored).1 == name
  {
    EveryHistory(e, h);
    ReplayKeepsFine(e, Replay(e, NEW, h), g);
    forall c <- people ensures Counting(e, Replay(e, Replay(e, NEW, h), g), day, Canonical(name), c, k) {
      AskedIsCounted(e, Replay(e, NEW, h), g, day, name, c, k);
    }
    CountedIsKept(e, Replay(e, Replay(e, NEW, h), g), people, name, day, ts, k, stored);
  }

  lemma CountedIsKept(e: Env, t: Tracker, people: set<string>, name: string, day: int, ts: int, k: nat,
                      stored: int -> seq<(string, string)>)
    requires Fine(e, t) && k >= 2 && |people| >= k && name != "" && name != HIDDEN
    requires DayOf(ts) == day || DayOf(ts) == day + 1
    requires forall c <- people :: Counting(e, t, day, Canonical(name), c, k)
    requires var u := Keep(e, t, name, ts, k, stored).0; day in u.days ==> BelowCap(e, u.days[day])
    ensures Keep(e, t, name, ts, k, stored).1 == name
  {
    var u := Keep(e, t, name, ts, k, stored).0;
    FineKeys(e, t);
    forall c <- people ensures Counting(e, u, day, Canonical(name), c, k) {
      CountedStays(e, t, Asked(name, ts, k), stored, day, Canonical(name), c);
    }
    assert people != {};
    var someone :| someone in people;
    assert Counting(e, u, day, Canonical(name), someone, k);
    DoKeepsFine(e, t, Asked(name, ts, k), stored);
    ManyMakeCommon(e, u, day, Canonical(name), people, k);
  }

  lemma ManyMakeCommon(e: Env, t: Tracker, day: int, n: string, people: set<string>, k: nat)
    requires Fine(e, t) && day in t.days && t.k == k > 0 && |people| >= k && BelowCap(e, t.days[day])
    requires forall c <- people :: CountedFor(e, t, day, n, c)
    ensures Common(t.days[day].names, n)
  {
    assert day in t.seen.Keys;
    var devs := Devs(t.seen[day].names, n);
    forall c <- people ensures exists d <- devs :: Person(e, d) == c {
      var dev :| CountedAs(t, day, n, dev) && Person(e, dev) == c;
      assert dev in devs;
    }
    FewerPersons(e, devs, people);
    CommonIffShared(e, t, day, n);
  }
}
