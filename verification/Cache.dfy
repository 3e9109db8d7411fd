/** The answer cache (internal/cache/cache.go): a sharded TTL map with serve-stale
    (section 4 of RFC 8767), refresh-ahead, sampled eviction, negative TTLs from the SOA
    and a delete that re-checks under the write lock. Times and TTL bounds are
    nanoseconds; a record's TTL is a 32-bit number of seconds.

    Keys are opaque here (module QuestionKeys says what they identify). `hash` stands for
    the FNV hash whose low bits pick a shard. */
module Caches {
  import opened Wrappers

  const SHARDS: nat := 16
  const SECOND := 1_000_000_000
  const STALE_GRACE := 30 * SECOND
  const STALE_TTL: nat := 30
  const REFRESH_DIVISOR := 10
  const EVICTION_SAMPLE: nat := 8
  const MAX_U32: nat := 0xFFFF_FFFF

  /** `minttl` is the SOA's minimum field; `isOPT` marks the EDNS pseudo-record. */
  datatype RR<D> = RR(ttl: nat, data: D, isSOA: bool, minttl: nat, isOPT: bool)

  datatype Msg<D> = Msg(answer: seq<RR<D>>, ns: seq<RR<D>>, extra: seq<RR<D>>)

  datatype Entry<D> = Entry(msg: Msg<D>, expiresAt: int, ttl: int)

  // ---------------------------------------------------------------- TTLs

  /** The number a record contributes: an answer its TTL, an SOA its minimum. */
  function Counted<D>(r: RR<D>, soa: bool): Option<nat> {
    if !soa then Some(r.ttl) else if r.isSOA then Some(r.minttl) else None
  }

  /** The running minimum starts at 2^32 - 1, and only a smaller number counts as found. */
  function Least<D>(rrs: seq<RR<D>>, soa: bool): Option<nat> {
    if rrs == [] then None
    else
      var min := Least(rrs[..|rrs| - 1], soa);
      var n := Counted(rrs[|rrs| - 1], soa);
      if n.Some? && n.value < (if min.Some? then min.value else MAX_U32) then n else min
  }

  lemma {:induction false} LeastIsLeast<D>(rrs: seq<RR<D>>, soa: bool)
    ensures Least(rrs, soa).None? <==> forall r <- rrs :: Counted(r, soa).Some? ==> Counted(r, soa).value >= MAX_U32
    ensures Least(rrs, soa).Some? ==>
              && (exists r <- rrs :: Counted(r, soa) == Least(rrs, soa))
              && (forall r <- rrs :: Counted(r, soa).Some? ==> Least(rrs, soa).value <= Counted(r, soa).value)
              && Least(rrs, soa).value < MAX_U32
  {
    if rrs != [] {
      var last := rrs[|rrs| - 1];
      LeastIsLeast(rrs[..|rrs| - 1], soa);
      assert rrs == rrs[..|rrs| - 1] + [last];
    }
  }

  function Clamp(d: int, minTTL: int, maxTTL: int): int {
    var e := if d < minTTL then minTTL else d;
    if maxTTL > 0 && e > maxTTL then maxTTL else e
  }

  /** How long a reply may be kept: by its answers if any has a TTL below 2^32 - 1, else
      by the SOA; with nothing to go by, 0 (not cached). */
  function TTL<D>(msg: Msg<D>, minTTL: int, maxTTL: int): int {
    var min := if Least(msg.answer, false).Some? then Least(msg.answer, false) else Least(msg.ns, true);
    if min.None? then 0 else Clamp(min.value * SECOND, minTTL, maxTTL)
  }

  method LeastOf<D>(rrs: seq<RR<D>>, soa: bool) returns (min: nat, found: bool)
    ensures found <==> Least(rrs, soa).Some?
    ensures min == if found then Least(rrs, soa).value else MAX_U32
  {
    min, found := MAX_U32, false;
    for i := 0 to |rrs|
      invariant found <==> Least(rrs[..i], soa).Some?
      invariant min == if found then Least(rrs[..i], soa).value else MAX_U32
    {
      assert rrs[..i + 1][..i] == rrs[..i];
      var n := Counted(rrs[i], soa);
      if n.Some? && n.value < min { min, found := n.value, true; }
    }
    assert rrs[..|rrs|] == rrs;
  }

  /** `ttlFor`. */
  method TTLFor<D>(msg: Msg<D>, minTTL: int, maxTTL: int) returns (d: int)
    ensures d == TTL(msg, minTTL, maxTTL)
  {
    var min, found := LeastOf(msg.answer, false);
    if !found {
      min, found := LeastOf(msg.ns, true);
    }
    if !found { return 0; }
    d := min * SECOND;
    if d < minTTL { d := minTTL; }
    if maxTTL > 0 && d > maxTTL { d := maxTTL; }
  }

  /** The time a TTL allows, within the configured bounds. */
  predicate Bounds(d: int, seconds: nat, minTTL: int, maxTTL: int) {
    var t := seconds * 1_000_000_000;
    var e := if t < minTTL then minTTL else t;
    d == if 0 < maxTTL < e then maxTTL else e
  }

  /** The time is that of the answer of least TTL; without an answer below 2^32 - 1, that of
      the SOA of least minimum; without one of those, none. */
  lemma TTLIsLeast<D>(msg: Msg<D>, minTTL: int, maxTTL: int)
    ensures (exists r <- msg.answer :: r.ttl < 4_294_967_295) ==>
              exists r <- msg.answer :: Bounds(TTL(msg, minTTL, maxTTL), r.ttl, minTTL, maxTTL)
                                        && forall s <- msg.answer :: r.ttl <= s.ttl
    ensures (forall r <- msg.answer :: r.ttl >= 4_294_967_295) ==>
              (exists r <- msg.ns :: r.isSOA && r.minttl < 4_294_967_295) ==>
              exists r <- msg.ns :: r.isSOA && Bounds(TTL(msg, minTTL, maxTTL), r.minttl, minTTL, maxTTL)
                                    && forall s <- msg.ns :: s.isSOA ==> r.minttl <= s.minttl
    ensures (forall r <- msg.answer :: r.ttl >= 4_294_967_295) ==>
              (forall r <- msg.ns :: r.isSOA ==> r.minttl >= 4_294_967_295) ==> TTL(msg, minTTL, maxTTL) == 0
  {
    LeastIsLeast(msg.answer, false);
    LeastIsLeast(msg.ns, true);
    forall r <- msg.answer ensures Counted(r, false) == Some(r.ttl) {}
    forall r <- msg.ns ensures Counted(r, true) == if r.isSOA then Some(r.minttl) else None {}
  }

  function Max(a: int, b: int): int { if a < b then b else a }

  /** A cached reply is kept no longer than any of its answers allows, or, without one that
      counts, any SOA; the configured minimum stretches that, the configured maximum cuts it.
      A reply whose only answers carry TTL 2^32 - 1 counts as having none. */
  lemma TTLHonoursRecords<D>(msg: Msg<D>, minTTL: int, maxTTL: int)
    ensures var d := TTL(msg, minTTL, maxTTL);
            && (Least(msg.answer, false).None? <==> forall r <- msg.answer :: r.ttl >= MAX_U32)
            && (Least(msg.answer, false).Some? ==> forall r <- msg.answer :: d <= Max(r.ttl * SECOND, minTTL))
            && (Least(msg.answer, false).None? ==>
                  forall r <- msg.ns :: r.isSOA && r.minttl < MAX_U32 ==> d <= Max(r.minttl * SECOND, minTTL))
            && (Least(msg.answer, false).Some? || Least(msg.ns, true).Some? ==>
                  (maxTTL > 0 ==> d <= maxTTL) && (maxTTL <= 0 || minTTL <= maxTTL ==> minTTL <= d))
            && (Least(msg.answer, false).None? && Least(msg.ns, true).None? ==> d == 0)
  {
    LeastIsLeast(msg.answer, false);
    LeastIsLeast(msg.ns, true);
    forall r <- msg.answer ensures Counted(r, false) == Some(r.ttl) {}
    forall r <- msg.ns | r.isSOA ensures Counted(r, true) == Some(r.minttl) {}
  }

  /** An answer of TTL 2^32 - 1 is not cached, or, beside an SOA, kept for the SOA's
      minimum. */
  lemma GreatestTTLIsIgnored<D>(data: D, minttl: nat, maxTTL: int)
    requires minttl < MAX_U32 && (maxTTL <= 0 || minttl * SECOND <= maxTTL)
    ensures var answer := RR(MAX_U32, data, false, 0, false);
            var soa := RR(minttl, data, true, minttl, false);
            TTL(Msg([answer], [], []), 0, maxTTL) == 0 && TTL(Msg([answer], [soa], []), 0, maxTTL) == minttl * SECOND
  {
    var answer := RR(MAX_U32, data, false, 0, false);
    var soa := RR(minttl, data, true, minttl, false);
    assert [answer][..0] == [] && [soa][..0] == [];
    assert Least([answer], false) == None && Least([soa], true) == Some(minttl);
  }

  /** `adjustTTL` on one section. */
  method StampAll<D>(rrs: seq<RR<D>>, ttl: nat, skipOPT: bool) returns (out: seq<RR<D>>)
    ensures |out| == |rrs|
    ensures forall i | 0 <= i < |rrs| ::
              out[i] == if skipOPT && rrs[i].isOPT then rrs[i] else rrs[i].(ttl := ttl)
  {
    out := rrs;
    for i := 0 to |rrs|
      invariant |out| == |rrs|
      invariant forall j | 0 <= j < |rrs| ::
                  out[j] == if j < i && !(skipOPT && rrs[j].isOPT) then rrs[j].(ttl := ttl) else rrs[j]
    {
      if !(skipOPT && out[i].isOPT) { out := out[i := out[i].(ttl := ttl)]; }
    }
  }

  /** `out` is `msg` with every TTL set, except that an OPT record among the extras,
      whose TTL field holds flags, is left alone. */
  ghost predicate Stamped<D>(msg: Msg<D>, ttl: nat, out: Msg<D>) {
    && |out.answer| == |msg.answer| && |out.ns| == |msg.ns| && |out.extra| == |msg.extra|
    && (forall i | 0 <= i < |msg.answer| :: out.answer[i] == msg.answer[i].(ttl := ttl))
    && (forall i | 0 <= i < |msg.ns| :: out.ns[i] == msg.ns[i].(ttl := ttl))
    && (forall i | 0 <= i < |msg.extra| ::
          out.extra[i] == if msg.extra[i].isOPT then msg.extra[i] else msg.extra[i].(ttl := ttl))
  }

  method AdjustTTL<D>(msg: Msg<D>, ttl: nat) returns (out: Msg<D>)
    ensures Stamped(msg, ttl, out)
  {
    var a := StampAll(msg.answer, ttl, false);
    var n := StampAll(msg.ns, ttl, false);
    var e := StampAll(msg.extra, ttl, true);
    return Msg(a, n, e);
  }

  // ---------------------------------------------------------------- one entry

  datatype Verdict = Miss | Hit(ttl: nat, refresh: bool)

  /** What an entry is worth at time `now`. The TTL stamped on a fresh hit is the whole
      seconds left, as a 32-bit number. */
  function Judge<D>(e: Entry<D>, now: int): Verdict {
    if now > e.expiresAt + STALE_GRACE then Miss
    else if now > e.expiresAt then Hit(STALE_TTL, true)
    else
      var left := e.expiresAt - now;
      Hit((left / SECOND) % (MAX_U32 + 1), e.ttl > 0 && left <= e.ttl / REFRESH_DIVISOR)
  }

  /** Nothing is served past expiry + 30 s; a fresh hit's TTL is the whole seconds left, and it
      asks for a refresh exactly in the last tenth of its time; a stale hit's TTL is 30, and
      it always asks. */
  lemma JudgeIsHonest<D>(e: Entry<D>, now: int)
    ensures Judge(e, now).Hit? <==> now <= e.expiresAt + STALE_GRACE
    ensures Judge(e, now).Hit? && now <= e.expiresAt ==> Judge(e, now).ttl * SECOND <= e.expiresAt - now
    ensures Judge(e, now).Hit? && now <= e.expiresAt < now + 4_294_967_296 * 1_000_000_000 ==>
              e.expiresAt - now < (Judge(e, now).ttl + 1) * 1_000_000_000
    ensures Judge(e, now).Hit? && now <= e.expiresAt ==>
              (Judge(e, now).refresh <==> e.ttl > 0 && 10 * (e.expiresAt - now) <= e.ttl)
    ensures Judge(e, now).Hit? && now > e.expiresAt ==> Judge(e, now) == Hit(30, true)
    ensures forall later :: now <= later && Judge(e, later).Hit? ==> Judge(e, now).Hit?
  {
  }

  // ---------------------------------------------------------------- the sharded map

  /** The shards, with the plain map they stand for: the latest reply stored for each
      key, and the keys evicted since it was stored. */
  datatype Store<!K(==), D> = Store(
    shards: seq<map<K, Entry<D>>>,
    latest: map<K, Entry<D>>,
    evicted: set<K>)

  function ShardOf<K>(hash: K -> nat, k: K): (i: nat)
    ensures i < SHARDS
  {
    hash(k) % SHARDS
  }

  function Read<K, D>(s: Store<K, D>, hash: K -> nat, k: K): Option<Entry<D>>
    requires |s.shards| == SHARDS
  {
    if k in s.shards[ShardOf(hash, k)] then Some(s.shards[ShardOf(hash, k)][k]) else None
  }

  function Evicted<K, D>(items: map<K, Entry<D>>, cap: nat, k: K, victim: Option<K>): set<K> {
    if k !in items && |items| >= cap && victim.Some? then {victim.value} else {}
  }

  function Insert<K, D>(items: map<K, Entry<D>>, gone: set<K>, k: K, e: Entry<D>): map<K, Entry<D>> {
    (items - gone)[k := e]
  }

  /** `Set`'s critical section; `victim` is evicted if a new key meets a full shard. */
  ghost function Put<K, D>(s: Store<K, D>, hash: K -> nat, cap: nat, k: K, e: Entry<D>, victim: Option<K>): Store<K, D>
    requires |s.shards| == SHARDS
  {
    var i := ShardOf(hash, k);
    var gone := Evicted(s.shards[i], cap, k, victim);
    Store(s.shards[i := Insert(s.shards[i], gone, k, e)], s.latest[k := e], s.evicted + gone - {k})
  }

  /** The second critical section of a `Get` that judged its entry dead at `seen`. */
  ghost function Drop<K, D>(s: Store<K, D>, hash: K -> nat, k: K, seen: int): Store<K, D>
    requires |s.shards| == SHARDS
  {
    var i := ShardOf(hash, k);
    if k in s.shards[i] && seen > s.shards[i][k].expiresAt + STALE_GRACE
    then s.(shards := s.shards[i := s.shards[i] - {k}])
    else s
  }

  class Cache<K(==), D> {
    const hash: K -> nat
    const maxItems: nat
    const minTTL: int
    const maxTTL: int
    const shards: array<map<K, Entry<D>>>
    ghost var latest: map<K, Entry<D>>
    ghost var evicted: set<K>

    ghost function State(): Store<K, D>
      reads this, shards
    {
      Store(shards[..], latest, evicted)
    }

    ghost predicate Valid()
      reads this, shards
    {
      shards.Length == SHARDS && maxItems > 0
    }

    constructor (maxItems: int, minTTL: int, maxTTL: int, hash: K -> nat)
      ensures Valid() && fresh(shards) && this.hash == hash
      ensures State() == Store(seq(SHARDS, _ => map[]), map[], {})
      ensures var m := if maxItems <= 0 then 10_000 else maxItems;
              this.maxItems * SHARDS >= m > (this.maxItems - 1) * SHARDS
    {
      var m := if maxItems <= 0 then 10_000 else maxItems;
      this.maxItems := (m + SHARDS - 1) / SHARDS;
      this.minTTL, this.maxTTL, this.hash := minTTL, maxTTL, hash;
      this.shards := new map<K, Entry<D>>[SHARDS](_ => map[]);
      latest, evicted := map[], {};
    }

    /** First critical section of `Get`. */
    method Lookup(k: K) returns (e: Option<Entry<D>>)
      requires Valid()
      ensures e == Read(State(), hash, k)
    {
      var items := shards[ShardOf(hash, k)];
      if k in items { return Some(items[k]); }
      return None;
    }

    /** The delete of `Get`, re-checked under the write lock. */
    method DropExpired(k: K, seen: int)
      requires Valid()
      modifies shards
      ensures Valid() && State() == Drop(old(State()), hash, k, seen)
    {
      var i := ShardOf(hash, k);
      ghost var was := shards[..];
      if k in shards[i] && seen > shards[i][k].expiresAt + STALE_GRACE {
        shards[i] := shards[i] - {k};
        assert shards[..] == was[i := was[i] - {k}];
      }
    }

    /** `Get` without another goroutine in between. */
    method Get(k: K, now: int) returns (msg: Option<Msg<D>>, refresh: bool)
      requires Valid()
      modifies shards
      ensures Valid()
      ensures var e := Read(old(State()), hash, k);
              var v := if e.Some? then Judge(e.value, now) else Miss;
              && (msg.Some? <==> v.Hit?)
              && (v.Hit? ==> Stamped(e.value.msg, v.ttl, msg.value) && refresh == v.refresh && State() == old(State()))
              && (v.Miss? ==> State() == Drop(old(State()), hash, k, now))
    {
      var e := Lookup(k);
      if e.None? { return None, false; }
      if now > e.value.expiresAt + STALE_GRACE {
        DropExpired(k, now);
        return None, false;
      }
      if now > e.value.expiresAt {
        var m := AdjustTTL(e.value.msg, STALE_TTL);
        return Some(m), true;
      }
      var left := e.value.expiresAt - now;
      var m := AdjustTTL(e.value.msg, (left / SECOND) % (MAX_U32 + 1));
      return Some(m), e.value.ttl > 0 && left <= e.value.ttl / REFRESH_DIVISOR;
    }

    /** `evictLocked`'s choice: of the entries looked at (all, or 8), one nearest expiry. */
    method PickVictim(items: map<K, Entry<D>>) returns (victim: Option<K>, ghost sample: set<K>)
      ensures sample <= items.Keys && (sample == items.Keys || |sample| == EVICTION_SAMPLE)
      ensures victim.Some? <==> items != map[]
      ensures victim.Some? ==> victim.value in sample
                               && forall k <- sample :: items[victim.value].expiresAt <= items[k].expiresAt
    {
      victim, sample := None, {};
      var todo := items.Keys;
      var n := 0;
      while todo != {} && n < EVICTION_SAMPLE
        invariant n == |sample| <= EVICTION_SAMPLE && sample !! todo && sample + todo == items.Keys
        invariant victim.Some? <==> sample != {}
        invariant victim.Some? ==> victim.value in sample
                                   && forall k <- sample :: items[victim.value].expiresAt <= items[k].expiresAt
        decreases |todo|
      {
        var k :| k in todo;
        if victim.None? || items[k].expiresAt < items[victim.value].expiresAt { victim := Some(k); }
        n, todo, sample := n + 1, todo - {k}, sample + {k};
      }
    }

    /** The critical section of `Set`. */
    method StoreEntry(k: K, e: Entry<D>) returns (ghost victim: Option<K>)
      requires Valid()
      modifies this, shards
      ensures Valid() && State() == Put(old(State()), hash, maxItems, k, e, victim)
      ensures var items := old(shards[ShardOf(hash, k)]);
              k !in items && |items| >= maxItems ==> victim.Some? && victim.value in items
    {
      victim := None;
      var i := ShardOf(hash, k);
      ghost var was := shards[..];
      var items := shards[i];
      if k !in items && |items| >= maxItems {
        var pick, _ := PickVictim(items);
        victim := pick;
        if pick.Some? { items := items - {pick.value}; }
      }
      ghost var gone := Evicted(was[i], maxItems, k, victim);
      assert was[i] - {} == was[i];
      assert items == was[i] - gone;
      shards[i] := items[k := e];
      assert shards[..] == was[i := Insert(was[i], gone, k, e)];
      latest := latest[k := e];
      evicted := evicted + gone - {k};
    }

    /** `Set` at time `now`; a nil message or one without a TTL changes nothing. */
    method Set(k: K, msg: Option<Msg<D>>, now: int) returns (ghost victim: Option<K>)
      requires Valid()
      modifies this, shards
      ensures Valid()
      ensures State() == if msg.Some? && TTL(msg.value, minTTL, maxTTL) > 0
                         then Put(old(State()), hash, maxItems, k,
                                  Entry(msg.value, now + TTL(msg.value, minTTL, maxTTL),
                                      TTL(msg.value, minTTL, maxTTL)),
                                  victim)
                         else old(State())
      ensures var items := old(shards[ShardOf(hash, k)]);
              msg.Some? && TTL(msg.value, minTTL, maxTTL) > 0 && k !in items && |items| >= maxItems ==>
                victim.Some? && victim.value in items
    {
      victim := None;
      if msg.None? { return; }
      var d := TTLFor(msg.value, minTTL, maxTTL);
      if d <= 0 { return; }
      victim := StoreEntry(k, Entry(msg.value, now + d, d));
    }
  }

  // ---------------------------------------------------------------- interleaved Get and Set

  type Thread = nat

  /** A `Get` under way: it read its entry, then the clock, and then returns, after the
      delete if it judged the entry dead. `was`, `gone` and `at` record the plain map when
      it looked: the latest reply stored, whether that was evicted since, and the time. */
  datatype Getting<!K(==), D> =
    | Looked(k: K, e: Option<Entry<D>>, was: Option<Entry<D>>, gone: bool, at: int)
    | Judged(k: K, e: Option<Entry<D>>, was: Option<Entry<D>>, gone: bool, at: int, seen: int)

  datatype World<!K(==), D> = World(s: Store<K, D>, now: int, gets: map<Thread, Getting<K, D>>)

  datatype Step<!K(==), D> =
    | Stores(k: K, msg: Msg<D>, ttl: int, victim: Option<K>)
    | Looks(t: Thread, k: K)
    | ReadsClock(t: Thread)
    | Deletes(t: Thread)
    | Returns(t: Thread)
    | Tick(to: int)

  function Empty<K(!new), D>(now: int): World<K, D> { World(Store(seq(SHARDS, _ => map[]), map[], {}), now, map[]) }

  /** The entry it read is past its grace. */
  ghost predicate Dead<K, D>(g: Getting<K, D>)
    requires g.Judged?
  {
    g.e.Some? && Judge(g.e.value, g.seen) == Miss
  }

  ghost predicate Enabled<K(!new), D>(w: World<K, D>, hash: K -> nat, cap: nat, s: Step<K, D>) {
    && |w.s.shards| == SHARDS
    && match s {
         case Stores(k, _, ttl, victim) =>
           var items := w.s.shards[ShardOf(hash, k)];
           ttl > 0 && (k !in items && |items| >= cap ==> victim.Some? && victim.value in items)
         case Looks(t, _) => t !in w.gets
         case ReadsClock(t) => t in w.gets && w.gets[t].Looked?
         case Deletes(t) => t in w.gets && w.gets[t].Judged? && Dead(w.gets[t])
         case Returns(t) => t in w.gets && w.gets[t].Judged? && !Dead(w.gets[t])
         case Tick(to) => w.now <= to
       }
  }

  ghost function Next<K(!new), D>(w: World<K, D>, hash: K -> nat, cap: nat, s: Step<K, D>): World<K, D>
    requires Enabled(w, hash, cap, s)
  {
    match s
    case Stores(k, msg, ttl, victim) => w.(s := Put(w.s, hash, cap, k, Entry(msg, w.now + ttl, ttl), victim))
    case Looks(t, k) =>
      w.(gets := w.gets[t := Looked(k, Read(w.s, hash, k), Plain(w.s.latest, k), k in w.s.evicted, w.now)])
    case ReadsClock(t) =>
      var g := w.gets[t];
      w.(gets := w.gets[t := Judged(g.k, g.e, g.was, g.gone, g.at, w.now)])
    case Deletes(t) => w.(s := Drop(w.s, hash, w.gets[t].k, w.gets[t].seen), gets := w.gets - {t})
    case Returns(t) => w.(gets := w.gets - {t})
    case Tick(to) => w.(now := to)
  }

  ghost predicate Possible<K(!new), D>(w: World<K, D>, hash: K -> nat, cap: nat, run: seq<Step<K, D>>)
    decreases |run|
  {
    run == [] || (Enabled(w, hash, cap, run[0]) && Possible(Next(w, hash, cap, run[0]), hash, cap, run[1..]))
  }

  ghost function After<K(!new), D>(w: World<K, D>, hash: K -> nat, cap: nat, run: seq<Step<K, D>>): World<K, D>
    requires Possible(w, hash, cap, run)
    decreases |run|
  {
    if run == [] then w else After(Next(w, hash, cap, run[0]), hash, cap, run[1..])
  }

  /** One shard: within its cap, and holding only its own keys' latest replies. */
  ghost predicate ShardFine<K(!new), D>(w: World<K, D>, hash: K -> nat, cap: nat, i: nat)
    requires i < |w.s.shards|
  {
    && |w.s.shards[i]| <= cap
    && forall k <- w.s.shards[i] ::
         ShardOf(hash, k) == i && k in w.s.latest && w.s.latest[k] == w.s.shards[i][k] && k !in w.s.evicted
  }

  /** A stored key is only missing if it was evicted or is past its grace. */
  ghost predicate Accounted<K(!new), D>(w: World<K, D>, hash: K -> nat)
    requires |w.s.shards| == SHARDS
  {
    forall k <- w.s.latest ::
      || k in w.s.shards[ShardOf(hash, k)]
      || k in w.s.evicted
      || w.now > w.s.latest[k].expiresAt + STALE_GRACE
  }

  ghost predicate Inv<K(!new), D>(w: World<K, D>, hash: K -> nat, cap: nat) {
    && |w.s.shards| == SHARDS
    && (forall i: nat | i < SHARDS :: ShardFine(w, hash, cap, i))
    && Accounted(w, hash)
    && (forall t <- w.gets :: GetFine(w.gets[t], w.now))
  }

  /** What a `Get` read is the latest reply, or that one was evicted, or past its grace, or
      there was none. */
  ghost predicate GetFine<K, D>(g: Getting<K, D>, now: int) {
    && g.at <= now && (g.Judged? ==> g.at <= g.seen <= now)
    && (g.e.Some? ==> g.e == g.was && !g.gone)
    && (g.e.None? && g.was.Some? && !g.gone ==> g.at > g.was.value.expiresAt + STALE_GRACE)
  }

  lemma PutSize<K, D>(items: map<K, Entry<D>>, k: K, e: Entry<D>, cap: nat, victim: Option<K>)
    requires 0 < cap && |items| <= cap
    requires k !in items && |items| >= cap ==> victim.Some? && victim.value in items
    ensures |Insert(items, Evicted(items, cap, k, victim), k, e)| <= cap
  {
    var gone := Evicted(items, cap, k, victim);
    assert (items - gone).Keys == items.Keys - gone;
    assert (items - gone)[k := e].Keys == items.Keys - gone + {k};
    if k in items {
      assert items.Keys - gone + {k} == items.Keys;
    } else if |items| >= cap {
      assert |items.Keys - gone| == |items.Keys| - 1;
    } else {
      assert items.Keys - gone == items.Keys;
    }
  }

  lemma StoreKeepsInv<K(!new), D>(w: World<K, D>, hash: K -> nat, cap: nat, k: K, msg: Msg<D>, ttl: int,
                        victim: Option<K>)
    requires cap > 0 && Inv(w, hash, cap) && Enabled(w, hash, cap, Stores(k, msg, ttl, victim))
    ensures Inv(Next(w, hash, cap, Stores(k, msg, ttl, victim)), hash, cap)
  {
    var e := Entry(msg, w.now + ttl, ttl);
    PutKeepsShards(w, hash, cap, k, e, victim);
    PutKeepsAccounts(w, hash, cap, k, e, victim);
  }

  /** A shard after a store: the key's own, or another. */
  lemma PutKeepsShard<K(!new), D>(w: World<K, D>, hash: K -> nat, cap: nat, k: K, e: Entry<D>, victim: Option<K>,
                        i: nat)
    requires cap > 0 && |w.s.shards| == SHARDS && i < SHARDS && ShardFine(w, hash, cap, i)
    requires var items := w.s.shards[ShardOf(hash, k)];
             && (forall j <- items :: ShardOf(hash, j) == ShardOf(hash, k))
             && (k !in items && |items| >= cap ==> victim.Some? && victim.value in items)
    ensures ShardFine(w.(s := Put(w.s, hash, cap, k, e, victim)), hash, cap, i)
  {
    if i == ShardOf(hash, k) { PutSize(w.s.shards[i], k, e, cap, victim); }
  }

  lemma PutKeepsShards<K(!new), D>(w: World<K, D>, hash: K -> nat, cap: nat, k: K, e: Entry<D>, victim: Option<K>)
    requires cap > 0 && |w.s.shards| == SHARDS && forall i: nat | i < SHARDS :: ShardFine(w, hash, cap, i)
    requires var items := w.s.shards[ShardOf(hash, k)];
             k !in items && |items| >= cap ==> victim.Some? && victim.value in items
    ensures var v := w.(s := Put(w.s, hash, cap, k, e, victim));
            |v.s.shards| == SHARDS && forall i: nat | i < SHARDS :: ShardFine(v, hash, cap, i)
  {
    var v := w.(s := Put(w.s, hash, cap, k, e, victim));
    assert ShardFine(w, hash, cap, ShardOf(hash, k));
    forall i: nat | i < SHARDS ensures ShardFine(v, hash, cap, i) {
      assert ShardFine(w, hash, cap, i);
      PutKeepsShard(w, hash, cap, k, e, victim, i);
    }
  }

  lemma PutKeepsAccounts<K(!new), D>(w: World<K, D>, hash: K -> nat, cap: nat, k: K, e: Entry<D>, victim: Option<K>)
    requires |w.s.shards| == SHARDS && Accounted(w, hash)
    ensures Accounted(w.(s := Put(w.s, hash, cap, k, e, victim)), hash)
  {
  }

  lemma DeleteKeepsInv<K(!new), D>(w: World<K, D>, hash: K -> nat, cap: nat, t: Thread)
    requires Inv(w, hash, cap) && Enabled(w, hash, cap, Deletes(t))
    ensures Inv(Next(w, hash, cap, Deletes(t)), hash, cap)
  {
    var v := Next(w, hash, cap, Deletes(t));
    var k := w.gets[t].k;
    var j := ShardOf(hash, k);
    assert ShardFine(w, hash, cap, j);
    if v.s != w.s {
      assert v.s.shards[j].Keys == w.s.shards[j].Keys - {k};
      assert |v.s.shards[j].Keys| <= |w.s.shards[j].Keys|;
    }
    forall i: nat | i < SHARDS ensures ShardFine(v, hash, cap, i) {
      assert ShardFine(w, hash, cap, i);
    }
  }

  lemma LooksKeepsInv<K(!new), D>(w: World<K, D>, hash: K -> nat, cap: nat, t: Thread, k: K)
    requires Inv(w, hash, cap) && Enabled(w, hash, cap, Looks(t, k))
    ensures Inv(Next(w, hash, cap, Looks(t, k)), hash, cap)
  {
    var v := Next(w, hash, cap, Looks(t, k));
    assert ShardFine(w, hash, cap, ShardOf(hash, k));
    forall i: nat | i < SHARDS ensures ShardFine(v, hash, cap, i) {
      assert ShardFine(w, hash, cap, i);
    }
  }

  lemma {:induction false} RunKeepsInv<K(!new), D>(w: World<K, D>, hash: K -> nat, cap: nat, run: seq<Step<K, D>>)
    requires cap > 0 && Inv(w, hash, cap) && Possible(w, hash, cap, run)
    ensures Inv(After(w, hash, cap, run), hash, cap)
    decreases |run|
  {
    if run != [] {
      var v := Next(w, hash, cap, run[0]);
      match run[0] {
        case Stores(k, msg, ttl, victim) => StoreKeepsInv(w, hash, cap, k, msg, ttl, victim);
        case Deletes(t) => DeleteKeepsInv(w, hash, cap, t);
        case Looks(t, k) => LooksKeepsInv(w, hash, cap, t, k);
        case _ => forall i: nat | i < SHARDS ensures ShardFine(v, hash, cap, i) { assert ShardFine(w, hash, cap, i); }
      }
      RunKeepsInv(v, hash, cap, run[1..]);
    }
  }

  function Answer<D>(e: Option<Entry<D>>, now: int): Verdict { if e.Some? then Judge(e.value, now) else Miss }

  function Plain<K, D>(latest: map<K, Entry<D>>,
                       k: K): Option<Entry<D>> { if k in latest then Some(latest[k]) else None }

  /** The cache is a plain map with eviction: in every interleaving, at every moment, a
      lookup is worth exactly what the latest stored reply for its key is worth, unless
      the key was evicted since, and then it misses. Each shard stays within its cap. */
  lemma CacheIsPlainMap<K(!new), D>(hash: K -> nat, cap: nat, begin: int, run: seq<Step<K, D>>, k: K)
    requires cap > 0 && Possible(Empty<K, D>(begin), hash, cap, run)
    ensures var w := After(Empty<K, D>(begin), hash, cap, run);
            && |w.s.shards| == SHARDS && (forall i: nat | i < SHARDS :: |w.s.shards[i]| <= cap)
            && (Read(w.s, hash, k).Some? ==> Read(w.s, hash, k) == Plain(w.s.latest, k))
            && Answer(Read(w.s, hash, k), w.now) ==
               if k in w.s.evicted then Miss else Answer(Plain(w.s.latest, k), w.now)
  {
    forall i: nat | i < SHARDS ensures ShardFine(Empty<K, D>(begin), hash, cap, i) {}
    RunKeepsInv(Empty<K, D>(begin), hash, cap, run);
    var w := After(Empty<K, D>(begin), hash, cap, run);
    assert ShardFine(w, hash, cap, ShardOf(hash, k));
    forall i: nat | i < SHARDS ensures |w.s.shards[i]| <= cap { assert ShardFine(w, hash, cap, i); }
  }

  /** In every interleaving a `Get` answers what the reply that was the latest when it looked
      is worth at its own reading of the clock; it misses only if that one had been evicted,
      is past its grace, or there was none. */
  lemma GetAnswersLatest<K(!new), D>(hash: K -> nat, cap: nat, begin: int, run: seq<Step<K, D>>, t: Thread)
    requires cap > 0 && Possible(Empty<K, D>(begin), hash, cap, run)
    ensures var w := After(Empty<K, D>(begin), hash, cap, run);
            t in w.gets && w.gets[t].Judged? ==>
              var g := w.gets[t];
              && Answer(g.e, g.seen) == (if g.gone then Miss else Answer(g.was, g.seen))
              && (Answer(g.e, g.seen) == Miss <==>
                  g.gone || g.was.None? || g.seen > g.was.value.expiresAt + STALE_GRACE)
  {
    forall i: nat | i < SHARDS ensures ShardFine(Empty<K, D>(begin), hash, cap, i) {}
    RunKeepsInv(Empty<K, D>(begin), hash, cap, run);
    var w := After(Empty<K, D>(begin), hash, cap, run);
    if t in w.gets && w.gets[t].Judged? { assert GetFine(w.gets[t], w.now); }
  }

  /** The re-checked delete never removes an entry that can still be served. */
  lemma DeleteSparesRefreshed<K(!new), D>(w: World<K, D>, hash: K -> nat, cap: nat, t: Thread)
    requires Inv(w, hash, cap) && Enabled(w, hash, cap, Deletes(t))
    ensures var e := Read(w.s, hash, w.gets[t].k);
            Answer(e, w.now).Hit? ==> Next(w, hash, cap, Deletes(t)).s == w.s
  {
  }
}
