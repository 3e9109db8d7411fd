/** The pool of pipelined connections to one stream upstream
    (internal/resolver/pipeline.go): slot accounting, the learned per-connection
    limit with its ceiling, and the wake-up channel that waiting queries sleep on.

    `Pool` holds what `pipePool.mu` guards; each function on it is one critical
    section of the source. The class `PipePool` runs those sections on fields, and
    the lemmas below reason about every interleaving of them. Times are
    milliseconds. */
module PipePools {
  import opened Wrappers

  const START_INFLIGHT: nat := 2
  const MAX_INFLIGHT: nat := 64
  const CAPACITY: nat := 64
  const MIN_CONNS: nat := 8
  const MAX_DIALS: nat := 8
  const DIAL_BACKOFF := 1_000
  const CEILING_TTL := 600_000

  type ConnId = nat
  type QueryId = nat

  /** `freed` counts the wake-up channels made so far: every earlier one is closed. */
  datatype Pool = Pool(
    conns: seq<ConnId>,
    load: map<ConnId, nat>,
    counted: set<ConnId>,
    dead: set<ConnId>,
    dialing: nat,
    dialErrAt: Option<int>,
    freed: nat,
    limit: nat,
    learned: bool,
    grown: nat,
    ceiling: nat,
    ceilingUntil: int)

  const FRESH := Pool([], map[], {}, {}, 0, None, 0, START_INFLIGHT, false, 0, 0, 0)

  /** How one pass through `get` ends. */
  datatype Outcome =
    | Reserved(conn: ConnId, atLimit: bool)
    | FailFast
    | Dialing(limit: nat)
    | Wait(channel: nat)

  function Min(a: nat, b: nat): nat { if a < b then a else b }

  function Max(a: nat, b: nat): nat { if a < b then b else a }

  function MaxLimit(p: Pool, now: int): nat {
    if now < p.ceilingUntil then p.ceiling else MAX_INFLIGHT
  }

  function Limit(p: Pool, now: int): nat { Min(p.limit, MaxLimit(p, now)) }

  function MaxConns(limit: nat): nat {
    Max(MIN_CONNS, Min(CAPACITY, CAPACITY / Max(1, limit)))
  }

  function LoadOf(load: map<ConnId, nat>, c: ConnId): nat { if c in load then load[c] else 0 }

  predicate Kept(p: Pool, quiet: set<ConnId>, c: ConnId) {
    c !in p.dead && !(LoadOf(p.load, c) == 0 && c in quiet)
  }

  ghost predicate Wired(p: Pool) {
    forall i :: 0 <= i < |p.conns| ==> p.conns[i] in p.load
  }

  /** The connections that stay after dropping dead ones and idle ones gone quiet. */
  function Live(p: Pool, quiet: set<ConnId>, conns: seq<ConnId>): seq<ConnId> {
    if conns == [] then []
    else
      var c := conns[|conns| - 1];
      Live(p, quiet, conns[..|conns| - 1]) + (if Kept(p, quiet, c) then [c] else [])
  }

  lemma {:induction false} LiveMeaning(p: Pool, quiet: set<ConnId>, conns: seq<ConnId>)
    ensures |Live(p, quiet, conns)| <= |conns|
    ensures forall c :: c in Live(p, quiet, conns) <==> c in conns && Kept(p, quiet, c)
  {
    if conns != [] { LiveMeaning(p, quiet, conns[..|conns| - 1]); }
  }

  /** The first connection of least load. */
  function LeastOf(load: map<ConnId, nat>, live: seq<ConnId>): Option<ConnId> {
    if live == [] then None
    else
      var last := live[|live| - 1];
      var best := LeastOf(load, live[..|live| - 1]);
      if best.None? || LoadOf(load, last) < LoadOf(load, best.value) then Some(last) else best
  }

  lemma {:induction false} LeastMeaning(load: map<ConnId, nat>, live: seq<ConnId>)
    ensures LeastOf(load, live).None? <==> live == []
    ensures LeastOf(load, live).Some? ==>
              LeastOf(load, live).value in live
              && forall c <- live :: LoadOf(load, LeastOf(load, live).value) <= LoadOf(load, c)
  {
    if live != [] { LeastMeaning(load, live[..|live| - 1]); }
  }

  /** The idle connections gone quiet, which are closed. */
  function Closed(p: Pool, quiet: set<ConnId>, conns: seq<ConnId>): set<ConnId> {
    if conns == [] then {}
    else
      var c := conns[|conns| - 1];
      Closed(p, quiet, conns[..|conns| - 1]) + (if Quiet(p, quiet, p.dead, c) then {c} else {})
  }

  lemma {:induction false} ClosedIsNotKept(p: Pool, quiet: set<ConnId>, conns: seq<ConnId>, c: ConnId)
    requires c in Closed(p, quiet, conns)
    ensures !Kept(p, quiet, c)
  {
    if c in Closed(p, quiet, conns[..|conns| - 1]) { ClosedIsNotKept(p, quiet, conns[..|conns| - 1], c); }
  }

  predicate Quiet(p: Pool, quiet: set<ConnId>, dead: set<ConnId>, c: ConnId) {
    c !in dead && LoadOf(p.load, c) == 0 && c in quiet
  }

  function Reap(p: Pool, quiet: set<ConnId>): Pool {
    p.(conns := Live(p, quiet, p.conns), dead := p.dead + Closed(p, quiet, p.conns))
  }

  lemma LiveOne(p: Pool, quiet: set<ConnId>, all: seq<ConnId>, i: nat)
    requires i < |all|
    ensures Live(p, quiet, all[..i + 1]) ==
            Live(p, quiet, all[..i]) + (if Kept(p, quiet, all[i]) then [all[i]] else [])
  {
    assert all[..i + 1][..i] == all[..i];
  }

  /** Closing one connection more, whether or not it was met before. */
  lemma DeadOne(p: Pool, quiet: set<ConnId>, all: seq<ConnId>, i: nat)
    requires i < |all|
    ensures var dead := p.dead + Closed(p, quiet, all[..i]);
            && p.dead + Closed(p, quiet, all[..i + 1])
                == dead + (if Quiet(p, quiet, dead, all[i]) then {all[i]} else {})
            && (Kept(p, quiet, all[i]) <==> all[i] !in dead && !Quiet(p, quiet, dead, all[i]))
  {
    assert all[..i + 1][..i] == all[..i];
    if all[i] in Closed(p, quiet, all[..i]) { ClosedIsNotKept(p, quiet, all[..i], all[i]); }
  }

  lemma LeastOne(load: map<ConnId, nat>, live: seq<ConnId>, c: ConnId)
    ensures LeastOf(load, live + [c]) ==
            var best := LeastOf(load, live);
            if best.None? || LoadOf(load, c) < LoadOf(load, best.value) then Some(c) else best
  {
    assert (live + [c])[..|live|] == live;
  }

  /** What `get` does once it has the least loaded of the connections that stayed. */
  function Choose(r: Pool, best: Option<ConnId>, limit: nat, now: int): (Pool, Outcome) {
    if best.Some? && LoadOf(r.load, best.value) < limit then
      var n := LoadOf(r.load, best.value) + 1;
      (r.(load := r.load[best.value := n]), Reserved(best.value, n >= limit))
    else if best.None? && r.dialErrAt.Some? && r.dialing == 0 && now - r.dialErrAt.value < DIAL_BACKOFF then
      (r, FailFast)
    else if |r.conns| + r.dialing < MaxConns(limit) && r.dialing < MAX_DIALS then
      (r.(dialing := r.dialing + 1), Dialing(limit))
    else
      (r, Wait(r.freed))
  }

  /** First critical section of one `get` iteration. */
  function Get(p: Pool, now: int, quiet: set<ConnId>): (Pool, Outcome) {
    var r := Reap(p, quiet);
    Choose(r, LeastOf(r.load, r.conns), Limit(p, now), now)
  }

  /** Second critical section: the dial came back with a connection. */
  function DialOk(p: Pool, c: ConnId, limit: nat): (Pool, Outcome)
    requires p.dialing > 0
  {
    (p.(dialing := p.dialing - 1, freed := p.freed + 1, dialErrAt := None,
        load := p.load[c := 1], conns := p.conns + [c]),
     Reserved(c, limit <= 1))
  }

  /** Second critical section: the dial failed. */
  function DialFailed(p: Pool, now: int): (Pool, Outcome)
    requires p.dialing > 0
  {
    var q := p.(dialing := p.dialing - 1, freed := p.freed + 1, dialErrAt := Some(now));
    (q, if |q.conns| == 0 then FailFast else Wait(q.freed))
  }

  predicate CountedDrop(p: Pool, c: ConnId, dropped: bool)
    requires c in p.load
  {
    dropped && p.load[c] >= 2 && c !in p.counted
  }

  /** What a counted drop teaches. */
  function Learn(q: Pool, c: ConnId, inflight: nat, now: int): Pool
    requires inflight > 0
  {
    q.(counted := q.counted + {c}, learned := true, limit := Max(1, inflight / 2),
       ceiling := Max(1, inflight - 1), ceilingUntil := now + CEILING_TTL, grown := 0)
  }

  function Release(p: Pool, c: ConnId, ok: bool, atLimit: bool, dropped: bool, now: int): Pool
    requires c in p.load && p.load[c] > 0
  {
    var inflight := p.load[c];
    var q := p.(load := p.load[c := inflight - 1], freed := p.freed + 1);
    if CountedDrop(p, c, dropped) then Learn(q, c, inflight, now)
    else if !ok || !atLimit then q
    else Grow(q, now)
  }

  /** One success at the limit; after as many as the limit, it grows. */
  function Grow(q: Pool, now: int): Pool {
    if q.grown + 1 < q.limit then q.(grown := q.grown + 1)
    else
      var next := if q.learned then q.limit + 1 else q.limit * 2;
      q.(grown := 0, limit := Min(next, MaxLimit(q, now)))
  }

  /** The same sections on the source's fields. */
  class PipePool {
    var conns: seq<ConnId>
    var load: map<ConnId, nat>
    var counted: set<ConnId>
    var dead: set<ConnId>
    var dialing: nat
    var dialErrAt: Option<int>
    var freed: nat
    var limit: nat
    var learned: bool
    var grown: nat
    var ceiling: nat
    var ceilingUntil: int

    ghost function State(): Pool
      reads this
    {
      Pool(conns, load, counted, dead, dialing, dialErrAt, freed, limit, learned, grown, ceiling, ceilingUntil)
    }

    constructor ()
      ensures State() == FRESH
    {
      conns, load, counted, dead := [], map[], {}, {};
      dialing, dialErrAt, freed := 0, None, 0;
      limit, learned, grown, ceiling, ceilingUntil := START_INFLIGHT, false, 0, 0, 0;
    }

    method MaxLimitLocked(now: int) returns (m: nat)
      ensures m == MaxLimit(State(), now)
    {
      if now < ceilingUntil { return ceiling; }
      return MAX_INFLIGHT;
    }

    method LimitLocked(now: int) returns (l: nat)
      ensures l == Limit(State(), now)
    {
      var m := MaxLimitLocked(now);
      return Min(limit, m);
    }

    method SignalLocked()
      modifies this`freed
      ensures freed == old(freed) + 1
    {
      freed := freed + 1;
    }

    /** One turn of the scan: whether `c` stays. */
    method ScanOne(c: ConnId, quiet: set<ConnId>) returns (stays: bool)
      modifies this`dead
      ensures stays == (c !in old(dead) && !Quiet(old(State()), quiet, old(dead), c))
      ensures dead == old(dead) + (if Quiet(old(State()), quiet, old(dead), c) then {c} else {})
    {
      if c in dead { return false; }
      if LoadOf(load, c) == 0 && c in quiet {
        dead := dead + {c};
        return false;
      }
      return true;
    }

    method LeastLoadedLocked(quiet: set<ConnId>) returns (best: Option<ConnId>)
      modifies this`conns, this`dead
      ensures State() == Reap(old(State()), quiet)
      ensures best == LeastOf(load, conns)
    {
      ghost var p := State();
      var all := conns;
      var live: seq<ConnId> := [];
      best := None;
      for i := 0 to |all|
        invariant live == Live(p, quiet, all[..i])
        invariant best == LeastOf(p.load, Live(p, quiet, all[..i]))
        invariant dead == p.dead + Closed(p, quiet, all[..i])
      {
        var c := all[i];
        LiveOne(p, quiet, all, i);
        DeadOne(p, quiet, all, i);
        var stays := ScanOne(c, quiet);
        if !stays { continue; }
        LeastOne(p.load, live, c);
        live := live + [c];
        if best.None? || LoadOf(load, c) < LoadOf(load, best.value) { best := Some(c); }
      }
      assert all[..|all|] == all;
      conns := live;
    }

    method GetLocked(now: int, quiet: set<ConnId>) returns (out: Outcome)
      modifies this
      ensures (State(), out) == Get(old(State()), now, quiet)
    {
      var limit := LimitLocked(now);
      var best := LeastLoadedLocked(quiet);
      if best.Some? && LoadOf(load, best.value) < limit {
        load := load[best.value := LoadOf(load, best.value) + 1];
        return Reserved(best.value, load[best.value] >= limit);
      }
      if best.None? && dialErrAt.Some? && dialing == 0 && now - dialErrAt.value < DIAL_BACKOFF {
        return FailFast;
      }
      if |conns| + dialing < MaxConns(limit) && dialing < MAX_DIALS {
        dialing := dialing + 1;
        return Dialing(limit);
      }
      return Wait(freed);
    }

    method DialDone(conn: Option<ConnId>, limit: nat, now: int) returns (out: Outcome)
      requires dialing > 0
      modifies this
      ensures (State(), out) ==
              if conn.Some? then DialOk(old(State()), conn.value, limit) else DialFailed(old(State()), now)
    {
      dialing := dialing - 1;
      SignalLocked();
      if conn.Some? {
        dialErrAt := None;
        load := load[conn.value := 1];
        conns := conns + [conn.value];
        return Reserved(conn.value, limit <= 1);
      }
      dialErrAt := Some(now);
      if |conns| == 0 { return FailFast; }
      return Wait(freed);
    }

    method ReleaseSlot(c: ConnId, ok: bool, atLimit: bool, dropped: bool, now: int)
      requires c in load && load[c] > 0
      modifies this
      ensures State() == Release(old(State()), c, ok, atLimit, dropped, now)
    {
      var inflight := load[c];
      load := load[c := load[c] - 1];
      SignalLocked();
      if dropped && inflight >= 2 && c !in counted {
        LearnLocked(c, inflight, now);
        return;
      }
      if !ok || !atLimit { return; }
      GrowLocked(now);
    }

    /** The counted drop of `release`. */
    method LearnLocked(c: ConnId, inflight: nat, now: int)
      requires inflight > 0
      modifies this`counted, this`learned, this`limit, this`ceiling, this`ceilingUntil, this`grown
      ensures State() == Learn(old(State()), c, inflight, now)
    {
      counted := counted + {c};
      learned := true;
      limit := Max(1, inflight / 2);
      ceiling := Max(1, inflight - 1);
      ceilingUntil := now + CEILING_TTL;
      grown := 0;
    }

    /** The end of `release`. */
    method GrowLocked(now: int)
      modifies this`grown, this`limit
      ensures State() == Grow(old(State()), now)
    {
      grown := grown + 1;
      if grown < limit { return; }
      grown := 0;
      var next := limit + 1;
      if !learned { next := limit * 2; }
      var m := MaxLimitLocked(now);
      limit := Min(next, m);
    }
  }

  // ---------------------------------------------------------------- all interleavings

  datatype Hold = Hold(conn: ConnId, atLimit: bool)
  datatype Sleep = Sleep(channel: nat, afterFailedDial: bool)

  /** The pool with the queries around it: those holding a slot, those waiting on a
      wake-up channel, and those dialing (with the limit they read first). */
  datatype World = World(
    p: Pool,
    now: int,
    holders: map<QueryId, Hold>,
    waiters: map<QueryId, Sleep>,
    dialers: map<QueryId, nat>)

  const START := World(FRESH, 0, map[], map[], map[])

  datatype Step =
    | Ask(q: QueryId, quiet: set<ConnId>)
    | Opened(q: QueryId, c: ConnId)
    | OpenFailed(q: QueryId)
    | Done(q: QueryId, ok: bool, dropped: bool)
    | Woken(q: QueryId)
    | GaveUp(q: QueryId)
    | Dies(c: ConnId)
    | Tick(to: int)

  predicate Idle(w: World, q: QueryId) {
    q !in w.holders && q !in w.waiters && q !in w.dialers
  }

  ghost predicate Enabled(w: World, s: Step) {
    match s
    case Ask(q, _) => Idle(w, q)
    case Opened(q, c) => q in w.dialers && w.p.dialing > 0 && c !in w.p.load && c !in w.p.conns
    case OpenFailed(q) => q in w.dialers && w.p.dialing > 0
    case Done(q, _, _) => q in w.holders && w.holders[q].conn in w.p.load && w.p.load[w.holders[q].conn] > 0
    case Woken(q) => q in w.waiters && w.waiters[q].channel < w.p.freed
    case GaveUp(q) => q in w.waiters
    case Dies(_) => true
    case Tick(to) => w.now <= to
  }

  function Without<T>(m: map<QueryId, T>, q: QueryId): map<QueryId, T> { m - {q} }

  /** Books a finished `get` section for query q. */
  function Book(w: World, q: QueryId, r: (Pool, Outcome), afterFailedDial: bool): World {
    var v := w.(p := r.0);
    match r.1
    case Reserved(c, atLimit) => v.(holders := v.holders[q := Hold(c, atLimit)])
    case FailFast => v
    case Dialing(limit) => v.(dialers := v.dialers[q := limit])
    case Wait(channel) => v.(waiters := v.waiters[q := Sleep(channel, afterFailedDial)])
  }

  ghost function Next(w: World, s: Step): World
    requires Enabled(w, s)
  {
    match s
    case Ask(q, quiet) => Book(w, q, Get(w.p, w.now, quiet), false)
    case Opened(q, c) => Book(w.(dialers := Without(w.dialers, q)), q, DialOk(w.p, c, w.dialers[q]), false)
    case OpenFailed(q) => Book(w.(dialers := Without(w.dialers, q)), q, DialFailed(w.p, w.now), true)
    case Done(q, ok, dropped) =>
      var h := w.holders[q];
      w.(p := Release(w.p, h.conn, ok, h.atLimit, dropped, w.now), holders := Without(w.holders, q))
    case Woken(q) => w.(waiters := Without(w.waiters, q))
    case GaveUp(q) => w.(waiters := Without(w.waiters, q))
    case Dies(c) => w.(p := w.p.(dead := w.p.dead + {c}))
    case Tick(to) => w.(now := to)
  }

  ghost predicate Possible(w: World, run: seq<Step>)
    decreases |run|
  {
    run == [] || (Enabled(w, run[0]) && Possible(Next(w, run[0]), run[1..]))
  }

  ghost function After(w: World, run: seq<Step>): World
    requires Possible(w, run)
    decreases |run|
  {
    if run == [] then w else After(Next(w, run[0]), run[1..])
  }

  function HoldersOf(holders: map<QueryId, Hold>, c: ConnId): set<QueryId> {
    set q | q in holders && holders[q].conn == c
  }

  /** Each connection's load is its number of unreleased queries, at most 64. */
  ghost predicate Slots(load: map<ConnId, nat>, holders: map<QueryId, Hold>) {
    && (forall c <- load :: load[c] == |HoldersOf(holders, c)| <= MAX_INFLIGHT)
    && (forall q <- holders :: holders[q].conn in load)
  }

  /** Dials and connections stay in bounds, the learned limit stays a limit. */
  ghost predicate Bounded(p: Pool, now: int) {
    && Wired(p)
    && p.dialing <= MAX_DIALS
    && |p.conns| + p.dialing <= CAPACITY
    && 1 <= p.limit <= MAX_INFLIGHT
    && p.grown < p.limit
    && (p.ceilingUntil <= now || 1 <= p.ceiling < MAX_INFLIGHT)
  }

  ghost predicate Accounted(w: World) {
    Slots(w.p.load, w.holders) && Bounded(w.p, w.now) && w.p.dialing == |w.dialers|
  }

  /** A waiter's channel is current or closed, and a query that went to sleep because
      every slot was taken always has someone left to wake it. */
  ghost predicate Wakeable(w: World) {
    forall q <- w.waiters ::
      && w.waiters[q].channel <= w.p.freed
      && (w.waiters[q].channel == w.p.freed && !w.waiters[q].afterFailedDial ==>
            w.holders != map[] || w.dialers != map[])
  }

  ghost predicate Inv(w: World) { Accounted(w) && Wakeable(w) }

  lemma HolderAdded(holders: map<QueryId, Hold>, q: QueryId, h: Hold)
    requires q !in holders
    ensures forall c :: HoldersOf(holders[q := h], c) ==
                        if c == h.conn then HoldersOf(holders, c) + {q} else HoldersOf(holders, c)
    ensures |HoldersOf(holders[q := h], h.conn)| == |HoldersOf(holders, h.conn)| + 1
  {
    forall c ensures HoldersOf(holders[q := h], c) ==
                     if c == h.conn then HoldersOf(holders, c) + {q} else HoldersOf(holders, c) {}
  }

  lemma HolderRemoved(holders: map<QueryId, Hold>, q: QueryId)
    requires q in holders
    ensures forall c :: HoldersOf(Without(holders, q), c) == HoldersOf(holders, c) - {q}
    ensures |HoldersOf(Without(holders, q), holders[q].conn)| == |HoldersOf(holders, holders[q].conn)| - 1
    ensures forall c :: c != holders[q].conn ==> HoldersOf(Without(holders, q), c) == HoldersOf(holders, c)
  {
    forall c ensures HoldersOf(Without(holders, q), c) == HoldersOf(holders, c) - {q} {}
    assert q in HoldersOf(holders, holders[q].conn);
    forall c | c != holders[q].conn
      ensures HoldersOf(Without(holders, q), c) == HoldersOf(holders, c)
    {
      assert q !in HoldersOf(holders, c);
    }
  }

  lemma KeysRemoved<T>(m: map<QueryId, T>, q: QueryId)
    requires q in m
    ensures |Without(m, q)| == |m| - 1
  {
    assert Without(m, q).Keys == m.Keys - {q};
    assert |Without(m, q).Keys| == |m.Keys - {q}|;
  }

  lemma KeysAdded<T>(m: map<QueryId, T>, q: QueryId, v: T)
    requires q !in m
    ensures |m[q := v]| == |m| + 1
  {
    assert m[q := v].Keys == m.Keys + {q};
    assert |m[q := v].Keys| == |m.Keys + {q}|;
  }

  lemma SlotTaken(load: map<ConnId, nat>, holders: map<QueryId, Hold>, q: QueryId, h: Hold)
    requires Slots(load, holders) && q !in holders
    requires h.conn in load ==> load[h.conn] < MAX_INFLIGHT
    ensures Slots(load[h.conn := if h.conn in load then load[h.conn] + 1 else 1], holders[q := h])
  {
    HolderAdded(holders, q, h);
    if h.conn !in load {
      assert HoldersOf(holders, h.conn) == {};
    }
  }

  lemma SlotFreed(load: map<ConnId, nat>, holders: map<QueryId, Hold>, q: QueryId)
    requires Slots(load, holders) && q in holders && load[holders[q].conn] > 0
    ensures Slots(load[holders[q].conn := load[holders[q].conn] - 1], Without(holders, q))
  {
    HolderRemoved(holders, q);
  }

  lemma LimitInRange(p: Pool, now: int)
    requires Bounded(p, now)
    ensures 1 <= Limit(p, now) <= p.limit
    ensures MIN_CONNS <= MaxConns(Limit(p, now)) <= CAPACITY
  {
  }

  lemma ReapBounded(p: Pool, now: int, quiet: set<ConnId>)
    requires Bounded(p, now)
    ensures Bounded(Reap(p, quiet), now) && Limit(Reap(p, quiet), now) == Limit(p, now)
  {
    LiveMeaning(p, quiet, p.conns);
    assert forall i :: 0 <= i < |Live(p, quiet, p.conns)| ==> Live(p, quiet, p.conns)[i] in p.conns;
  }

  lemma ChooseBounded(r: Pool, best: Option<ConnId>, now: int)
    requires Bounded(r, now) && (best.Some? ==> best.value in r.load)
    ensures var (q, out) := Choose(r, best, Limit(r, now), now);
            && Bounded(q, now) && q.freed == r.freed
            && (out.Reserved? ==> q.dialing == r.dialing && out.conn in r.load && r.load[out.conn] < Limit(r, now)
                                  && q.load == r.load[out.conn := r.load[out.conn] + 1])
            && (!out.Reserved? ==> q.load == r.load)
            && q.dialing == (if out.Dialing? then r.dialing + 1 else r.dialing)
            && (out.Wait? ==> out.channel == r.freed)
  {
    LimitInRange(r, now);
  }

  lemma GetBounded(p: Pool, now: int, quiet: set<ConnId>)
    requires Bounded(p, now)
    ensures var r := Get(p, now, quiet);
            && Bounded(r.0, now) && r.0.freed == p.freed
            && (r.1.Reserved? ==> r.0.dialing == p.dialing && r.1.conn in p.load
                                  && p.load[r.1.conn] < Limit(p, now)
                                  && r.0.load == p.load[r.1.conn := p.load[r.1.conn] + 1])
            && (!r.1.Reserved? ==> r.0.load == p.load)
            && r.0.dialing == (if r.1.Dialing? then p.dialing + 1 else p.dialing)
            && (r.1.Wait? ==> r.1.channel == p.freed)
  {
    ReapBounded(p, now, quiet);
    var r := Reap(p, quiet);
    LeastMeaning(r.load, r.conns);
    ChooseBounded(r, LeastOf(r.load, r.conns), now);
  }

  lemma AskKeepsAccounts(w: World, q: QueryId, quiet: set<ConnId>)
    requires Accounted(w) && Enabled(w, Ask(q, quiet))
    ensures Accounted(Next(w, Ask(q, quiet)))
  {
    GetBounded(w.p, w.now, quiet);
    LimitInRange(w.p, w.now);
    var r := Get(w.p, w.now, quiet);
    match r.1
    case Reserved(c, atLimit) => SlotTaken(w.p.load, w.holders, q, Hold(c, atLimit));
    case FailFast =>
    case Dialing(limit) => KeysAdded(w.dialers, q, limit);
    case Wait(_) =>
  }

  lemma OpenedKeepsAccounts(w: World, q: QueryId, c: ConnId)
    requires Accounted(w) && Enabled(w, Opened(q, c)) && q !in w.holders
    ensures Accounted(Next(w, Opened(q, c)))
  {
    KeysRemoved(w.dialers, q);
    SlotTaken(w.p.load, w.holders, q, Hold(c, w.dialers[q] <= 1));
  }

  lemma ReleaseBounded(p: Pool, c: ConnId, ok: bool, atLimit: bool, dropped: bool, now: int)
    requires Bounded(p, now) && c in p.load && 0 < p.load[c] <= MAX_INFLIGHT
    ensures var r := Release(p, c, ok, atLimit, dropped, now);
            && Bounded(r, now) && r.freed == p.freed + 1 && r.dialing == p.dialing
            && r.load == p.load[c := p.load[c] - 1]
  {
  }

  lemma DoneKeepsAccounts(w: World, q: QueryId, ok: bool, dropped: bool)
    requires Accounted(w) && Enabled(w, Done(q, ok, dropped))
    ensures Accounted(Next(w, Done(q, ok, dropped)))
  {
    SlotFreed(w.p.load, w.holders, q);
    ReleaseBounded(w.p, w.holders[q].conn, ok, w.holders[q].atLimit, dropped, w.now);
  }

  /** A query is in one place at a time. */
  ghost predicate OnePlace(w: World) {
    && w.holders.Keys !! w.dialers.Keys
    && w.holders.Keys !! w.waiters.Keys
    && w.waiters.Keys !! w.dialers.Keys
  }

  lemma StepKeepsAccounts(w: World, s: Step)
    requires Accounted(w) && OnePlace(w) && Enabled(w, s)
    ensures Accounted(Next(w, s))
  {
    match s
    case Ask(q, quiet) => AskKeepsAccounts(w, q, quiet);
    case Opened(q, c) => OpenedKeepsAccounts(w, q, c);
    case OpenFailed(q) => KeysRemoved(w.dialers, q);
    case Done(q, ok, dropped) => DoneKeepsAccounts(w, q, ok, dropped);
    case Woken(_) =>
    case GaveUp(_) =>
    case Dies(_) =>
    case Tick(_) =>
  }

  lemma BookKeepsOnePlace(w: World, q: QueryId, r: (Pool, Outcome), f: bool)
    requires OnePlace(w) && Idle(w, q)
    ensures OnePlace(Book(w, q, r, f))
  {
  }

  lemma StepKeepsOnePlace(w: World, s: Step)
    requires OnePlace(w) && Enabled(w, s)
    ensures OnePlace(Next(w, s))
  {
    match s
    case Ask(q, quiet) => BookKeepsOnePlace(w, q, Get(w.p, w.now, quiet), false);
    case Opened(q, c) =>
      BookKeepsOnePlace(w.(dialers := Without(w.dialers, q)), q, DialOk(w.p, c, w.dialers[q]), false);
    case OpenFailed(q) =>
      BookKeepsOnePlace(w.(dialers := Without(w.dialers, q)), q, DialFailed(w.p, w.now), true);
    case Done(_, _, _) =>
    case Woken(_) =>
    case GaveUp(_) =>
    case Dies(_) =>
    case Tick(_) =>
  }

  lemma SomeoneHolds(w: World, c: ConnId)
    requires Accounted(w) && c in w.p.load && w.p.load[c] > 0
    ensures w.holders != map[]
  {
    assert |HoldersOf(w.holders, c)| > 0;
    var q :| q in HoldersOf(w.holders, c);
  }

  /** `get` sleeps only when no live connection has a free slot and no more may be
      opened; after its own failed dial a query does not look again. */
  lemma WaitMeansFull(w: World, q: QueryId, quiet: set<ConnId>)
    requires Accounted(w) && Enabled(w, Ask(q, quiet)) && Get(w.p, w.now, quiet).1.Wait?
    ensures forall c <- w.p.conns :: Kept(w.p, quiet, c) ==> LoadOf(w.p.load, c) >= Limit(w.p, w.now)
    ensures |Get(w.p, w.now, quiet).0.conns| + w.p.dialing >= MaxConns(Limit(w.p, w.now)) || w.p.dialing == MAX_DIALS
    ensures w.holders != map[] || w.dialers != map[]
  {
    LimitInRange(w.p, w.now);
    var r := Reap(w.p, quiet);
    var best := LeastOf(r.load, r.conns);
    LiveMeaning(w.p, quiet, w.p.conns);
    LeastMeaning(r.load, r.conns);
    assert forall c <- w.p.conns :: Kept(w.p, quiet, c) ==> c in r.conns;
    if best.Some? {
      SomeoneHolds(w, best.value);
    }
  }

  lemma AskKeepsWakeable(w: World, q: QueryId, quiet: set<ConnId>)
    requires Inv(w) && Enabled(w, Ask(q, quiet))
    ensures Wakeable(Next(w, Ask(q, quiet)))
  {
    GetBounded(w.p, w.now, quiet);
    if Get(w.p, w.now, quiet).1.Wait? {
      WaitMeansFull(w, q, quiet);
    }
  }

  /** A wake-up signal leaves no earlier channel open. */
  lemma SignalKeepsWakeable(w: World, v: World)
    requires Wakeable(w) && v.p.freed == w.p.freed + 1
    requires forall q <- v.waiters :: (q in w.waiters && v.waiters[q] == w.waiters[q])
                                      || v.waiters[q] == Sleep(v.p.freed, true)
    ensures Wakeable(v)
  {
  }

  lemma DialKeepsWakeable(w: World, s: Step)
    requires Wakeable(w) && Enabled(w, s) && (s.Opened? || s.OpenFailed?)
    ensures Wakeable(Next(w, s))
  {
    SignalKeepsWakeable(w, Next(w, s));
  }

  lemma DoneKeepsWakeable(w: World, s: Step)
    requires Wakeable(w) && Enabled(w, s) && s.Done?
    ensures Wakeable(Next(w, s))
  {
    var v := Next(w, s);
    assert v.waiters == w.waiters && v.p.freed == w.p.freed + 1;
    SignalKeepsWakeable(w, v);
  }

  lemma StepKeepsWakeable(w: World, s: Step)
    requires Inv(w) && Enabled(w, s)
    ensures Wakeable(Next(w, s))
  {
    match s
    case Ask(q, quiet) => AskKeepsWakeable(w, q, quiet);
    case Opened(_, _) => DialKeepsWakeable(w, s);
    case OpenFailed(_) => DialKeepsWakeable(w, s);
    case Done(_, _, _) => DoneKeepsWakeable(w, s);
    case Woken(_) =>
    case GaveUp(_) =>
    case Dies(_) =>
    case Tick(_) =>
  }

  /** Pool accounting over every run: the bounds of `Accounted`, and wake-ups. */
  lemma {:induction false} RunKeepsInv(w: World, run: seq<Step>)
    requires Inv(w) && OnePlace(w) && Possible(w, run)
    ensures Inv(After(w, run)) && OnePlace(After(w, run))
    decreases |run|
  {
    if run != [] {
      StepKeepsAccounts(w, run[0]);
      StepKeepsWakeable(w, run[0]);
      StepKeepsOnePlace(w, run[0]);
      RunKeepsInv(Next(w, run[0]), run[1..]);
    }
  }

  lemma EveryRun(run: seq<Step>)
    requires Possible(START, run)
    ensures Inv(After(START, run))
  {
    RunKeepsInv(START, run);
  }

  // ---------------------------------------------------------------- the ceiling after a drop

  ghost predicate IsCountedDrop(w: World, s: Step)
    requires Enabled(w, s)
  {
    s.Done? && CountedDrop(w.p, w.holders[s.q].conn, s.dropped)
  }

  /** Every step of the run happens before `until` and counts no drop. */
  ghost predicate Calm(w: World, run: seq<Step>, until: int)
    requires Possible(w, run)
    decreases |run|
  {
    run == [] || (w.now < until && !IsCountedDrop(w, run[0]) && Calm(Next(w, run[0]), run[1..], until))
  }

  /** The load that the slot reserved by this step brings its connection to (0: none). */
  ghost function Placement(w: World, s: Step): nat
    requires Enabled(w, s)
  {
    match s
    case Ask(_, quiet) =>
      var r := Get(w.p, w.now, quiet);
      if r.1.Reserved? && r.1.conn in r.0.load then r.0.load[r.1.conn] else 0
    case Opened(_, c) => DialOk(w.p, c, 0).0.load[c]
    case _ => 0
  }

  /** Every slot the run reserves leaves its connection at `cap` queries or fewer. */
  ghost predicate ReservesWithin(w: World, run: seq<Step>, cap: nat)
    requires Possible(w, run)
    decreases |run|
  {
    run == [] || (Placement(w, run[0]) <= cap && ReservesWithin(Next(w, run[0]), run[1..], cap))
  }

  lemma GetKeepsCeiling(p: Pool, now: int, quiet: set<ConnId>)
    ensures Get(p, now, quiet).0.ceiling == p.ceiling && Get(p, now, quiet).0.ceilingUntil == p.ceilingUntil
  {
  }

  lemma AskWithinCeiling(w: World, q: QueryId, quiet: set<ConnId>)
    requires Inv(w) && Enabled(w, Ask(q, quiet)) && w.now < w.p.ceilingUntil
    ensures Next(w, Ask(q, quiet)).p.ceiling == w.p.ceiling && Next(w, Ask(q, quiet)).p.ceilingUntil == w.p.ceilingUntil
    ensures Placement(w, Ask(q, quiet)) <= w.p.ceiling
  {
    GetBounded(w.p, w.now, quiet);
    GetKeepsCeiling(w.p, w.now, quiet);
  }

  lemma StepWithinCeiling(w: World, s: Step)
    requires Inv(w) && Enabled(w, s) && w.now < w.p.ceilingUntil && !IsCountedDrop(w, s)
    ensures Next(w, s).p.ceiling == w.p.ceiling && Next(w, s).p.ceilingUntil == w.p.ceilingUntil
    ensures Placement(w, s) <= w.p.ceiling
  {
    match s
    case Ask(q, quiet) => AskWithinCeiling(w, q, quiet);
    case Opened(_, _) =>
    case OpenFailed(_) =>
    case Done(_, _, _) =>
    case Woken(_) =>
    case GaveUp(_) =>
    case Dies(_) =>
    case Tick(_) =>
  }

  lemma {:induction false} CeilingHolds(w: World, run: seq<Step>)
    requires Inv(w) && OnePlace(w) && Possible(w, run) && Calm(w, run, w.p.ceilingUntil)
    ensures ReservesWithin(w, run, w.p.ceiling)
    decreases |run|
  {
    if run != [] {
      StepWithinCeiling(w, run[0]);
      StepKeepsAccounts(w, run[0]);
      StepKeepsWakeable(w, run[0]);
      StepKeepsOnePlace(w, run[0]);
      CeilingHolds(Next(w, run[0]), run[1..]);
    }
  }

  lemma DropSetsCeiling(p: Pool, c: ConnId, ok: bool, atLimit: bool, now: int)
    requires c in p.load && CountedDrop(p, c, true)
    ensures Release(p, c, ok, atLimit, true, now).ceiling == p.load[c] - 1
    ensures Release(p, c, ok, atLimit, true, now).ceilingUntil == now + CEILING_TTL
  {
  }

  lemma AfterDrop(w: World, q: QueryId, ok: bool)
    requires Inv(w) && OnePlace(w) && Enabled(w, Done(q, ok, true))
    requires CountedDrop(w.p, w.holders[q].conn, true)
    ensures var v := Next(w, Done(q, ok, true));
            && Inv(v) && OnePlace(v)
            && v.p.ceiling == w.p.load[w.holders[q].conn] - 1 && v.p.ceilingUntil == w.now + CEILING_TTL
  {
    var s := Done(q, ok, true);
    StepKeepsAccounts(w, s);
    StepKeepsWakeable(w, s);
    StepKeepsOnePlace(w, s);
    DropSetsCeiling(w.p, w.holders[q].conn, ok, w.holders[q].atLimit, w.now);
  }

  /** After the server drops a connection with n >= 2 queries in flight (world `w`,
      `v` once that query let go), no query is placed as the n-th or later on any
      connection until the ceiling expires or another drop is counted. */
  lemma DropCapsReservations(w: World, q: QueryId, ok: bool, v: World, run: seq<Step>)
    requires Inv(w) && OnePlace(w) && Enabled(w, Done(q, ok, true)) && v == Next(w, Done(q, ok, true))
    requires CountedDrop(w.p, w.holders[q].conn, true)
    requires Possible(v, run) && Calm(v, run, w.now + CEILING_TTL)
    ensures ReservesWithin(v, run, w.p.load[w.holders[q].conn] - 1)
  {
    AfterDrop(w, q, ok);
    CeilingHolds(v, run);
  }

  // ---------------------------------------------------------------- the wait after a failed dial

  /** Query q sleeps, and nothing left in the pool can wake it before its deadline. */
  ghost predicate Stranded(w: World, q: QueryId) {
    q in w.waiters && w.waiters[q].channel == w.p.freed && w.holders == map[] && w.dialers == map[]
  }

  /** A query whose own dial failed while connections are listed goes to sleep without
      looking for a free slot again; it is stranded exactly when it was the last dial
      and no query holds a slot. */
  lemma FailedDialStrandsIff(w: World, q: QueryId)
    requires Inv(w) && OnePlace(w) && Enabled(w, OpenFailed(q)) && w.p.conns != []
    ensures Stranded(Next(w, OpenFailed(q)), q) <==> w.holders == map[] && |w.dialers| == 1
  {
    KeysRemoved(w.dialers, q);
    var v := Next(w, OpenFailed(q));
    assert v.dialers == map[] <==> |v.dialers| == 0;
  }

  /** Only that path strands a query: the step after which it is stranded is its own failed
      dial. */
  lemma StrandingStepIsFailedDial(w: World, s: Step, q: QueryId)
    requires Inv(w) && OnePlace(w) && Enabled(w, s) && !Stranded(w, q) && Stranded(Next(w, s), q)
    ensures s == OpenFailed(q)
  {
    match s
    case Ask(r, quiet) =>
      GetBounded(w.p, w.now, quiet);
      if Get(w.p, w.now, quiet).1.Wait? { WaitMeansFull(w, r, quiet); }
    case Opened(r, c) =>
    case OpenFailed(r) =>
    case Done(r, _, _) =>
    case Woken(r) =>
    case GaveUp(r) =>
    case Dies(_) =>
    case Tick(_) =>
  }

  /** Whoever is stranded carries that mark. */
  lemma StrandedOnlyByFailedDial(w: World, q: QueryId)
    requires Inv(w) && Stranded(w, q)
    ensures w.waiters[q].afterFailedDial
  {
  }

  function StrandingRun(): seq<Step> {
    [Ask(0, {}), Ask(1, {}), Opened(0, 7), Done(0, true, false), OpenFailed(1)]
  }

  lemma Prepend(w: World, s: Step, rest: seq<Step>)
    requires Enabled(w, s) && Possible(Next(w, s), rest)
    ensures Possible(w, [s] + rest) && After(w, [s] + rest) == After(Next(w, s), rest)
  {
    assert ([s] + rest)[1..] == rest;
  }

  lemma StrandingWorlds() returns (a: World, b: World, c: World, d: World)
    ensures a == World(FRESH.(dialing := 1), 0, map[], map[], map[0 := 2])
    ensures b == World(FRESH.(dialing := 2), 0, map[], map[], map[0 := 2, 1 := 2])
    ensures c == World(FRESH.(dialing := 1, freed := 1, load := map[7 := 1], conns := [7]),
                       0, map[0 := Hold(7, false)], map[], map[1 := 2])
    ensures d == World(FRESH.(dialing := 1, freed := 2, load := map[7 := 0], conns := [7]), 0, map[], map[],
        map[1 := 2])
    ensures Enabled(START, Ask(0, {})) && Next(START, Ask(0, {})) == a
    ensures Enabled(a, Ask(1, {})) && Next(a, Ask(1, {})) == b
    ensures Enabled(b, Opened(0, 7)) && Next(b, Opened(0, 7)) == c
    ensures Enabled(c, Done(0, true, false)) && Next(c, Done(0, true, false)) == d
  {
    a := Next(START, Ask(0, {}));
    b := Next(a, Ask(1, {}));
    c := Next(b, Opened(0, 7));
    assert c.dialers == map[1 := 2];
    d := Next(c, Done(0, true, false));
    assert d.holders == map[];
    assert d.p.load == map[7 := 0];
  }

  /** Such a run exists from an empty pool: query 1 sleeps beside an idle, live
      connection with a free slot. */
  lemma StrandingRunExists()
    ensures Possible(START, StrandingRun())
    ensures var w := After(START, StrandingRun());
            Stranded(w, 1) && w.p.conns == [7] && 7 !in w.p.dead && 7 in w.p.load && w.p.load[7]
                == 0 < Limit(w.p, w.now)
  {
    var a, b, c, d := StrandingWorlds();
    var e := Next(d, OpenFailed(1));
    assert e.dialers == map[];
    Prepend(d, OpenFailed(1), []);
    Prepend(c, Done(0, true, false), [OpenFailed(1)]);
    Prepend(b, Opened(0, 7), [Done(0, true, false), OpenFailed(1)]);
    Prepend(a, Ask(1, {}), [Opened(0, 7), Done(0, true, false), OpenFailed(1)]);
    Prepend(START, Ask(0, {}), [Ask(1, {}), Opened(0, 7), Done(0, true, false), OpenFailed(1)]);
    assert StrandingRun() == [Ask(0, {})] + [Ask(1, {}), Opened(0, 7), Done(0, true, false), OpenFailed(1)];
    assert [Ask(1, {}), Opened(0, 7), Done(0, true, false), OpenFailed(1)]
        == [Ask(1, {})] + [Opened(0, 7), Done(0, true, false), OpenFailed(1)];
    assert [Opened(0, 7), Done(0, true, false), OpenFailed(1)]
        == [Opened(0, 7)] + [Done(0, true, false), OpenFailed(1)];
    assert [Done(0, true, false), OpenFailed(1)] == [Done(0, true, false)] + [OpenFailed(1)];
    assert [OpenFailed(1)] == [OpenFailed(1)] + [];
  }
}
