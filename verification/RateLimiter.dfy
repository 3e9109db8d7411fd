/** The per-client rate limiter (internal/resolver/ratelimit.go): sharded counters with a
    bounded sweep of stale windows, against one counter per client that is never swept.
    Times are in nanoseconds; the client hash is a parameter. A call reads the clock before
    it takes its shard's lock, so the times at the lock can run back. */
module RateLimiting {

  const WINDOW: int := 60_000_000_000
  const SHARDS: nat := 16
  const SWEEP_ABOVE: nat := 625       // 10000 / SHARDS
  const SWEEP_AT_MOST: nat := 256

  datatype Entry = Entry(start: int, count: int)

  predicate Stale(e: Entry, now: int) { now - e.start >= WINDOW }

  /** The reference limiter: a counter per client; `lost` says that it was gone all the same. */
  function Decide(m: map<string, Entry>, limit: int, client: string, now: int, lost: bool): (map<string, Entry>,
                  bool) {
    if client !in m || lost || Stale(m[client], now) then (m[client := Entry(now, 1)], true)
    else if m[client].count >= limit then (m, false)
    else (m[client := Entry(m[client].start, m[client].count + 1)], true)
  }

  datatype Call = Call(client: string, at: int, lost: bool)

  /** The counters after a run of calls. */
  function After(run: seq<Call>, limit: int): map<string, Entry> {
    if run == [] then map[]
    else
      var last := run[|run| - 1];
      Decide(After(run[..|run| - 1], limit), limit, last.client, last.at, last.lost).0
  }

  predicate LastAdmitted(run: seq<Call>, limit: int)
    requires run != []
  {
    var last := run[|run| - 1];
    Decide(After(run[..|run| - 1], limit), limit, last.client, last.at, last.lost).1
  }

  /** No call of the run is later than `now`, and one is at `now` (if there is any). */
  ghost predicate Latest(run: seq<Call>, now: int) {
    && (forall i :: 0 <= i < |run| ==> run[i].at <= now)
    && (run != [] ==> exists i :: 0 <= i < |run| && run[i].at == now)
  }

  /** A counter is lost only if it was stale for an earlier call. */
  ghost predicate Swept(run: seq<Call>, limit: int) {
    forall i {:trigger run[i].lost} :: 0 <= i < |run| && run[i].lost ==>
      var m := After(run[..i], limit);
      run[i].client in m && exists j :: 0 <= j < i && Stale(m[run[i].client], run[j].at)
  }

  // ---------------------------------------------------------------- the sharded limiter

  /** A shard holds the reference's counters of its clients, but maybe for stale ones. */
  predicate ShardHolds(shard: map<string, Entry>, i: nat, hash: string -> nat, plain: map<string, Entry>, now: int) {
    && (forall c <- shard :: hash(c) % SHARDS == i && c in plain && shard[c] == plain[c])
    && (forall c <- plain :: hash(c) % SHARDS == i ==> c in shard || Stale(plain[c], now))
  }

  predicate Holds(shards: seq<map<string, Entry>>, hash: string -> nat, plain: map<string, Entry>, now: int) {
    |shards| == SHARDS && forall i :: 0 <= i < SHARDS ==> ShardHolds(shards[i], i, hash, plain, now)
  }

  lemma HoldsLater(shards: seq<map<string, Entry>>, hash: string -> nat, plain: map<string, Entry>, now: int,
                   later: int)
    requires Holds(shards, hash, plain, now) && now <= later
    ensures Holds(shards, hash, plain, later)
  {
    forall i | 0 <= i < SHARDS ensures ShardHolds(shards[i], i, hash, plain, later) {
      assert ShardHolds(shards[i], i, hash, plain, now);
    }
  }

  /** Counting a client changes its own shard only. */
  lemma HoldsAfterCall(shards: seq<map<string, Entry>>, hash: string -> nat, plain: map<string, Entry>, now: int,
                       limit: int, c: Call, shard: map<string, Entry>)
    requires Holds(shards, hash, plain, now)
    requires ShardHolds(shard, hash(c.client) % SHARDS, hash, Decide(plain, limit, c.client, c.at, c.lost).0, now)
    ensures Holds(shards[hash(c.client) % SHARDS := shard], hash, Decide(plain, limit, c.client, c.at, c.lost).0, now)
  {
    var i, after := hash(c.client) % SHARDS, Decide(plain, limit, c.client, c.at, c.lost).0;
    forall k | 0 <= k < SHARDS && k != i ensures ShardHolds(shards[k], k, hash, after, now) {
      assert ShardHolds(shards[k], k, hash, plain, now);
    }
  }

  /** The sweep looks at no more than 256 entries, in any order, and drops stale ones: those
      it drops are stale at every later time. */
  method Sweep(shard0: map<string, Entry>, i: nat, hash: string -> nat, ghost plain: map<string, Entry>, now: int,
               ghost latest: int)
    returns (shard: map<string, Entry>)
    requires ShardHolds(shard0, i, hash, plain, latest) && now <= latest
    ensures ShardHolds(shard, i, hash, plain, latest)
  {
    shard := shard0;
    var scanned := 0;
    var left := shard0.Keys;
    while left != {}
      invariant left <= shard.Keys && ShardHolds(shard, i, hash, plain, latest)
      decreases |left|
    {
      var k :| k in left;
      left := left - {k};
      if Stale(shard[k], now) { shard := shard - {k}; }
      scanned := scanned + 1;
      if scanned >= SWEEP_AT_MOST { break; }
    }
  }

  /** The critical section on the client's shard. */
  method CountCall(shard0: map<string, Entry>, limit: int, hash: string -> nat, client: string, now: int,
                   ghost plain: map<string, Entry>, ghost latest: int)
    returns (shard: map<string, Entry>, ok: bool)
    requires ShardHolds(shard0, hash(client) % SHARDS, hash, plain, latest) && now <= latest
    ensures var d := Decide(plain, limit, client, now, Lost(shard0, plain, client, now));
            ok == d.1 && ShardHolds(shard, hash(client) % SHARDS, hash, d.0, latest)
  {
    shard := shard0;
    if client !in shard || Stale(shard[client], now) {
      shard := shard[client := Entry(now, 1)];
      if |shard| > SWEEP_ABOVE {
        shard := Sweep(shard, hash(client) % SHARDS, hash, plain[client := Entry(now, 1)], now, latest);
      }
      return shard, true;
    }
    if shard[client].count >= limit { return shard, false; }
    shard := shard[client := Entry(shard[client].start, shard[client].count + 1)];
    return shard, true;
  }

  lemma SweptGrows(run: seq<Call>, limit: int, c: Call, latest: int)
    requires Swept(run, limit) && Latest(run, latest)
    requires c.lost ==> run != [] && c.client in After(run, limit) && Stale(After(run, limit)[c.client], latest)
    ensures Swept(run + [c], limit)
  {
    var more := run + [c];
    forall i | 0 <= i < |more| && more[i].lost
      ensures more[i].client in After(more[..i], limit)
      ensures exists j :: 0 <= j < i && Stale(After(more[..i], limit)[more[i].client], more[j].at)
    {
      assert more[..i] == run[..i];
      if i < |run| {
        assert run[i].lost;
        var j :| 0 <= j < i && Stale(After(run[..i], limit)[run[i].client], run[j].at);
        assert more[j] == run[j];
      } else {
        assert run[..i] == run;
        var j :| 0 <= j < |run| && run[j].at == latest;
        assert more[j] == run[j];
      }
    }
  }

  lemma OneMore(run: seq<Call>, limit: int, c: Call)
    ensures (After(run + [c], limit), LastAdmitted(run + [c], limit))
         == Decide(After(run, limit), limit, c.client, c.at, c.lost)
  {
    assert (run + [c])[..|run|] == run;
  }

  ghost predicate Tracks(shards: seq<map<string, Entry>>, hash: string -> nat, limit: int, run: seq<Call>, clock: int) {
    && Latest(run, clock) && Swept(run, limit)
    && Holds(shards, hash, After(run, limit), clock)
  }

  /** The client's counter is gone from its shard though it would still count. */
  predicate Lost(shard: map<string, Entry>, m: map<string, Entry>, client: string, now: int) {
    client in m && client !in shard && !Stale(m[client], now)
  }

  lemma BeforeCall(shards: seq<map<string, Entry>>, hash: string -> nat, limit: int, run: seq<Call>, clock: int,
                   client: string, now: int)
    requires Tracks(shards, hash, limit, run, clock)
    ensures var i, m := hash(client) % SHARDS, After(run, limit);
            var latest := if run == [] || now > clock then now else clock;
            && Holds(shards, hash, m, latest) && ShardHolds(shards[i], i, hash, m, latest) && now <= latest
            && (Lost(shards[i], m, client, now) ==> run != [] && Stale(m[client], clock) && now < clock)
  {
    var i, m, latest := hash(client) % SHARDS, After(run, limit), if run == [] || now > clock then now else clock;
    HoldsBy(run, limit, shards, hash, clock, latest);
    assert ShardHolds(shards[i], i, hash, m, clock);
  }

  lemma AfterCall(shards: seq<map<string, Entry>>, hash: string -> nat, limit: int, run: seq<Call>, clock: int,
                  c: Call, shard: map<string, Entry>)
    requires Tracks(shards, hash, limit, run, clock)
    requires c.lost == Lost(shards[hash(c.client) % SHARDS], After(run, limit), c.client, c.at)
    requires var latest := if run == [] || c.at > clock then c.at else clock;
             ShardHolds(shard, hash(c.client) % SHARDS, hash, After(run + [c], limit), latest)
    ensures Tracks(shards[hash(c.client) % SHARDS := shard], hash, limit, run + [c],
                   if run == [] || c.at > clock then c.at else clock)
  {
    var latest := if run == [] || c.at > clock then c.at else clock;
    BeforeCall(shards, hash, limit, run, clock, c.client, c.at);
    OneMore(run, limit, c);
    HoldsAfterCall(shards, hash, After(run, limit), latest, limit, c, shard);
    SweptGrows(run, limit, c, clock);
    LatestGrows(run, c, clock, latest);
  }

  class RateLimiter {
    const limit: int
    const hash: string -> nat
    var shards: seq<map<string, Entry>>
    ghost var run: seq<Call>   // the counted calls, in the order of their locks
    ghost var clock: int

    ghost predicate Valid()
      reads this
    {
      Tracks(shards, hash, limit, run, clock)
    }

    constructor (qpm: int, hash: string -> nat)
      ensures Valid() && limit == qpm && run == []
    {
      limit, this.hash := qpm, hash;
      shards := seq(SHARDS, _ => map[]);
      run, clock := [], 0;
      new;
      assert forall i :: 0 <= i < SHARDS ==> ShardHolds(shards[i], i, hash, After([], limit), clock);
    }

    /** The decision is the reference's, which loses a client's counter exactly if its shard no
        longer holds it though it still counts; then the time ran back behind a sweep. */
    method Allow(client: string, now: int) returns (ok: bool)
      requires Valid()
      modifies this
      ensures Valid()
      ensures limit <= 0 || client == "" ==> ok && run == old(run) && shards == old(shards)
      ensures limit > 0 && client != "" ==>
                var lost := Lost(old(shards)[hash(client) % SHARDS], After(old(run), limit), client, now);
                && run == old(run) + [Call(client, now, lost)] && ok == LastAdmitted(run, limit)
                && (lost ==> now < old(clock))
      ensures clock == if limit > 0 && client != "" && (old(run) == [] || now > old(clock)) then now else old(clock)
    {
      if limit <= 0 || client == "" { return true; }
      var i := hash(client) % SHARDS;
      ghost var m, latest := After(run, limit), if run == [] || now > clock then now else clock;
      BeforeCall(shards, hash, limit, run, clock, client, now);
      ghost var c := Call(client, now, Lost(shards[i], m, client, now));
      var s;
      s, ok := CountCall(shards[i], limit, hash, client, now, m, latest);
      OneMore(run, limit, c);
      AfterCall(shards, hash, limit, run, clock, c, s);
      shards, run, clock := shards[i := s], run + [c], latest;
    }
  }

  lemma LatestGrows(run: seq<Call>, c: Call, clock: int, latest: int)
    requires Latest(run, clock) && latest == if run == [] || c.at > clock then c.at else clock
    ensures Latest(run + [c], latest)
  {
    var more := run + [c];
    if run == [] || c.at > clock {
      assert more[|run|].at == latest;
    } else {
      var i :| 0 <= i < |run| && run[i].at == clock;
      assert more[i].at == latest;
    }
  }

  /** With nothing counted yet, any time will do. */
  lemma HoldsBy(run: seq<Call>, limit: int, shards: seq<map<string, Entry>>, hash: string -> nat, clock: int,
                 latest: int)
    requires Holds(shards, hash, After(run, limit), clock) && (run == [] || clock <= latest)
    ensures Holds(shards, hash, After(run, limit), latest)
  {
    if run == [] {
      forall i | 0 <= i < SHARDS ensures ShardHolds(shards[i], i, hash, map[], latest) {
        assert ShardHolds(shards[i], i, hash, map[], clock);
      }
    } else {
      HoldsLater(shards, hash, After(run, limit), clock, latest);
    }
  }

  // ---------------------------------------------------------------- how much is admitted

  /** How many calls of `c` are admitted from `lo` to `hi`, both included. */
  function Admitted(run: seq<Call>, limit: int, c: string, lo: int, hi: int): nat {
    if run == [] then 0
    else
      var last := run[|run| - 1];
      Admitted(run[..|run| - 1], limit, c, lo, hi)
      + if last.client == c && lo <= last.at <= hi && LastAdmitted(run, limit) then 1 else 0
  }

  /** The times run back by at most `back`. */
  predicate RunsBack(run: seq<Call>, back: nat) { forall i, j :: 0 <= i <= j < |run| ==> run[i].at - back <= run[j].at }

  predicate Clocked(run: seq<Call>) { RunsBack(run, 0) }

  predicate Until(run: seq<Call>, now: int) { forall i :: 0 <= i < |run| ==> run[i].at <= now }

  /** Past the last call the end of the interval does not matter. */
  lemma {:induction false} EndDoesNotMatter(run: seq<Call>, limit: int, c: string, lo: int, a: int, b: int)
    requires Until(run, a) && Until(run, b)
    ensures Admitted(run, limit, c, lo, a) == Admitted(run, limit, c, lo, b)
  {
    if run != [] { EndDoesNotMatter(run[..|run| - 1], limit, c, lo, a, b); }
  }

  /** A window begins at the time of a call. */
  lemma {:induction false} WindowBegins(run: seq<Call>, limit: int, c: string)
    requires c in After(run, limit)
    ensures exists i :: 0 <= i < |run| && run[i].at == After(run, limit)[c].start
  {
    var head, last := run[..|run| - 1], run[|run| - 1];
    if c in After(head, limit) {
      WindowBegins(head, limit, c);
      var i :| 0 <= i < |head| && head[i].at == After(head, limit)[c].start;
      assert run[i].at == After(head, limit)[c].start;
    }
    assert run[|run| - 1] == last;
  }

  function Cap(limit: nat, back: nat): nat { if back == 0 then 2 * limit else 3 * limit }

  /** What is known of the calls of `c` from `lo` to `lo + WINDOW`, of which `n` were
      admitted, given its counter: windows begin at least `WINDOW - back` apart. */
  predicate Bounded(m: map<string, Entry>, limit: nat, c: string, lo: int, n: int, back: nat) {
    if c !in m then n == 0
    else
      var since, apart := m[c].start - (lo - WINDOW), WINDOW - back;
      && 1 <= m[c].count <= limit
      && n <= (if since <= 0 then 0
               else if since <= apart then m[c].count
               else if since <= 2 * apart then limit + m[c].count
               else if since <= 3 * apart && back > 0 then 2 * limit + m[c].count
               else Cap(limit, back))
  }

  lemma CallKeepsBounded(m: map<string, Entry>, limit: nat, c: string, lo: int, n: int, call: Call, back: nat)
    requires limit > 0 && Bounded(m, limit, c, lo, n, back) && 4 * back <= WINDOW
    requires c in m ==> m[c].start - back <= call.at
    requires c in m && call.lost && call.client == c ==> m[c].start + WINDOW - back <= call.at
    ensures var d := Decide(m, limit, call.client, call.at, call.lost);
            var more := if call.client == c && lo <= call.at <= lo + WINDOW && d.1 then 1 else 0;
            Bounded(d.0, limit, c, lo, n + more, back)
  {
  }

  lemma LostIsNearlyStale(run: seq<Call>, limit: int, back: nat)
    requires run != [] && Swept(run, limit) && RunsBack(run, back)
    ensures var head, last := run[..|run| - 1], run[|run| - 1];
            last.lost ==> last.client in After(head, limit)
                          && After(head, limit)[last.client].start + WINDOW - back <= last.at
  {
    var head, last := run[..|run| - 1], run[|run| - 1];
    if last.lost {
      assert run[|run| - 1].lost;
      var j :| 0 <= j < |run| - 1 && Stale(After(head, limit)[last.client], run[j].at);
    }
  }

  lemma HeadIsSwept(run: seq<Call>, limit: int, back: nat)
    requires run != [] && Swept(run, limit) && RunsBack(run, back)
    ensures Swept(run[..|run| - 1], limit) && RunsBack(run[..|run| - 1], back)
  {
    var head := run[..|run| - 1];
    forall i | 0 <= i < |head| && head[i].lost
      ensures head[i].client in After(head[..i], limit)
      ensures exists j :: 0 <= j < i && Stale(After(head[..i], limit)[head[i].client], head[j].at)
    {
      assert run[i].lost && head[..i] == run[..i];
      var j :| 0 <= j < i && Stale(After(run[..i], limit)[run[i].client], run[j].at);
      assert head[j] == run[j];
    }
  }

  lemma {:induction false} RunIsBounded(run: seq<Call>, limit: nat, c: string, lo: int, back: nat)
    requires limit > 0 && Swept(run, limit) && RunsBack(run, back) && 4 * back <= WINDOW
    ensures Bounded(After(run, limit), limit, c, lo, Admitted(run, limit, c, lo, lo + WINDOW), back)
  {
    if run != [] {
      var head, last := run[..|run| - 1], run[|run| - 1];
      HeadIsSwept(run, limit, back);
      RunIsBounded(head, limit, c, lo, back);
      if c in After(head, limit) {
        WindowBegins(head, limit, c);
        var i :| 0 <= i < |head| && head[i].at == After(head, limit)[c].start;
        assert run[i] == head[i];
      }
      LostIsNearlyStale(run, limit, back);
      CallKeepsBounded(After(head, limit), limit, c, lo, Admitted(head, limit, c, lo, lo + WINDOW), last, back);
    }
  }

  /** In any interval one window long, both ends included, at most twice the limit is admitted
      if the times never run back, and at most three times if they do by up to 15 s. */
  lemma AtMostTwiceTheLimit(run: seq<Call>, limit: nat, c: string, lo: int, back: nat)
    requires limit > 0 && Swept(run, limit) && RunsBack(run, back) && 4 * back <= WINDOW
    ensures Admitted(run, limit, c, lo, lo + WINDOW) <= if back == 0 then 2 * limit else 3 * limit
  {
    RunIsBounded(run, limit, c, lo, back);
  }

  /** One window is never given more than the limit: the calls admitted since the client's
      window began are as many as its counter says. */
  lemma {:induction false} WindowIsExact(run: seq<Call>, limit: nat, c: string, hi: int)
    requires limit > 0 && Swept(run, limit) && Clocked(run) && Until(run, hi) && c in After(run, limit)
    ensures var e := After(run, limit)[c]; Admitted(run, limit, c, e.start, hi) == e.count <= limit
  {
    var head, last := run[..|run| - 1], run[|run| - 1];
    var m := After(head, limit);
    HeadIsSwept(run, limit, 0);
    RunIsBounded(head, limit, c, last.at, 0);
    LostIsNearlyStale(run, limit, 0);
    if c in m {
      WindowIsExact(head, limit, c, hi);
      WindowBegins(head, limit, c);
      var i :| 0 <= i < |head| && head[i].at == m[c].start;
      assert run[i] == head[i];
      assert head[|head| - 1].at <= last.at;
    }
    if last.client == c && (c !in m || Stale(m[c], last.at)) {
      EndDoesNotMatter(head, limit, c, last.at, last.at + WINDOW, hi);
    }
  }

  function Calls(c: string, times: seq<int>): (run: seq<Call>)
    ensures |run| == |times| && forall i :: 0 <= i < |run| ==> run[i] == Call(c, times[i], false)
  {
    seq(|times|, i requires 0 <= i < |times| => Call(c, times[i], false))
  }

  /** The calls leave the one counter `e`, and `n` of them were admitted from 0 to one window
      later, limit 3. */
  predicate Leaves(c: string, times: seq<int>, e: Entry, n: nat) {
    After(Calls(c, times), 3) == map[c := e] && Admitted(Calls(c, times), 3, c, 0, WINDOW) == n
  }

  function Bumped(e: Entry, at: int): Entry {
    if Stale(e, at) then Entry(at, 1) else if e.count >= 3 then e else Entry(e.start, e.count + 1)
  }

  lemma OneMoreOf(c: string, times: seq<int>, at: int, e: Entry, n: nat)
    requires Leaves(c, times, e, n)
    ensures Leaves(c, times + [at], Bumped(e, at),
                   n + if 0 <= at <= WINDOW && (Stale(e, at) || e.count < 3) then 1 else 0)
  {
    var run := Calls(c, times);
    assert Calls(c, times + [at]) == run + [Call(c, at, false)];
    OneMore(run, 3, Call(c, at, false));
    assert (run + [Call(c, at, false)])[..|run|] == run;
  }

  lemma FirstCall(c: string, at: int)
    requires at < 0
    ensures Leaves(c, [at], Entry(at, 1), 0)
  {
    var run := Calls(c, [at]);
    assert run[..0] == [] && After([], 3) == map[] && Admitted([], 3, c, 0, WINDOW) == 0;
  }

  lemma ThreeMoreOf(c: string, times: seq<int>, x: int, y: int, z: int, e: Entry, n: nat)
    requires Leaves(c, times, e, n)
    ensures var b, d := Bumped(e, x), Bumped(Bumped(e, x), y);
            Leaves(c, times + [x, y, z], Bumped(d, z),
                   n + (if 0 <= x <= WINDOW && (Stale(e, x) || e.count < 3) then 1 else 0)
                   + (if 0 <= y <= WINDOW && (Stale(b, y) || b.count < 3) then 1 else 0)
                   + (if 0 <= z <= WINDOW && (Stale(d, z) || d.count < 3) then 1 else 0))
  {
    OneMoreOf(c, times, x, e, n);
    var m := n + if 0 <= x <= WINDOW && (Stale(e, x) || e.count < 3) then 1 else 0;
    OneMoreOf(c, times + [x], y, Bumped(e, x), m);
    var d := Bumped(Bumped(e, x), y);
    var k := m + if 0 <= y <= WINDOW && (Stale(Bumped(e, x), y) || Bumped(e, x).count < 3) then 1 else 0;
    OneMoreOf(c, times + [x] + [y], z, d, k);
    assert times + [x] + [y] + [z] == times + [x, y, z];
  }

  /** Times that run back by two nanoseconds: of ten calls, none of them lost, seven are
      admitted from 0 to one window later, though the limit is 3. */
  lemma BackwardsAdmitsMore(c: string)
    ensures var run := Calls(c, [2 - WINDOW, 0, 0, 0] + [2, 2, 2] + [2 + WINDOW, WINDOW, WINDOW]);
            && Swept(run, 3) && RunsBack(run, 2)
            && Admitted(run, 3, c, 0, WINDOW) == 7 > 2 * 3
  {
    FirstCall(c, 2 - WINDOW);
    ThreeMoreOf(c, [2 - WINDOW], 0, 0, 0, Entry(2 - WINDOW, 1), 0);
    assert [2 - WINDOW] + [0, 0, 0] == [2 - WINDOW, 0, 0, 0];
    ThreeMoreOf(c, [2 - WINDOW, 0, 0, 0], 2, 2, 2, Entry(2 - WINDOW, 3), 2);
    ThreeMoreOf(c, [2 - WINDOW, 0, 0, 0] + [2, 2, 2], 2 + WINDOW, WINDOW, WINDOW, Entry(2, 3), 5);
  }
}
