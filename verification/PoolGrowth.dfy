/** How the pool learns the number of queries a connection may carry (`release` in
    internal/resolver/pipeline.go:214-242): what raises the limit, what lowers it, and by
    how much, over every interleaving. */
module PoolGrowth {
  import opened PipePools
  import opened Wrappers

  /** A query lets go of a connection the server dropped with n >= 2 queries in flight, for
      the first time. */
  ghost predicate Drops(w: World, s: Step)
    requires Enabled(w, s)
  {
    s.Done? && s.dropped && w.p.load[w.holders[s.q].conn] >= 2 && w.holders[s.q].conn !in w.p.counted
  }

  /** A query that filled its connection to the limit is over with a reply. */
  ghost predicate Fills(w: World, s: Step)
    requires Enabled(w, s)
  {
    s.Done? && s.ok && w.holders[s.q].atLimit && !Drops(w, s)
  }

  /** The most a limit may be: the ceiling as long as it lasts. */
  function Most(p: Pool, now: int): nat { if now < p.ceilingUntil then p.ceiling else 64 }

  function Wider(p: Pool, now: int): nat {
    var next := if p.learned then p.limit + 1 else 2 * p.limit;
    if next < Most(p, now) then next else Most(p, now)
  }

  /** What each step does to the limit: a counted drop with n in flight halves n, the last of
      as many successes as the limit widens it, and nothing else moves it. */
  lemma StepMovesLimit(w: World, s: Step)
    requires Enabled(w, s)
    ensures var p, v := w.p, Next(w, s).p;
            if Drops(w, s) then
              var n := p.load[w.holders[s.q].conn];
              v.learned && v.limit == (if n / 2 < 1 then 1 else n / 2) && v.grown == 0
            else if !Fills(w, s) then
              v.learned == p.learned && v.limit == p.limit && v.grown == p.grown
            else if p.grown + 1 < p.limit then
              v.learned == p.learned && v.limit == p.limit && v.grown == p.grown + 1
            else
              v.learned == p.learned && v.limit == Wider(p, w.now) && v.grown == 0
  {
    match s
    case Ask(q, quiet) => AskSpares(w, q, quiet);
    case Opened(_, _) =>
    case OpenFailed(_) =>
    case Done(_, _, _) =>
    case Woken(_) =>
    case GaveUp(_) =>
    case Dies(_) =>
    case Tick(_) =>
  }

  lemma AskSpares(w: World, q: QueryId, quiet: set<ConnId>)
    requires Enabled(w, Ask(q, quiet))
    ensures var p, v := w.p, Next(w, Ask(q, quiet)).p;
            v.learned == p.learned && v.limit == p.limit && v.grown == p.grown && v.ceilingUntil == p.ceilingUntil
  {
  }

  // ---------------------------------------------------------------- runs

  ghost predicate Dropless(w: World, run: seq<Step>)
    requires Possible(w, run)
    decreases |run|
  {
    run == [] || (!Drops(w, run[0]) && Dropless(Next(w, run[0]), run[1..]))
  }

  /** How many of its steps are such successes. */
  ghost function Filled(w: World, run: seq<Step>): nat
    requires Possible(w, run)
    decreases |run|
  {
    if run == [] then 0 else (if Fills(w, run[0]) then 1 else 0) + Filled(Next(w, run[0]), run[1..])
  }

  /** With fewer successes than the limit, and no drop, the limit stays. */
  lemma {:induction false} LimitStays(w: World, run: seq<Step>)
    requires Possible(w, run) && Dropless(w, run) && w.p.grown + Filled(w, run) < w.p.limit
    ensures var v := After(w, run).p;
            v.limit == w.p.limit && v.learned == w.p.learned && v.grown == w.p.grown + Filled(w, run)
    decreases |run|
  {
    if run != [] {
      StepMovesLimit(w, run[0]);
      LimitStays(Next(w, run[0]), run[1..]);
    }
  }

  /** After as many successes as the limit, and no drop, it is doubled, or raised by one if a
      drop was ever counted, up to the most allowed at that time. */
  lemma LimitRises(w: World, run: seq<Step>, last: Step)
    requires Possible(w, run) && Dropless(w, run) && w.p.grown + Filled(w, run) + 1 == w.p.limit
    requires Enabled(After(w, run), last) && Fills(After(w, run), last)
    ensures var u, v := After(w, run), Next(After(w, run), last);
            var next := if w.p.learned then w.p.limit + 1 else 2 * w.p.limit;
            v.p.limit == (if next < Most(u.p, u.now) then next else Most(u.p, u.now)) && v.p.grown == 0
  {
    LimitStays(w, run);
    StepMovesLimit(After(w, run), last);
  }

  /** A counted drop sets the limit to half of what was in flight, which is more than the limit
      was exactly if the connection carried more than twice as much (and one). */
  lemma DropRaisesIff(w: World, s: Step)
    requires Enabled(w, s) && Drops(w, s) && w.p.limit >= 1
    ensures Next(w, s).p.limit > w.p.limit <==> w.p.load[w.holders[s.q].conn] >= 2 * w.p.limit + 2
  {
    StepMovesLimit(w, s);
  }

  /** The limit goes up in steps of one, but for counted drops. */
  ghost predicate StepsByOne(w: World, run: seq<Step>)
    requires Possible(w, run)
    decreases |run|
  {
    run == [] || ((Drops(w, run[0]) || Next(w, run[0]).p.limit <= w.p.limit + 1)
                  && StepsByOne(Next(w, run[0]), run[1..]))
  }

  /** Once a drop was counted, over every run no other step raises the limit by more than one. */
  lemma {:induction false} LearnedStepsByOne(w: World, run: seq<Step>)
    requires w.p.learned && Possible(w, run)
    ensures StepsByOne(w, run) && After(w, run).p.learned
    decreases |run|
  {
    if run != [] {
      StepMovesLimit(w, run[0]);
      LearnedStepsByOne(Next(w, run[0]), run[1..]);
    }
  }

  /** As long as no drop was counted there is no ceiling. */
  ghost predicate Open(w: World) { !w.p.learned && w.p.ceilingUntil <= w.now }

  lemma OpenStays(w: World, s: Step)
    requires Open(w) && Enabled(w, s) && !Drops(w, s)
    ensures Open(Next(w, s))
  {
    StepMovesLimit(w, s);
    if s.Ask? { AskSpares(w, s.q, s.quiet); }
  }

  /** The limit and the count towards the next after `n` successes of a fresh pool: the
      greatest power of two that is at most n + 2, up to 64. */
  ghost predicate Widened(limit: nat, grown: nat, n: nat) {
    && limit in {2, 4, 8, 16, 32, 64}
    && (if n < 62 then limit <= n + 2 < 2 * limit && grown == n + 2 - limit else limit == 64)
  }

  lemma {:induction false} Widens(w: World, run: seq<Step>, n: nat)
    requires Open(w) && Widened(w.p.limit, w.p.grown, n) && Possible(w, run) && Dropless(w, run)
    ensures var v := After(w, run); Open(v) && Widened(v.p.limit, v.p.grown, n + Filled(w, run))
    decreases |run|
  {
    if run != [] {
      var v := Next(w, run[0]);
      StepMovesLimit(w, run[0]);
      OpenStays(w, run[0]);
      Widens(v, run[1..], n + if Fills(w, run[0]) then 1 else 0);
    }
  }

  /** A pool that never counted a drop: in every run its limit is the greatest power of two
      that is at most two more than the number of successes at the limit, 64 from 62 on. */
  lemma FreshPoolWidens(run: seq<Step>)
    requires Possible(START, run) && Dropless(START, run)
    ensures var v, n := After(START, run).p, Filled(START, run);
            && !v.learned && v.limit in {2, 4, 8, 16, 32, 64}
            && (v.limit == 64 <==> n >= 62)
            && (n < 62 ==> v.limit <= n + 2 < 2 * v.limit)
  {
    Widens(START, run, 0);
  }

  // ---------------------------------------------------------------- a pool on one connection

  /** One live connection with n queries in flight, numbered from 0; everybody else is idle. */
  ghost predicate Steady(w: World, limit: nat, grown: nat, n: nat) {
    && w.p.conns == [0] && w.p.load == map[0 := n] && w.p.dead == {} && w.p.counted == {} && w.p.dialing == 0
    && w.p.limit == limit && w.p.grown == grown && Open(w)
    && (forall q: QueryId :: q in w.holders <==> q < n) && (forall q <- w.holders :: w.holders[q].conn == 0)
    && w.waiters == map[] && w.dialers == map[]
  }

  lemma OneLive(p: Pool)
    requires p.conns == [0] && 0 !in p.dead
    ensures Live(p, {}, p.conns) == [0] && Closed(p, {}, p.conns) == {} && LeastOf(p.load, [0]) == Some(0)
  {
    assert p.conns[..0] == [] && [0][..0] == [];
  }

  lemma AskJoins(w: World, limit: nat, grown: nat, n: nat)
    requires Steady(w, limit, grown, n) && n < limit <= 64
    ensures Enabled(w, Ask(n, {}))
    ensures var v := Next(w, Ask(n, {}));
            Steady(v, limit, grown, n + 1) && v.holders[n].atLimit == (n + 1 >= limit)
  {
    OneLive(w.p);
    var r := Reap(w.p, {});
    assert r.dead == w.p.dead && r == w.p;
    assert w.p.load[0 := n + 1] == map[0 := n + 1];
    assert Limit(w.p, w.now) == limit && LoadOf(r.load, 0) == n && LeastOf(r.load, r.conns) == Some(0);
    assert Get(w.p, w.now, {}) == (w.p.(load := map[0 := n + 1]), Reserved(0, n + 1 >= limit));
  }

  lemma DoneFills(w: World, limit: nat, grown: nat, n: nat)
    requires Steady(w, limit, grown, n + 1) && w.holders[n].atLimit && grown < limit <= 64
    ensures Enabled(w, Done(n, true, false)) && Fills(w, Done(n, true, false)) && !Drops(w, Done(n, true, false))
    ensures var v := Next(w, Done(n, true, false));
            if grown + 1 < limit then Steady(v, limit, grown + 1, n)
            else Steady(v, if 2 * limit < 64 then 2 * limit else 64, 0, n)
  {
    StepMovesLimit(w, Done(n, true, false));
    OpenStays(w, Done(n, true, false));
  }

  /** A run without a drop to a limit of 64. */
  ghost predicate Reaches(w: World, run: seq<Step>) {
    Possible(w, run) && Dropless(w, run) && After(w, run).p.limit == 64
  }

  lemma Prefixed(w: World, s: Step, rest: seq<Step>)
    requires Enabled(w, s) && !Drops(w, s) && Reaches(Next(w, s), rest)
    ensures Reaches(w, [s] + rest)
  {
    assert ([s] + rest)[1..] == rest;
  }

  lemma AskFirst(w: World, limit: nat, grown: nat, n: nat) returns (v: World)
    requires Steady(w, limit, grown, n) && n < limit <= 64
    ensures Steady(v, limit, grown, n + 1) && v.holders[n].atLimit == (n + 1 >= limit)
    ensures forall rest :: Reaches(v, rest) ==> Reaches(w, [Ask(n, {})] + rest)
  {
    AskJoins(w, limit, grown, n);
    v := Next(w, Ask(n, {}));
    forall rest | Reaches(v, rest) ensures Reaches(w, [Ask(n, {})] + rest) {
      Prefixed(w, Ask(n, {}), rest);
    }
  }

  lemma DoneFirst(w: World, limit: nat, grown: nat, n: nat) returns (v: World)
    requires Steady(w, limit, grown, n + 1) && w.holders[n].atLimit && grown < limit <= 64
    ensures if grown + 1 < limit then Steady(v, limit, grown + 1, n)
            else Steady(v, if 2 * limit < 64 then 2 * limit else 64, 0, n)
    ensures forall rest :: Reaches(v, rest) ==> Reaches(w, [Done(n, true, false)] + rest)
  {
    DoneFills(w, limit, grown, n);
    v := Next(w, Done(n, true, false));
    forall rest | Reaches(v, rest) ensures Reaches(w, [Done(n, true, false)] + rest) {
      Prefixed(w, Done(n, true, false), rest);
    }
  }

  /** From a pool on one connection there is a run of successes that fills it to 64. */
  lemma {:induction false} Climbs(w: World, limit: nat, grown: nat, n: nat) returns (run: seq<Step>)
    requires Steady(w, limit, grown, n) && n < limit && grown < limit && limit in {2, 4, 8, 16, 32, 64}
    ensures Reaches(w, run)
    decreases 64 - limit, limit - grown, limit - n
  {
    if limit == 64 { return []; }
    var v := AskFirst(w, limit, grown, n);
    if n + 1 < limit {
      run := Climbs(v, limit, grown, n + 1);
      return [Ask(n, {})] + run;
    }
    var u := DoneFirst(v, limit, grown, n);
    if grown + 1 < limit { run := Climbs(u, limit, grown + 1, n); } else { run := Climbs(u, 2 * limit, 0, n); }
    return [Ask(n, {})] + ([Done(n, true, false)] + run);
  }

  /** The first query of a pool dials. */
  lemma FirstConnection() returns (w: World)
    ensures Enabled(START, Ask(0, {})) && Enabled(Next(START, Ask(0, {})), Opened(0, 0))
    ensures w == Next(Next(START, Ask(0, {})), Opened(0, 0)) && Steady(w, 2, 0, 1)
  {
    var a := Next(START, Ask(0, {}));
    assert Get(FRESH, 0, {}).1 == Dialing(2);
    assert a.dialers == map[0 := 2] && a.p.dialing == 1 && a.p.conns == [] && a.p.load == map[];
    w := Next(a, Opened(0, 0));
    assert w.p.conns == [0] && w.p.load == map[0 := 1];
  }

  /** A fresh pool does reach 64. */
  lemma ReachesMost() returns (run: seq<Step>)
    ensures Reaches(START, run)
  {
    var w := FirstConnection();
    run := Climbs(w, 2, 0, 1);
    Prefixed(Next(START, Ask(0, {})), Opened(0, 0), run);
    run := [Opened(0, 0)] + run;
    Prefixed(START, Ask(0, {}), run);
    run := [Ask(0, {})] + run;
  }

  // ---------------------------------------------------------------- a drop that raises the limit

  ghost predicate Leads(w: World, run: seq<Step>, v: World) { Possible(w, run) && After(w, run) == v }

  lemma LeadsOn(w: World, run: seq<Step>, v: World, s: Step)
    requires Leads(w, run, v) && Enabled(v, s)
    ensures Leads(w, run + [s], Next(v, s))
    decreases |run|
  {
    if run == [] {
      assert [] + [s] == [s] && [s][1..] == [];
    } else {
      LeadsOn(Next(w, run[0]), run[1..], v, s);
      assert (run + [s])[1..] == run[1..] + [s];
    }
  }

  lemma JoinsOn(begin: World, run: seq<Step>, w: World, limit: nat, grown: nat, n: nat)
    returns (more: seq<Step>, v: World)
    requires Leads(begin, run, w) && Steady(w, limit, grown, n) && n < limit <= 64
    ensures Leads(begin, more, v) && Steady(v, limit, grown, n + 1) && v.holders[n].atLimit == (n + 1 >= limit)
  {
    AskJoins(w, limit, grown, n);
    LeadsOn(begin, run, w, Ask(n, {}));
    more, v := run + [Ask(n, {})], Next(w, Ask(n, {}));
  }

  lemma FillsOn(begin: World, run: seq<Step>, w: World, limit: nat, grown: nat, n: nat)
    returns (more: seq<Step>, v: World)
    requires Leads(begin, run, w) && Steady(w, limit, grown, n + 1) && w.holders[n].atLimit && grown < limit <= 64
    ensures Leads(begin, more, v)
    ensures if grown + 1 < limit then Steady(v, limit, grown + 1, n)
            else Steady(v, if 2 * limit < 64 then 2 * limit else 64, 0, n)
  {
    DoneFills(w, limit, grown, n);
    LeadsOn(begin, run, w, Done(n, true, false));
    more, v := run + [Done(n, true, false)], Next(w, Done(n, true, false));
  }

  /** Four queries on a connection limited to four. */
  lemma FourInFlight() returns (run: seq<Step>, w: World)
    ensures Leads(START, run, w) && Steady(w, 4, 0, 4)
  {
    w := FirstConnection();
    LeadsOn(START, [], START, Ask(0, {}));
    LeadsOn(START, [] + [Ask(0, {})], Next(START, Ask(0, {})), Opened(0, 0));
    run := [] + [Ask(0, {})] + [Opened(0, 0)];
    run, w := JoinsOn(START, run, w, 2, 0, 1);
    run, w := FillsOn(START, run, w, 2, 0, 1);
    run, w := JoinsOn(START, run, w, 2, 1, 1);
    run, w := FillsOn(START, run, w, 2, 1, 1);
    run, w := JoinsOn(START, run, w, 4, 0, 1);
    run, w := JoinsOn(START, run, w, 4, 0, 2);
    run, w := JoinsOn(START, run, w, 4, 0, 3);
  }

  /** The fifth query gets a connection of its own. */
  lemma FifthDials(w: World) returns (v: World)
    requires Steady(w, 4, 0, 4)
    ensures Enabled(w, Ask(4, {})) && Enabled(Next(w, Ask(4, {})), Opened(4, 1))
    ensures v == Next(Next(w, Ask(4, {})), Opened(4, 1))
    ensures v.p.conns == [0, 1] && v.p.load == map[0 := 4, 1 := 1] && v.p.counted == {} && v.p.limit == 4
    ensures v.p.dead == w.p.dead && v.p.ceilingUntil <= v.now && v.holders == w.holders[4 := Hold(1, false)]
    ensures v.waiters == map[] && v.dialers == map[] && v.p.dialing == 0
  {
    OneLive(w.p);
    assert Reap(w.p, {}) == w.p && Limit(w.p, w.now) == 4;
    assert Get(w.p, w.now, {}).1 == Dialing(4);
    v := Next(Next(w, Ask(4, {})), Opened(4, 1));
    assert v.p.load == map[0 := 4, 1 := 1];
  }

  /** So that connection 1 is dropped with two queries in flight and connection 0 with four:
      the first drop lowers the limit to one, the second raises it again. */
  lemma TwoDrops(w: World, v: World)
    requires w.p.load == map[0 := 4, 1 := 2] && w.p.counted == {}
    requires 5 in w.holders && w.holders[5].conn == 1 && 0 in w.holders && w.holders[0].conn == 0
    requires Enabled(w, Done(5, false, true)) && v == Next(w, Done(5, false, true))
    ensures Enabled(v, Done(0, false, true)) && Drops(v, Done(0, false, true))
    ensures v.p.limit == 1 && Next(v, Done(0, false, true)).p.limit == 2
  {
    StepMovesLimit(w, Done(5, false, true));
    StepMovesLimit(v, Done(0, false, true));
  }

  lemma TwoLive(p: Pool)
    requires p.conns == [0, 1] && p.dead == {} && p.load == map[0 := 4, 1 := 1]
    ensures Reap(p, {}) == p && LeastOf(p.load, p.conns) == Some(1)
  {
    var all := p.conns;
    assert all[..0] == [] && all[..1] == [0] && all[..2] == all;
    LiveOne(p, {}, all, 0);
    LiveOne(p, {}, all, 1);
    DeadOne(p, {}, all, 0);
    DeadOne(p, {}, all, 1);
    LeastOne(p.load, [], 0);
    LeastOne(p.load, [0], 1);
    assert [] + [0] == [0] && [0] + [1] == all;
  }

  lemma SixthJoins(w: World) returns (v: World)
    requires w.p.conns == [0, 1] && w.p.load == map[0 := 4, 1 := 1] && w.p.dead == {} && w.p.limit == 4
    requires w.p.counted == {} && w.p.ceilingUntil <= w.now && 5 !in w.holders
    requires w.waiters == map[] && w.dialers == map[]
    ensures Enabled(w, Ask(5, {})) && v == Next(w, Ask(5, {}))
    ensures v.p.load == map[0 := 4, 1 := 2] && v.p.counted == {} && v.holders == w.holders[5 := Hold(1, false)]
  {
    TwoLive(w.p);
    assert w.p.load[1 := 2] == map[0 := 4, 1 := 2];
    assert Limit(w.p, w.now) == 4 && LoadOf(w.p.load, 1) == 1;
    assert Get(w.p, w.now, {}) == (w.p.(load := map[0 := 4, 1 := 2]), Reserved(1, false));
    v := Next(w, Ask(5, {}));
  }

  lemma SixInFlight() returns (run: seq<Step>, w: World)
    ensures Leads(START, run, w) && w.p.load == map[0 := 4, 1 := 2] && w.p.counted == {}
    ensures 5 in w.holders && w.holders[5].conn == 1 && 0 in w.holders && w.holders[0].conn == 0
  {
    var four;
    run, four := FourInFlight();
    var fifth := FifthDials(four);
    LeadsOn(START, run, four, Ask(4, {}));
    run := run + [Ask(4, {})];
    LeadsOn(START, run, Next(four, Ask(4, {})), Opened(4, 1));
    run := run + [Opened(4, 1)];
    w := SixthJoins(fifth);
    LeadsOn(START, run, fifth, Ask(5, {}));
    run := run + [Ask(5, {})];
    assert 0 in four.holders && four.holders[0].conn == 0;
  }

  /** A counted drop can raise the limit, although it is meant to lower it: a run in which it
      goes from one to two. */
  lemma DropCanRaise() returns (run: seq<Step>, w: World, last: Step)
    ensures Leads(START, run, w) && Enabled(w, last) && Drops(w, last)
    ensures w.p.limit == 1 && Next(w, last).p.limit == 2
  {
    var six;
    run, six := SixInFlight();
    LeadsOn(START, run, six, Done(5, false, true));
    run := run + [Done(5, false, true)];
    w, last := Next(six, Done(5, false, true)), Done(0, false, true);
    TwoDrops(six, w);
  }
}
