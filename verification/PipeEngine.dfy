/** The pool and its connections together (`exchange` of `pipePool`,
    internal/resolver/pipeline.go:109-141): a query reserves a slot, is inside `exchange` on
    that connection for a while, and then releases the slot. A connection is dead for the
    pool exactly when it has failed. */
module PipeEngine {
  import opened PipePools
  import opened Wrappers
  import C = PipeConns

  /** `calls` is the attempt a query is inside `exchange` with, `owner` whose attempt it is. */
  datatype Engine<!M> = Engine(pool: World, conns: map<ConnId, C.World<M>>, calls: map<QueryId, C.Attempt>,
                               owner: map<C.Attempt, QueryId>)

  function Begin<M>(): Engine<M> { Engine(START, map[], map[], map[]) }

  datatype Event<!M> =
    | PoolDoes(s: Step, firstID: nat)   // a section of `get` or `release`, or a wait that ends
    | Enter(q: QueryId, a: C.Attempt)
    | Read(c: ConnId, id: nat, m: M)
    | Fail(c: ConnId, e: C.Fault)
    | TimeOut(q: QueryId)
    | Leave(q: QueryId)

  ghost predicate Can<M>(w: Engine<M>, e: Event<M>) {
    match e
    case PoolDoes(s, _) => Enabled(w.pool, s) && !s.Dies? && (s.Done? ==> s.q !in w.calls)
    case Enter(q, a) =>
      q in w.pool.holders && q !in w.calls && a !in w.owner && w.pool.holders[q].conn in w.conns
      && var conn := w.conns[w.pool.holders[q].conn]; a !in conn.c.sent && a !in conn.tickets
    case Read(c, _, _) => c in w.conns
    case Fail(c, _) => c in w.conns
    case TimeOut(q) => Inside(w, q)
    case Leave(q) => Inside(w, q) && C.Enabled(Conn(w, q), C.Finish(w.calls[q]))
  }

  ghost predicate Inside<M>(w: Engine<M>, q: QueryId) {
    q in w.calls && q in w.pool.holders && w.pool.holders[q].conn in w.conns && w.calls[q] in Conn(w, q).active
  }

  function Conn<M>(w: Engine<M>, q: QueryId): C.World<M>
    requires q in w.pool.holders && w.pool.holders[q].conn in w.conns
  {
    w.conns[w.pool.holders[q].conn]
  }

  /** Connections closed by the pool have failed, a dialed one is new. */
  ghost function Followed<M>(conns: map<ConnId, C.World<M>>, p: Pool, firstID: nat): map<ConnId, C.World<M>> {
    map c | c in p.load ::
      if c !in conns then C.Open<M>(firstID)
      else if c in p.dead then C.Next(conns[c], C.Break(C.Closed))
      else conns[c]
  }

  /** `Begin` on the connection when its guard holds; `SlotAdmitsExchange` says that it does. */
  ghost function Entered<M>(w: Engine<M>, q: QueryId, a: C.Attempt): Engine<M>
    requires Can(w, Enter(q, a))
  {
    var c := w.pool.holders[q].conn;
    var conn := w.conns[c];
    if conn.c.dead || !C.Enabled(conn, C.Begin(a)) then w
    else w.(conns := w.conns[c := C.Next(conn, C.Begin(a))], calls := w.calls[q := a], owner := w.owner[a := q])
  }

  ghost function Then<M>(w: Engine<M>, e: Event<M>): Engine<M>
    requires Can(w, e)
  {
    match e
    case PoolDoes(s, firstID) =>
      var pool := Next(w.pool, s);
      w.(pool := pool, conns := Followed(w.conns, pool.p, firstID))
    case Enter(q, a) => Entered(w, q, a)
    case Read(c, id, m) => w.(conns := w.conns[c := C.Next(w.conns[c], C.Answer(id, m))])
    case Fail(c, e) =>
      w.(pool := Next(w.pool, Dies(c)), conns := w.conns[c := C.Next(w.conns[c], C.Break(e))])
    case TimeOut(q) =>
      w.(conns := w.conns[w.pool.holders[q].conn := C.Next(Conn(w, q), C.Expire(w.calls[q]))],
         calls := Without(w.calls, q))
    case Leave(q) =>
      w.(conns := w.conns[w.pool.holders[q].conn := C.Next(Conn(w, q), C.Finish(w.calls[q]))],
         calls := Without(w.calls, q))
  }

  ghost predicate Feasible<M>(w: Engine<M>, run: seq<Event<M>>)
    decreases |run|
  {
    run == [] || (Can(w, run[0]) && Feasible(Then(w, run[0]), run[1..]))
  }

  ghost function Finally<M>(w: Engine<M>, run: seq<Event<M>>): Engine<M>
    requires Feasible(w, run)
    decreases |run|
  {
    if run == [] then w else Finally(Then(w, run[0]), run[1..])
  }

  // ---------------------------------------------------------------- what every event keeps

  ghost predicate AllInv<M>(conns: map<ConnId, C.World<M>>) { forall c <- conns :: C.Inv(conns[c]) }

  ghost predicate DeadAgree<M>(conns: map<ConnId, C.World<M>>, p: Pool) {
    && conns.Keys == p.load.Keys && p.dead <= conns.Keys
    && forall c <- conns :: conns[c].c.dead <==> c in p.dead
  }

  ghost predicate ConnsFine<M>(w: Engine<M>) { AllInv(w.conns) && DeadAgree(w.conns, w.pool.p) }

  /** Every query inside `exchange` holds a slot of that connection. */
  ghost predicate CallsFine<M>(w: Engine<M>) {
    forall q <- w.calls :: Inside(w, q) && w.calls[q] in w.owner && w.owner[w.calls[q]] == q
  }

  /** Every attempt inside `exchange` on connection c is that of a query holding a slot of c. */
  ghost predicate Owned<M>(w: Engine<M>, c: ConnId, conn: C.World<M>) {
    forall a <- conn.active ::
      && a in w.owner && w.owner[a] in w.calls && w.calls[w.owner[a]] == a
      && w.owner[a] in w.pool.holders && w.pool.holders[w.owner[a]].conn == c
  }

  ghost predicate AllOwned<M>(w: Engine<M>) { forall c <- w.conns :: Owned(w, c, w.conns[c]) }

  ghost predicate Joined<M>(w: Engine<M>) {
    Inv(w.pool) && OnePlace(w.pool) && ConnsFine(w) && CallsFine(w) && AllOwned(w)
  }

  ghost function Owners(active: set<C.Attempt>, owner: map<C.Attempt, QueryId>): set<QueryId> {
    set a | a in active && a in owner :: owner[a]
  }

  lemma {:induction false} OwnersSize(active: set<C.Attempt>, owner: map<C.Attempt, QueryId>)
    requires forall a <- active :: a in owner
    requires forall a, b | a in active && b in active && owner[a] == owner[b] :: a == b
    ensures |Owners(active, owner)| == |active|
    decreases |active|
  {
    if active != {} {
      var a :| a in active;
      OwnersSize(active - {a}, owner);
      assert Owners(active, owner) == Owners(active - {a}, owner) + {owner[a]};
    } else {
      assert Owners(active, owner) == {};
    }
  }

  lemma OwnersHold<M>(w: Engine<M>, c: ConnId, conn: C.World<M>)
    requires Owned(w, c, conn)
    ensures Owners(conn.active.Keys, w.owner) <= HoldersOf(w.pool.holders, c) * w.calls.Keys
    ensures |Owners(conn.active.Keys, w.owner)| == |conn.active|
  {
    OwnersSize(conn.active.Keys, w.owner);
    assert |conn.active.Keys| == |conn.active|;
  }

  lemma OneMoreFits(some: set<QueryId>, all: set<QueryId>, q: QueryId)
    requires some <= all && q in all && q !in some
    ensures |some| < |all|
  {
    C.Fits(some + {q}, all);
  }

  /** The queries inside `exchange` on a connection are among those holding its slots. */
  lemma InsideFits<M>(w: Engine<M>, c: ConnId)
    requires Joined(w) && c in w.conns
    ensures |w.conns[c].active| <= w.pool.p.load[c] <= C.MAX_LOAD
  {
    assert Owned(w, c, w.conns[c]);
    OwnersHold(w, c, w.conns[c]);
    C.Fits(Owners(w.conns[c].active.Keys, w.owner), HoldersOf(w.pool.holders, c));
  }

  /** A query that holds a slot and is not inside `exchange` finds room to register: fewer
      than 64 others are inside on its connection, so the ID search ends. */
  lemma SlotAdmitsExchange<M>(w: Engine<M>, q: QueryId, a: C.Attempt)
    requires Joined(w) && Can(w, Enter(q, a))
    ensures C.Enabled(Conn(w, q), C.Begin(a))
    ensures |Conn(w, q).active| < w.pool.p.load[w.pool.holders[q].conn] <= C.MAX_LOAD
  {
    var c := w.pool.holders[q].conn;
    InsideFits(w, c);
    assert Owned(w, c, w.conns[c]);
    OwnersHold(w, c, w.conns[c]);
    OneMoreFits(Owners(w.conns[c].active.Keys, w.owner), HoldersOf(w.pool.holders, c), q);
    assert C.Inv(w.conns[c]);
  }

  // ---------------------------------------------------------------- pool events

  /** What a section of the pool does to holders and connections. */
  ghost predicate PoolMoved(p: World, v: World, busy: set<QueryId>) {
    && (forall q <- busy :: q in p.holders ==> q in v.holders && v.holders[q] == p.holders[q])
    && p.p.load.Keys <= v.p.load.Keys && p.p.dead <= v.p.dead
    && (forall c <- v.p.dead :: c in p.p.dead || (c in p.p.load && p.p.load[c] == 0))
  }

  lemma ReapMoves(w: World, quiet: set<ConnId>)
    requires Inv(w)
    ensures forall c <- Reap(w.p, quiet).dead :: c in w.p.dead || (c in w.p.load && w.p.load[c] == 0)
  {
    ClosedAreIdle(w.p, quiet, w.p.conns);
  }

  lemma {:induction false} ClosedAreIdle(p: Pool, quiet: set<ConnId>, conns: seq<ConnId>)
    ensures forall c <- Closed(p, quiet, conns) :: c in conns && LoadOf(p.load, c) == 0
  {
    if conns != [] { ClosedAreIdle(p, quiet, conns[..|conns| - 1]); }
  }

  lemma ChooseMoves(r: Pool, best: Option<ConnId>, limit: nat, now: int)
    ensures Choose(r, best, limit, now).0.dead == r.dead
    ensures r.load.Keys <= Choose(r, best, limit, now).0.load.Keys
  {
  }

  lemma BookMoves(w: World, q: QueryId, r: (Pool, Outcome), busy: set<QueryId>)
    requires q !in w.holders && w.p.load.Keys <= r.0.load.Keys && w.p.dead <= r.0.dead
    requires forall c <- r.0.dead :: c in w.p.dead || (c in w.p.load && w.p.load[c] == 0)
    ensures PoolMoved(w, Book(w, q, r, false), busy)
  {
  }

  lemma AskMoves(w: World, q: QueryId, quiet: set<ConnId>, busy: set<QueryId>)
    requires Inv(w) && Enabled(w, Ask(q, quiet))
    ensures PoolMoved(w, Next(w, Ask(q, quiet)), busy)
  {
    ReapMoves(w, quiet);
    var r := Reap(w.p, quiet);
    ChooseMoves(r, LeastOf(r.load, r.conns), Limit(w.p, w.now), w.now);
    BookMoves(w, q, Get(w.p, w.now, quiet), busy);
  }

  lemma DialMoves(w: World, s: Step, busy: set<QueryId>)
    requires OnePlace(w) && Enabled(w, s) && (s.Opened? || s.OpenFailed?)
    ensures PoolMoved(w, Next(w, s), busy)
  {
  }

  lemma DoneMoves(w: World, s: Step, busy: set<QueryId>)
    requires Enabled(w, s) && s.Done? && s.q !in busy
    ensures PoolMoved(w, Next(w, s), busy)
  {
    var v := Next(w, s);
    assert v.p.dead == w.p.dead && v.p.load.Keys == w.p.load.Keys;
  }

  lemma PoolMoves(w: World, s: Step, busy: set<QueryId>)
    requires Inv(w) && OnePlace(w) && Enabled(w, s) && !s.Dies? && (s.Done? ==> s.q !in busy)
    ensures PoolMoved(w, Next(w, s), busy)
  {
    match s
    case Ask(q, quiet) => AskMoves(w, q, quiet, busy);
    case Opened(_, _) => DialMoves(w, s, busy);
    case OpenFailed(_) => DialMoves(w, s, busy);
    case Done(_, _, _) => DoneMoves(w, s, busy);
    case Woken(_) =>
    case GaveUp(_) =>
    case Tick(_) =>
  }

  lemma PoolKeeps(w: World, s: Step)
    requires Inv(w) && OnePlace(w) && Enabled(w, s)
    ensures Inv(Next(w, s)) && OnePlace(Next(w, s))
  {
    StepKeepsAccounts(w, s);
    StepKeepsWakeable(w, s);
    StepKeepsOnePlace(w, s);
  }

  /** A connection the pool closes has nobody inside `exchange`. */
  lemma ClosingDisturbsNobody<M>(w: Engine<M>, s: Step, firstID: nat, c: ConnId)
    requires Joined(w) && Can(w, PoolDoes(s, firstID)) && c in Next(w.pool, s).p.dead && c !in w.pool.p.dead
    ensures c in w.conns && w.conns[c].active == map[]
  {
    PoolMoves(w.pool, s, w.calls.Keys);
    InsideFits(w, c);
  }

  lemma FollowedFine<M>(w: Engine<M>, v: World, firstID: nat, c: ConnId)
    requires ConnsFine(w) && PoolMoved(w.pool, v, w.calls.Keys) && c in v.p.load
    ensures var conns := Followed(w.conns, v.p, firstID);
            && C.Inv(conns[c]) && (conns[c].c.dead <==> c in v.p.dead)
            && conns[c].active == if c in w.conns then w.conns[c].active else map[]
  {
    if c in w.conns && c in v.p.dead { C.StepKeepsInv(w.conns[c], C.Break(C.Closed)); }
  }

  lemma PoolDoesKeeps<M>(w: Engine<M>, s: Step, firstID: nat)
    requires Joined(w) && Can(w, PoolDoes(s, firstID))
    ensures Joined(Then(w, PoolDoes(s, firstID)))
  {
    var v := Then(w, PoolDoes(s, firstID));
    PoolMoves(w.pool, s, w.calls.Keys);
    PoolKeeps(w.pool, s);
    forall c <- v.conns
      ensures C.Inv(v.conns[c]) && (v.conns[c].c.dead <==> c in v.pool.p.dead) && Owned(v, c, v.conns[c])
    {
      FollowedFine(w, v.pool, firstID, c);
      if c in w.conns { assert Owned(w, c, w.conns[c]); }
    }
    forall q <- v.calls ensures Inside(v, q) && v.calls[q] in v.owner && v.owner[v.calls[q]] == q {
      assert Inside(w, q);
      FollowedFine(w, v.pool, firstID, w.pool.holders[q].conn);
    }
  }

  // ---------------------------------------------------------------- connection events

  /** One connection replaced by `conn`. */
  ghost predicate Replaced<M>(w: Engine<M>, v: Engine<M>, c: ConnId, conn: C.World<M>) {
    && c in w.conns && v.conns == w.conns[c := conn]
    && v.pool.holders == w.pool.holders && v.pool.p.load == w.pool.p.load
    && v.pool.p.dead == (if conn.c.dead then w.pool.p.dead + {c} else w.pool.p.dead)
    && (w.conns[c].c.dead ==> conn.c.dead)
  }

  lemma ReplacedInv<M>(conns: map<ConnId, C.World<M>>, c: ConnId, conn: C.World<M>)
    requires C.Inv(conn) && AllInv(conns)
    ensures AllInv(conns[c := conn])
  {
  }

  lemma ReplacedDead<M>(w: Engine<M>, v: Engine<M>, c: ConnId, conn: C.World<M>)
    requires DeadAgree(w.conns, w.pool.p) && Replaced(w, v, c, conn)
    ensures DeadAgree(v.conns, v.pool.p)
  {
    assert v.conns.Keys == w.conns.Keys + {c};
  }

  lemma ReplacedFine<M>(w: Engine<M>, v: Engine<M>, c: ConnId, conn: C.World<M>)
    requires ConnsFine(w) && Replaced(w, v, c, conn) && C.Inv(conn)
    ensures ConnsFine(v)
  {
    ReplacedInv(w.conns, c, conn);
    ReplacedDead(w, v, c, conn);
  }

  lemma StaysOwned<M>(w: Engine<M>, v: Engine<M>, c: ConnId, conn: C.World<M>)
    requires AllOwned(w) && CallsFine(w) && Replaced(w, v, c, conn) && v.calls == w.calls && v.owner == w.owner
    requires conn.active == w.conns[c].active
    ensures AllOwned(v) && CallsFine(v)
  {
    forall d <- v.conns ensures Owned(v, d, v.conns[d]) {
      assert Owned(w, d, w.conns[d]);
    }
    forall q <- v.calls ensures Inside(v, q) && v.calls[q] in v.owner && v.owner[v.calls[q]] == q {
      assert Inside(w, q);
    }
  }

  /** Events that leave everybody inside `exchange`. */
  lemma StaysKeeps<M>(w: Engine<M>, v: Engine<M>, c: ConnId, conn: C.World<M>)
    requires Joined(w) && Replaced(w, v, c, conn) && v.calls == w.calls && v.owner == w.owner
    requires conn.active == w.conns[c].active && C.Inv(conn) && Inv(v.pool) && OnePlace(v.pool)
    ensures Joined(v)
  {
    ReplacedFine(w, v, c, conn);
    StaysOwned(w, v, c, conn);
  }

  lemma ReadReplaces<M>(w: Engine<M>, c: ConnId, id: nat, m: M)
    requires c in w.conns && (w.conns[c].c.dead <==> c in w.pool.p.dead)
    ensures var conn := C.Next(w.conns[c], C.Answer(id, m));
            Replaced(w, Then(w, Read(c, id, m)), c, conn) && conn.active == w.conns[c].active
  {
    if c in w.pool.p.dead { assert w.pool.p.dead + {c} == w.pool.p.dead; }
  }

  lemma ReadKeeps<M>(w: Engine<M>, c: ConnId, id: nat, m: M)
    requires Joined(w) && c in w.conns
    ensures Joined(Then(w, Read(c, id, m)))
  {
    ReadReplaces(w, c, id, m);
    assert C.Inv(w.conns[c]);
    C.StepKeepsInv(w.conns[c], C.Answer(id, m));
    StaysKeeps(w, Then(w, Read(c, id, m)), c, C.Next(w.conns[c], C.Answer(id, m)));
  }

  lemma FailReplaces<M>(w: Engine<M>, c: ConnId, e: C.Fault)
    requires c in w.conns
    ensures var conn := C.Next(w.conns[c], C.Break(e));
            Replaced(w, Then(w, Fail(c, e)), c, conn) && conn.active == w.conns[c].active
  {
  }

  lemma FailKeeps<M>(w: Engine<M>, c: ConnId, e: C.Fault)
    requires Joined(w) && c in w.conns
    ensures Joined(Then(w, Fail(c, e)))
  {
    FailReplaces(w, c, e);
    assert C.Inv(w.conns[c]);
    C.StepKeepsInv(w.conns[c], C.Break(e));
    PoolKeeps(w.pool, Dies(c));
    StaysKeeps(w, Then(w, Fail(c, e)), c, C.Next(w.conns[c], C.Break(e)));
  }

  /** One more call, of a query holding a slot of c. */
  lemma OwnedPlus<M>(w: Engine<M>, v: Engine<M>, q: QueryId, a: C.Attempt, d: ConnId, was: C.World<M>, now: C.World<M>)
    requires Owned(w, d, was) && q !in w.calls && a !in w.owner && q in w.pool.holders
    requires v.calls == w.calls[q := a] && v.owner == w.owner[a := q] && v.pool.holders == w.pool.holders
    requires now.active.Keys == was.active.Keys
             || (w.pool.holders[q].conn == d && now.active.Keys == was.active.Keys + {a})
    ensures Owned(v, d, now)
  {
  }

  lemma EnterOwned<M>(w: Engine<M>, v: Engine<M>, q: QueryId, a: C.Attempt, conn: C.World<M>)
    requires AllOwned(w) && Can(w, Enter(q, a)) && Replaced(w, v, w.pool.holders[q].conn, conn)
    requires v.calls == w.calls[q := a] && v.owner == w.owner[a := q]
    requires conn.active.Keys == Conn(w, q).active.Keys + {a}
    ensures AllOwned(v)
  {
    forall d <- v.conns ensures Owned(v, d, v.conns[d]) {
      OwnedPlus(w, v, q, a, d, w.conns[d], v.conns[d]);
    }
  }

  lemma EnterReplaces<M>(w: Engine<M>, q: QueryId, a: C.Attempt)
    requires Can(w, Enter(q, a)) && C.Enabled(Conn(w, q), C.Begin(a)) && !Conn(w, q).c.dead
    requires w.pool.holders[q].conn !in w.pool.p.dead
    ensures var v, conn := Then(w, Enter(q, a)), C.Next(Conn(w, q), C.Begin(a));
            && Replaced(w, v, w.pool.holders[q].conn, conn) && v.pool == w.pool
            && v.calls == w.calls[q := a] && v.owner == w.owner[a := q]
            && conn.active.Keys == Conn(w, q).active.Keys + {a}
  {
  }

  lemma EnterInside<M>(w: Engine<M>, v: Engine<M>, q: QueryId, a: C.Attempt, conn: C.World<M>)
    requires CallsFine(w) && Can(w, Enter(q, a)) && Replaced(w, v, w.pool.holders[q].conn, conn)
    requires v.calls == w.calls[q := a] && v.owner == w.owner[a := q]
    requires conn.active.Keys == Conn(w, q).active.Keys + {a}
    ensures CallsFine(v)
  {
    forall p <- v.calls ensures Inside(v, p) && v.calls[p] in v.owner && v.owner[v.calls[p]] == p {
      if p != q { assert Inside(w, p); }
    }
  }

  lemma EnterKeeps<M>(w: Engine<M>, q: QueryId, a: C.Attempt)
    requires Joined(w) && Can(w, Enter(q, a))
    ensures Joined(Then(w, Enter(q, a)))
  {
    SlotAdmitsExchange(w, q, a);
    if !Conn(w, q).c.dead {
      var v, c, conn := Then(w, Enter(q, a)), w.pool.holders[q].conn, C.Next(Conn(w, q), C.Begin(a));
      EnterReplaces(w, q, a);
      C.StepKeepsInv(Conn(w, q), C.Begin(a));
      ReplacedFine(w, v, c, conn);
      EnterOwned(w, v, q, a, conn);
      EnterInside(w, v, q, a, conn);
    }
  }

  /** The query is no longer inside `exchange`. */
  lemma GoneOwned<M>(w: Engine<M>, v: Engine<M>, q: QueryId, conn: C.World<M>)
    requires AllOwned(w) && Inside(w, q) && Replaced(w, v, w.pool.holders[q].conn, conn)
    requires v.calls == Without(w.calls, q) && v.owner == w.owner && conn.active == Conn(w, q).active - {w.calls[q]}
    ensures AllOwned(v)
  {
    forall d <- v.conns ensures Owned(v, d, v.conns[d]) {
      assert Owned(w, d, w.conns[d]);
    }
  }

  lemma GoneInside<M>(w: Engine<M>, v: Engine<M>, q: QueryId, conn: C.World<M>)
    requires CallsFine(w) && Inside(w, q) && Replaced(w, v, w.pool.holders[q].conn, conn)
    requires v.calls == Without(w.calls, q) && v.owner == w.owner && conn.active == Conn(w, q).active - {w.calls[q]}
    ensures CallsFine(v)
  {
    forall p <- v.calls ensures Inside(v, p) && v.calls[p] in v.owner && v.owner[v.calls[p]] == p {
      assert Inside(w, p);
    }
  }

  lemma GoneKeeps<M>(w: Engine<M>, v: Engine<M>, q: QueryId, conn: C.World<M>)
    requires Joined(w) && Inside(w, q) && Replaced(w, v, w.pool.holders[q].conn, conn) && v.pool == w.pool
    requires v.calls == Without(w.calls, q) && v.owner == w.owner && conn.active == Conn(w, q).active - {w.calls[q]}
    requires C.Inv(conn)
    ensures Joined(v)
  {
    ReplacedFine(w, v, w.pool.holders[q].conn, conn);
    GoneOwned(w, v, q, conn);
    GoneInside(w, v, q, conn);
  }

  lemma TimeOutKeeps<M>(w: Engine<M>, q: QueryId)
    requires Joined(w) && Inside(w, q)
    ensures Joined(Then(w, TimeOut(q)))
  {
    var conn := Conn(w, q);
    assert C.Inv(conn);
    C.StepKeepsInv(conn, C.Expire(w.calls[q]));
    EndReplaces(w, TimeOut(q));
    GoneKeeps(w, Then(w, TimeOut(q)), q, C.Next(conn, C.Expire(w.calls[q])));
  }

  lemma LeaveKeeps<M>(w: Engine<M>, q: QueryId)
    requires Joined(w) && Can(w, Leave(q))
    ensures Joined(Then(w, Leave(q)))
  {
    var conn := Conn(w, q);
    assert C.Inv(conn);
    C.StepKeepsInv(conn, C.Finish(w.calls[q]));
    EndReplaces(w, Leave(q));
    GoneKeeps(w, Then(w, Leave(q)), q, C.Next(conn, C.Finish(w.calls[q])));
  }

  lemma EndReplaces<M>(w: Engine<M>, e: Event<M>)
    requires Can(w, e) && (e.TimeOut? || e.Leave?)
    requires Conn(w, e.q).c.dead <==> w.pool.holders[e.q].conn in w.pool.p.dead
    ensures var v, c := Then(w, e), w.pool.holders[e.q].conn;
            && Replaced(w, v, c, v.conns[c]) && v.pool == w.pool
            && v.conns[c].active == Conn(w, e.q).active - {w.calls[e.q]}
  {
    var v, c := Then(w, e), w.pool.holders[e.q].conn;
    if c in w.pool.p.dead { assert w.pool.p.dead + {c} == w.pool.p.dead; }
  }

  lemma EventKeeps<M>(w: Engine<M>, e: Event<M>)
    requires Joined(w) && Can(w, e)
    ensures Joined(Then(w, e))
  {
    match e
    case PoolDoes(s, firstID) => PoolDoesKeeps(w, s, firstID);
    case Enter(q, a) => EnterKeeps(w, q, a);
    case Read(c, id, m) => ReadKeeps(w, c, id, m);
    case Fail(c, f) => FailKeeps(w, c, f);
    case TimeOut(q) => TimeOutKeeps(w, q);
    case Leave(q) => LeaveKeeps(w, q);
  }

  lemma {:induction false} RunKeepsJoined<M>(w: Engine<M>, run: seq<Event<M>>)
    requires Joined(w) && Feasible(w, run)
    ensures Joined(Finally(w, run))
    decreases |run|
  {
    if run != [] {
      EventKeeps(w, run[0]);
      RunKeepsJoined(Then(w, run[0]), run[1..]);
    }
  }

  /** In every run of the pool with its connections: whoever holds a slot can register, a
      connection has no more queries inside `exchange` than slots taken, at most 64, and all
      the guarantees of pool and connections hold. */
  lemma EveryRun<M>(run: seq<Event<M>>, q: QueryId, a: C.Attempt, c: ConnId)
    requires Feasible(Begin<M>(), run)
    ensures var w := Finally(Begin<M>(), run);
            && Inv(w.pool)
            && (c in w.conns ==>
                  c in w.pool.p.load && C.Inv(w.conns[c]) && |w.conns[c].active| <= w.pool.p.load[c] <= C.MAX_LOAD)
            && (Can(w, Enter(q, a)) ==> C.Enabled(Conn(w, q), C.Begin(a)))
  {
    RunKeepsJoined(Begin<M>(), run);
    var w := Finally(Begin<M>(), run);
    if c in w.conns { InsideFits(w, c); }
    if Can(w, Enter(q, a)) { SlotAdmitsExchange(w, q, a); }
  }
}
