/** One pipelined stream connection (internal/resolver/pipeline.go): queries share it
    under 16-bit message IDs (section 6.2.1.1 of RFC 7766, section 3.3 of RFC 7858),
    a reader hands every answer to the query that asked, and a failure releases all
    that still wait.

    An `Attempt` is one call of the source's `exchange`; it stands for the one-slot
    channel that the call makes. `Conn` is what `pipeConn.mu` guards plus what went
    into those channels. */
module PipeConns {
  import opened Wrappers

  const IDS: nat := 0x1_0000
  const MAX_LOAD: nat := 64

  type Attempt = nat

  datatype Fault = NoFault | Closed | TimedOut | Dropped | OtherFault

  /** `sent[a]` is everything ever put into a's channel (None: the failure signal). */
  datatype Conn<!M> = Conn(
    pending: map<nat, Attempt>,
    nextID: nat,
    dead: bool,
    err: Fault,
    sent: map<Attempt, seq<Option<M>>>)

  function Put<M>(sent: map<Attempt, seq<Option<M>>>, a: Attempt, m: Option<M>): map<Attempt, seq<Option<M>>> {
    sent[a := (if a in sent then sent[a] else []) + [m]]
  }

  /** The first ID free at or after `from + k`, wrapping at 2^16 (`from` if none is). */
  function FreeFrom(pending: map<nat, Attempt>, from: nat, k: nat): (id: nat)
    requires from < IDS
    ensures id < IDS
    decreases IDS - k
  {
    if k >= IDS then from
    else if Wrap(from, k) !in pending then Wrap(from, k)
    else FreeFrom(pending, from, k + 1)
  }

  function Succ(id: nat): (next: nat)
    ensures next < IDS
  {
    (id + 1) % IDS
  }

  function Register<M>(c: Conn<M>, a: Attempt): Conn<M>
    requires c.nextID < IDS
  {
    if c.dead then c
    else
      var id := FreeFrom(c.pending, c.nextID, 0);
      c.(pending := c.pending[id := a], nextID := Succ(id), sent := c.sent[a := []])
  }

  function Unregister<M>(c: Conn<M>, id: nat): Conn<M> { c.(pending := c.pending - {id}) }

  function Deliver<M>(c: Conn<M>, id: nat, m: M): Conn<M> {
    if id in c.pending
    then c.(pending := c.pending - {id}, sent := Put(c.sent, c.pending[id], Some(m)))
    else c
  }

  /** The failure signal sent to each attempt in `to`. */
  function Signalled<M>(sent: map<Attempt, seq<Option<M>>>, to: set<Attempt>): map<Attempt, seq<Option<M>>> {
    map a | a in sent :: if a in to then sent[a] + [None] else sent[a]
  }

  lemma SignalOne<M>(sent: map<Attempt, seq<Option<M>>>, to: set<Attempt>, a: Attempt)
    requires a in sent && a !in to
    ensures Put(Signalled(sent, to), a, None) == Signalled(sent, to + {a})
  {
  }

  function FailAll<M>(c: Conn<M>, e: Fault): Conn<M> {
    if c.dead then c
    else
      c.(dead := true,
         err := if e == NoFault || e == TimedOut then Closed else e,
         pending := map[],
         sent := Signalled(c.sent, c.pending.Values))
  }

  // ---------------------------------------------------------------- the 16-bit ID search

  function Wrap(from: nat, j: nat): nat { (from + j) % IDS }

  /** The k IDs from `from` on. */
  function Run(from: nat, k: nat): (ids: set<nat>)
    ensures forall x <- ids :: exists j: nat :: j < k && x == Wrap(from, j)
  {
    if k == 0 then {} else Run(from, k - 1) + {Wrap(from, k - 1)}
  }

  lemma WrapNext(from: nat, j: nat)
    ensures Wrap(from, j + 1) == Succ(Wrap(from, j))
  {
  }

  lemma WrapDistinct(from: nat, i: nat, j: nat)
    requires from < IDS && i < j < IDS
    ensures Wrap(from, i) != Wrap(from, j)
  {
  }

  lemma {:induction false} RunSize(from: nat, k: nat)
    requires from < IDS && k <= IDS
    ensures |Run(from, k)| == k
  {
    if k > 0 {
      RunSize(from, k - 1);
      forall j: nat | j < k - 1 ensures Wrap(from, j) != Wrap(from, k - 1) {
        WrapDistinct(from, j, k - 1);
      }
    }
  }

  lemma Fits(a: set<nat>, b: set<nat>)
    requires a <= b
    ensures |a| <= |b|
  {
    assert b == a + (b - a);
  }

  lemma RunFits(keys: set<nat>, from: nat, k: nat)
    requires from < IDS && k <= IDS && Run(from, k) <= keys
    ensures k <= |keys|
  {
    RunSize(from, k);
    Fits(Run(from, k), keys);
  }

  /** While fewer than 2^16 queries are registered the search finds an unused ID, after
      at most as many steps as there are registered queries. */
  lemma SearchFindsFree(pending: map<nat, Attempt>, from: nat, k: nat)
    requires from < IDS && |pending| < IDS && k < IDS
    requires Run(from, k) <= pending.Keys
    ensures k <= |pending|
    ensures FreeFrom(pending, from, k) !in pending
    ensures Wrap(from, k) in pending ==> Run(from, k + 1) <= pending.Keys && k + 1 < IDS
    decreases IDS - k
  {
    assert |pending.Keys| == |pending|;
    RunFits(pending.Keys, from, k);
    if Wrap(from, k) in pending {
      assert Run(from, k + 1) <= pending.Keys;
      RunFits(pending.Keys, from, k + 1);
      SearchFindsFree(pending, from, k + 1);
    }
  }

  /** The search loop of `exchange`. */
  method SearchID(pending: map<nat, Attempt>, nextID: nat) returns (id: nat)
    requires nextID < IDS && |pending| < IDS
    ensures id == FreeFrom(pending, nextID, 0) && id !in pending
  {
    id := nextID;
    ghost var k: nat := 0;
    while id in pending
      invariant k < IDS && id == Wrap(nextID, k)
      invariant Run(nextID, k) <= pending.Keys
      invariant FreeFrom(pending, nextID, 0) == FreeFrom(pending, nextID, k)
      decreases IDS - k
    {
      SearchFindsFree(pending, nextID, k);
      WrapNext(nextID, k);
      id := Succ(id);
      k := k + 1;
    }
  }

  // ---------------------------------------------------------------- the source's object

  class PipeConn<M(==)> {
    var pending: map<nat, Attempt>
    var nextID: nat
    var dead: bool
    var err: Fault
    ghost var sent: map<Attempt, seq<Option<M>>>

    ghost function State(): Conn<M>
      reads this
    {
      Conn(pending, nextID, dead, err, sent)
    }

    constructor (firstID: nat)
      requires firstID < IDS
      ensures State() == Conn(map[], firstID, false, NoFault, map[])
    {
      pending, nextID, dead, err, sent := map[], firstID, false, NoFault, map[];
    }

    /** The first half of `exchange`: an ID unique on this connection. */
    method RegisterQuery(a: Attempt) returns (id: nat)
      requires nextID < IDS && |pending| < IDS
      modifies this
      ensures State() == Register(old(State()), a)
      ensures !dead ==> id !in old(pending) && pending == old(pending)[id := a] && nextID == Succ(id)
    {
      if dead { return 0; }
      id := SearchID(pending, nextID);
      nextID := Succ(id);
      pending := pending[id := a];
      sent := sent[a := []];
    }

    /** The timer case of `exchange`. */
    method Forget(id: nat)
      modifies this`pending
      ensures State() == Unregister(old(State()), id)
    {
      pending := pending - {id};
    }

    /** One answer read by `readLoop`. */
    method ReadOne(id: nat, m: M)
      modifies this
      ensures State() == Deliver(old(State()), id, m)
    {
      if id in pending {
        sent := Put(sent, pending[id], Some(m));
      }
      ghost var was := pending;
      pending := pending - {id};
      assert id !in was ==> pending == was;
    }

    /** The loop of `fail` over the waiters still registered. */
    method SignalAll(all: map<nat, Attempt>)
      requires forall id <- all :: all[id] in sent
      requires forall i, j | i in all && j in all && all[i] == all[j] :: i == j
      modifies this`sent
      ensures sent == Signalled(old(sent), all.Values)
    {
      var todo := all;
      ghost var done: set<Attempt> := {};
      assert sent == Signalled(old(sent), done);
      while todo != map[]
        invariant todo.Keys <= all.Keys && forall id <- todo :: todo[id] == all[id] && all[id] !in done
        invariant forall id <- all :: id in todo || all[id] in done
        invariant done <= all.Values
        invariant sent == Signalled(old(sent), done)
        decreases |todo|
      {
        var id :| id in todo;
        assert (todo - {id}).Keys == todo.Keys - {id};
        assert |(todo - {id}).Keys| < |todo.Keys|;
        SignalOne(old(sent), done, todo[id]);
        sent := Put(sent, todo[id], None);
        done := done + {todo[id]};
        todo := todo - {id};
      }
      assert done == all.Values;
    }

    method Fail(e: Fault)
      requires forall id <- pending :: pending[id] in sent
      requires forall i, j | i in pending && j in pending && pending[i] == pending[j] :: i == j
      modifies this
      ensures State() == FailAll(old(State()), e)
    {
      if dead { return; }
      dead := true;
      err := if e == NoFault || e == TimedOut then Closed else e;
      var waiting := pending;
      pending := map[];
      SignalAll(waiting);
    }
  }

  // ---------------------------------------------------------------- all interleavings

  /** A connection with the attempts inside `exchange` (and the ID each was given).
      Registrations are numbered by tickets that never wrap: an attempt's ID is its
      ticket modulo 2^16, and a message on the wire is known by the ticket it asked
      under. */
  datatype World<!M> = World(
    c: Conn<M>,
    active: map<Attempt, nat>,
    tickets: map<Attempt, nat>,
    asked: map<nat, Attempt>,
    issued: nat)

  datatype Step<!M> =
    | Begin(a: Attempt)
    | Answer(id: nat, m: M)
    | Break(e: Fault)
    | Expire(a: Attempt)
    | Finish(a: Attempt)

  function Open<M>(firstID: nat): World<M> {
    World(Conn(map[], firstID % IDS, false, NoFault, map[]), map[], map[], map[], firstID % IDS)
  }

  /** The pool lets at most 64 queries hold a slot on a connection at once. */
  ghost predicate Enabled<M>(w: World<M>, s: Step<M>) {
    match s
    case Begin(a) => a !in w.c.sent && a !in w.tickets && |w.active| < MAX_LOAD && w.c.nextID < IDS
    case Answer(_, _) => true
    case Break(_) => true
    case Expire(a) => a in w.active
    case Finish(a) => a in w.active && a in w.c.sent && w.c.sent[a] != []
  }

  /** The ticket number that carries ID `id`, counting from `issued`. */
  function Ticket(issued: nat, id: nat): (t: nat)
    requires id < IDS
    ensures issued <= t < issued + IDS && t % IDS == id
  {
    var base := issued - issued % IDS + id;
    if base >= issued then base else base + IDS
  }

  ghost function Next<M>(w: World<M>, s: Step<M>): World<M>
    requires Enabled(w, s)
  {
    match s
    case Begin(a) =>
      if w.c.dead then w
      else
        var id := FreeFrom(w.c.pending, w.c.nextID, 0);
        var t := Ticket(w.issued, id);
        World(Register(w.c, a), w.active[a := id], w.tickets[a := t], w.asked[t := a], t + 1)
    case Answer(id, m) => w.(c := Deliver(w.c, id, m))
    case Break(e) => w.(c := FailAll(w.c, e))
    case Expire(a) => w.(c := Unregister(w.c, w.active[a]), active := w.active - {a})
    case Finish(a) => w.(active := w.active - {a})
  }

  ghost predicate Possible<M>(w: World<M>, run: seq<Step<M>>)
    decreases |run|
  {
    run == [] || (Enabled(w, run[0]) && Possible(Next(w, run[0]), run[1..]))
  }

  ghost function After<M>(w: World<M>, run: seq<Step<M>>): World<M>
    requires Possible(w, run)
    decreases |run|
  {
    if run == [] then w else After(Next(w, run[0]), run[1..])
  }

  /** Registered attempts are inside `exchange`, under their own ID, and nothing was
      sent to them yet; no channel ever gets more than one message. */
  ghost predicate Registered<M>(w: World<M>) {
    && (forall id <- w.c.pending ::
          var a := w.c.pending[id];
          id < IDS && a in w.active && w.active[a] == id && a in w.c.sent && w.c.sent[a] == [])
    && (forall a <- w.active :: a in w.c.sent && a in w.tickets)
    && (forall a <- w.c.sent :: |w.c.sent[a]| <= 1)
    && (w.c.dead ==> w.c.pending == map[])
  }

  ghost predicate Numbered<M>(w: World<M>) {
    && w.c.nextID == w.issued % IDS
    && (forall a <- w.active :: a in w.tickets && w.active[a] == w.tickets[a] % IDS)
    && (forall a <- w.tickets :: w.tickets[a] in w.asked && w.asked[w.tickets[a]] == a)
    && (forall t <- w.asked :: t < w.issued)
  }

  /** While an ID is registered, no later ticket carries it. */
  ghost predicate Latest<M>(w: World<M>) {
    forall t, id | t in w.asked && id in w.c.pending && t % IDS == id ::
      w.c.pending[id] in w.tickets && t <= w.tickets[w.c.pending[id]]
  }

  ghost predicate Inv<M>(w: World<M>) { Registered(w) && Numbered(w) && Latest(w) }

  /** An attempt inside `exchange` is registered, or its channel already holds its message. */
  ghost predicate Complete<M>(w: World<M>) {
    forall a <- w.active ::
      a in w.c.sent && (|w.c.sent[a]| == 1 || (w.active[a] in w.c.pending && w.c.pending[w.active[a]] == a))
  }

  lemma {:induction false} InjectionSize(pending: map<nat, Attempt>, active: map<Attempt, nat>)
    requires forall id <- pending :: pending[id] in active && active[pending[id]] == id
    ensures |pending| <= |active|
    decreases |pending|
  {
    if pending != map[] {
      var id :| id in pending;
      var a := pending[id];
      assert (pending - {id}).Keys == pending.Keys - {id};
      assert (active - {a}).Keys == active.Keys - {a};
      assert |(pending - {id}).Keys| == |pending.Keys| - 1;
      assert |(active - {a}).Keys| == |active.Keys| - 1;
      InjectionSize(pending - {id}, active - {a});
    }
  }

  /** |pending| <= queries in exchange <= 64, so the ID search ends on an unused ID. */
  lemma SearchIsSafe<M>(w: World<M>)
    requires Registered(w) && |w.active| <= MAX_LOAD && w.c.nextID < IDS
    ensures |w.c.pending| <= |w.active| <= MAX_LOAD < IDS
    ensures FreeFrom(w.c.pending, w.c.nextID, 0) !in w.c.pending
  {
    InjectionSize(w.c.pending, w.active);
    SearchFindsFree(w.c.pending, w.c.nextID, 0);
  }

  lemma TicketNext(t: nat)
    ensures Succ(t % IDS) == (t + 1) % IDS
  {
  }

  lemma BeginRegisters<M>(w: World<M>, a: Attempt)
    requires Inv(w) && Enabled(w, Begin(a)) && !w.c.dead
    ensures Registered(Next(w, Begin(a)))
  {
    SearchIsSafe(w);
  }

  lemma BeginNumbers<M>(w: World<M>, a: Attempt)
    requires Inv(w) && Enabled(w, Begin(a)) && !w.c.dead
    ensures Numbered(Next(w, Begin(a)))
  {
    var t := Ticket(w.issued, FreeFrom(w.c.pending, w.c.nextID, 0));
    TicketNext(t);
  }

  lemma BeginIsLatest<M>(w: World<M>, a: Attempt)
    requires Inv(w) && Enabled(w, Begin(a)) && !w.c.dead
    ensures Latest(Next(w, Begin(a)))
  {
    var v := Next(w, Begin(a));
    forall t, id | t in v.asked && id in v.c.pending && t % IDS == id
      ensures v.c.pending[id] in v.tickets && t <= v.tickets[v.c.pending[id]]
    {
      if v.c.pending[id] != a { assert id in w.c.pending && w.c.pending[id] != a; }
    }
  }

  lemma BeginKeepsInv<M>(w: World<M>, a: Attempt)
    requires Inv(w) && Enabled(w, Begin(a))
    ensures Inv(Next(w, Begin(a)))
  {
    if !w.c.dead {
      BeginRegisters(w, a);
      BeginNumbers(w, a);
      BeginIsLatest(w, a);
    }
  }

  lemma StepKeepsInv<M>(w: World<M>, s: Step<M>)
    requires Inv(w) && Enabled(w, s)
    ensures Inv(Next(w, s))
  {
    match s
    case Begin(a) => BeginKeepsInv(w, a);
    case Answer(_, _) =>
    case Break(_) =>
    case Expire(a) =>
    case Finish(a) =>
  }

  /** Every channel gets at most one message in every interleaving, so no send blocks. */
  lemma {:induction false} RunKeepsInv<M>(w: World<M>, run: seq<Step<M>>)
    requires Inv(w) && Possible(w, run)
    ensures Inv(After(w, run))
    decreases |run|
  {
    if run != [] {
      StepKeepsInv(w, run[0]);
      RunKeepsInv(Next(w, run[0]), run[1..]);
    }
  }

  lemma Congruent(t: nat, u: nat)
    requires t % IDS == u % IDS && t <= u < t + IDS
    ensures t == u
  {
  }

  /** An answer to the query with ticket t reaches the query that asked, or nobody, as
      long as fewer than 2^16 IDs were handed out since. */
  lemma AnswerReachesAsker<M>(w: World<M>, t: nat)
    requires Inv(w) && t in w.asked && w.issued <= t + IDS && t % IDS in w.c.pending
    ensures w.c.pending[t % IDS] == w.asked[t]
  {
    var b := w.c.pending[t % IDS];
    assert w.tickets[b] in w.asked;
    Congruent(t, w.tickets[b]);
  }

  /** Every timeout of the run comes before 2^16 more IDs were handed out. */
  ghost predicate Timely<M>(w: World<M>, run: seq<Step<M>>)
    requires Possible(w, run)
    decreases |run|
  {
    run == [] ||
    ((run[0].Expire? ==> run[0].a in w.tickets && w.issued <= w.tickets[run[0].a] + IDS)
     && Timely(Next(w, run[0]), run[1..]))
  }

  lemma StepKeepsComplete<M>(w: World<M>, s: Step<M>)
    requires Inv(w) && Complete(w) && Enabled(w, s)
    requires s.Expire? ==> w.issued <= w.tickets[s.a] + IDS
    ensures Complete(Next(w, s))
  {
    match s
    case Begin(a) =>
      if !w.c.dead { SearchIsSafe(w); }
    case Answer(_, _) =>
    case Break(_) =>
    case Expire(a) =>
      if w.active[a] in w.c.pending { AnswerReachesAsker(w, w.tickets[a]); }
    case Finish(_) =>
  }

  /** No query is forgotten: at every point each is registered or has its message. */
  lemma {:induction false} RunKeepsComplete<M>(w: World<M>, run: seq<Step<M>>)
    requires Inv(w) && Complete(w) && Possible(w, run) && Timely(w, run)
    ensures Complete(After(w, run))
    decreases |run|
  {
    if run != [] {
      StepKeepsInv(w, run[0]);
      StepKeepsComplete(w, run[0]);
      RunKeepsComplete(Next(w, run[0]), run[1..]);
    }
  }

  /** `fail` leaves nobody waiting: the failure signal goes to exactly the attempts
      still registered, and with it every attempt has exactly one message. */
  lemma FailReleasesAll<M>(w: World<M>, e: Fault)
    requires Inv(w) && Complete(w) && !w.c.dead
    ensures var v := Next(w, Break(e));
            && v.c.pending == map[] && v.c.dead
            && (e in {Closed, Dropped, OtherFault} ==> v.c.err == e)
            && (e in {NoFault, TimedOut} ==> v.c.err == Closed)
            && (forall a <- w.active :: a in v.c.sent && |v.c.sent[a]| == 1)
            && (forall a <- w.c.sent :: a in v.c.sent &&
                  (v.c.sent[a] != w.c.sent[a] <==> a in w.active && w.c.sent[a] == []))
  {
    var v := Next(w, Break(e));
    assert v.c.sent == Signalled(w.c.sent, w.c.pending.Values);
    forall a | a in w.c.pending.Values
      ensures a in w.active && w.c.sent[a] == []
    {
      var id :| id in w.c.pending && w.c.pending[id] == a;
    }
    forall a <- w.active | w.c.sent[a] == []
      ensures a in w.c.pending.Values
    {
      assert w.c.pending[w.active[a]] == a;
    }
  }

  /** A failed connection registers nobody, and a later failure changes nothing. */
  lemma DeadStays<M>(w: World<M>, a: Attempt, e: Fault)
    requires w.c.dead && w.c.nextID < IDS
    ensures Register(w.c, a) == w.c && Next(w, Break(e)) == w
    ensures Enabled(w, Begin(a)) ==> Next(w, Begin(a)) == w
  {
  }

  /** The two guarantees on every run of a fresh connection. */
  lemma EveryRun<M>(firstID: nat, run: seq<Step<M>>)
    requires Possible(Open<M>(firstID), run)
    ensures Inv(After(Open<M>(firstID), run))
    ensures Timely(Open<M>(firstID), run) ==> Complete(After(Open<M>(firstID), run))
  {
    RunKeepsInv(Open<M>(firstID), run);
    if Timely(Open<M>(firstID), run) {
      RunKeepsComplete(Open<M>(firstID), run);
    }
  }

  // ---------------------------------------------------------------- a timer that fires late

  /** A timeout forgets nobody exactly when its ID is free or still its own. */
  lemma ExpireForgetsIff<M>(w: World<M>, a: Attempt)
    requires Inv(w) && Complete(w) && Enabled(w, Expire(a))
    ensures Complete(Next(w, Expire(a))) <==> w.active[a] !in w.c.pending || w.c.pending[w.active[a]] == a
  {
    var id := w.active[a];
    if id in w.c.pending && w.c.pending[id] != a {
      var b := w.c.pending[id];
      assert b in Next(w, Expire(a)).active;
    }
  }

  /** Attempt 0 was answered but is still inside `exchange`; the attempts up to `i` came
      and went after it. */
  ghost predicate Lapped<M>(w: World<M>, i: nat) {
    && !w.c.dead && w.c.pending == map[] && w.c.nextID == (i + 1) % IDS
    && w.active == map[0 := 0]
    && 0 in w.c.sent && |w.c.sent[0]| == 1
    && (forall a <- w.c.sent :: a <= i) && (forall a <- w.tickets :: a <= i)
  }

  lemma Prepend<M>(w: World<M>, s: Step<M>, run: seq<Step<M>>)
    requires Enabled(w, s) && Possible(Next(w, s), run)
    ensures Possible(w, [s] + run) && After(w, [s] + run) == After(Next(w, s), run)
  {
    assert ([s] + run)[1..] == run;
  }

  lemma FirstIDIsFree(from: nat)
    requires from < IDS
    ensures FreeFrom(map[], from, 0) == from
  {
    assert Wrap(from, 0) == from;
  }

  /** Beginning an attempt on an idle connection. */
  lemma BeginIdle<M>(w: World<M>, i: nat) returns (v: World<M>)
    requires Lapped(w, i)
    ensures Enabled(w, Begin(i + 1)) && v == Next(w, Begin(i + 1))
    ensures !v.c.dead && v.c.pending == map[w.c.nextID := i + 1] && v.c.nextID == (i + 2) % IDS
    ensures v.active == map[0 := 0, i + 1 := w.c.nextID]
    ensures v.c.sent == w.c.sent[i + 1 := []] && (forall a <- v.tickets :: a <= i + 1)
  {
    FirstIDIsFree(w.c.nextID);
    assert |map[0 := 0 as nat]| == 1;
    v := Next(w, Begin(i + 1));
    TicketNext(i + 1);
  }

  /** One attempt more: begun, answered, gone. */
  lemma OneLap<M>(w: World<M>, i: nat, m: M) returns (v: World<M>)
    requires Lapped(w, i)
    ensures Lapped(v, i + 1)
    ensures Enabled(w, Begin(i + 1)) && Enabled(Next(w, Begin(i + 1)), Answer(w.c.nextID, m))
    ensures var u := Next(Next(w, Begin(i + 1)), Answer(w.c.nextID, m));
            Enabled(u, Finish(i + 1)) && v == Next(u, Finish(i + 1))
  {
    var b := BeginIdle(w, i);
    var u := Next(b, Answer(w.c.nextID, m));
    assert u.c.pending == map[];
    assert b.c.pending[w.c.nextID] == i + 1;
    assert u.c.sent == Put(b.c.sent, i + 1, Some(m));
    assert b.c.sent[i + 1] == [] && [] + [Some(m)] == [Some(m)];
    assert u.c.sent[i + 1] == [Some(m)] && u.c.sent[0] == w.c.sent[0];
    v := Next(u, Finish(i + 1));
    assert v.active == map[0 := 0];
  }

  /** As many attempts more as one likes. */
  lemma {:induction false} Laps<M>(w: World<M>, i: nat, n: nat, m: M, rest: seq<Step<M>>)
    returns (run: seq<Step<M>>, v: World<M>)
    requires Lapped(w, i)
    ensures Lapped(v, i + n)
    ensures Possible(v, rest) ==> Possible(w, run) && After(w, run) == After(v, rest)
    decreases n
  {
    if n == 0 {
      run, v := rest, w;
    } else {
      var u := OneLap(w, i, m);
      var tail;
      tail, v := Laps(u, i + 1, n - 1, m, rest);
      var b := Next(w, Begin(i + 1));
      run := [Begin(i + 1)] + ([Answer(w.c.nextID, m)] + ([Finish(i + 1)] + tail));
      if Possible(v, rest) {
        Prepend(Next(b, Answer(w.c.nextID, m)), Finish(i + 1), tail);
        Prepend(b, Answer(w.c.nextID, m), [Finish(i + 1)] + tail);
        Prepend(w, Begin(i + 1), [Answer(w.c.nextID, m)] + ([Finish(i + 1)] + tail));
      }
    }
  }

  /** After 65535 attempts ID 0 comes round; the next attempt holds it, and attempt 0's timer
      unregisters it. */
  lemma RoundTheIDs<M>(v: World<M>)
    requires Lapped(v, IDS - 1)
    ensures var run := [Begin(IDS)] + ([Expire(0)] + []);
            Possible<M>(v, run)
            && var w := After(v, run);
               IDS in w.active && IDS in w.c.sent && w.c.sent[IDS] == [] && w.c.pending == map[] && !w.c.dead
  {
    var b := BeginIdle(v, IDS - 1);
    assert v.c.nextID == 0;
    Prepend(b, Expire(0), []);
    Prepend(v, Begin(IDS), [Expire(0)] + []);
    assert Next(b, Expire(0)).c.pending == map[];
  }

  /** So the hypothesis on timeouts is needed: a run after which a query waits that nothing
      on the connection knows of, the connection being alive. */
  lemma StaleTimerForgets<M>(m: M) returns (run: seq<Step<M>>)
    ensures Possible(Open<M>(0), run)
    ensures var w := After(Open<M>(0), run);
            && !Complete(w) && !w.c.dead
            && IDS in w.active && IDS in w.c.sent && w.c.sent[IDS] == [] && w.c.pending == map[]
  {
    var a := Open<M>(0);
    FirstIDIsFree(0);
    assert Enabled(a, Begin(0)) by { assert |a.active| == 0; }
    var b := Next(a, Begin(0));
    var c := Next(b, Answer(0, m));
    assert c.c.pending == map[] && b.c.nextID == 1;
    assert Lapped(c, 0);
    var last: seq<Step<M>> := [Begin(IDS)] + ([Expire(0)] + []);
    var tail, v := Laps(c, 0, IDS - 1, m, last);
    RoundTheIDs(v);
    Prepend(b, Answer(0, m), tail);
    Prepend(a, Begin(0), [Answer(0, m)] + tail);
    run := [Begin(0)] + ([Answer(0, m)] + tail);
  }
}
