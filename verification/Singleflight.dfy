/** Coalescing of concurrent forwards (internal/resolver/singleflight.go): the first
    caller for a key leads and runs the exchange, the others wait for its result.

    `Group` is what the shards' mutexes guard (the shard of a key is a function of the
    key, so one map stands for all of them) plus the call records. `Do` takes the
    mutex twice and waits or works in between; each stretch is one step below. */
module Singleflights {
  import opened Wrappers

  type CallId = nat
  type Thread = nat

  datatype Group<!K(==), !R> = Group(
    inFlight: map<K, CallId>,
    results: map<CallId, R>,
    calls: nat)

  datatype Entry = Lead(call: CallId) | Follow(call: CallId)

  /** First critical section: join the call in flight or start one. */
  function Enter<K, R>(g: Group<K, R>, k: K): (Group<K, R>, Entry) {
    if k in g.inFlight then (g, Follow(g.inFlight[k]))
    else (g.(inFlight := g.inFlight[k := g.calls], calls := g.calls + 1), Lead(g.calls))
  }

  /** The leader stores fn's result and lets the waiters go. */
  function Publish<K, R>(g: Group<K, R>, c: CallId, r: R): Group<K, R> { g.(results := g.results[c := r]) }

  /** Second critical section: forget the call. */
  function Forget<K, R>(g: Group<K, R>, k: K): Group<K, R> { g.(inFlight := g.inFlight - {k}) }

  class Singleflight<K(==), R> {
    var inFlight: map<K, CallId>
    var results: map<CallId, R>
    var calls: nat

    ghost function State(): Group<K, R>
      reads this
    {
      Group(inFlight, results, calls)
    }

    constructor ()
      ensures State() == Group(map[], map[], 0)
    {
      inFlight, results, calls := map[], map[], 0;
    }

    method Join(k: K) returns (e: Entry)
      modifies this
      ensures (State(), e) == Enter(old(State()), k)
    {
      if k in inFlight { return Follow(inFlight[k]); }
      e := Lead(calls);
      inFlight := inFlight[k := calls];
      calls := calls + 1;
    }

    method Complete(c: CallId, r: R)
      modifies this
      ensures State() == Publish(old(State()), c, r)
    {
      results := results[c := r];
    }

    method Remove(k: K)
      modifies this
      ensures State() == Forget(old(State()), k)
    {
      inFlight := inFlight - {k};
    }
  }

  // ---------------------------------------------------------------- all interleavings

  /** Where a thread is inside `Do`. */
  datatype Place<!K(==), !R> =
    | Running(k: K, c: CallId)
    | Leaving(k: K, c: CallId, r: R)
    | Waiting(k: K, c: CallId)
    | Returned(k: K, c: CallId, r: R, led: bool)

  /** What fn returned, for which key. */
  datatype Ran<!K, !R> = Ran(k: K, r: R)

  /** `leader` records who started each call, `ran` what its fn returned. */
  datatype World<!K(==), !R> = World(
    g: Group<K, R>,
    at: map<Thread, Place<K, R>>,
    leader: map<CallId, Thread>,
    ran: map<CallId, Ran<K, R>>)

  datatype Step<!K(==), !R> = Call(t: Thread, k: K) | FnReturns(t: Thread, r: R) | Delete(t: Thread) | Wake(t: Thread)

  function Start<K, R>(): World<K, R> { World(Group(map[], map[], 0), map[], map[], map[]) }

  /** A thread may call again once it returned. */
  ghost predicate Enabled<K, R>(w: World<K, R>, s: Step<K, R>) {
    match s
    case Call(t, _) => t in w.at ==> w.at[t].Returned?
    case FnReturns(t, _) => t in w.at && w.at[t].Running?
    case Delete(t) => t in w.at && w.at[t].Leaving?
    case Wake(t) => t in w.at && w.at[t].Waiting? && w.at[t].c in w.g.results
  }

  ghost function Next<K, R>(w: World<K, R>, s: Step<K, R>): World<K, R>
    requires Enabled(w, s)
  {
    match s
    case Call(t, k) =>
      var r := Enter(w.g, k);
      if r.1.Lead? then
        w.(g := r.0, at := w.at[t := Running(k, r.1.call)], leader := w.leader[r.1.call := t])
      else
        w.(g := r.0, at := w.at[t := Waiting(k, r.1.call)])
    case FnReturns(t, r) =>
      var p := w.at[t];
      w.(g := Publish(w.g, p.c, r), at := w.at[t := Leaving(p.k, p.c, r)], ran := w.ran[p.c := Ran(p.k, r)])
    case Delete(t) =>
      var p := w.at[t];
      w.(g := Forget(w.g, p.k), at := w.at[t := Returned(p.k, p.c, p.r, true)])
    case Wake(t) =>
      var p := w.at[t];
      w.(at := w.at[t := Returned(p.k, p.c, w.g.results[p.c], false)])
  }

  ghost predicate Possible<K, R>(w: World<K, R>, run: seq<Step<K, R>>)
    decreases |run|
  {
    run == [] || (Enabled(w, run[0]) && Possible(Next(w, run[0]), run[1..]))
  }

  ghost function After<K, R>(w: World<K, R>, run: seq<Step<K, R>>): World<K, R>
    requires Possible(w, run)
    decreases |run|
  {
    if run == [] then w else After(Next(w, run[0]), run[1..])
  }

  ghost predicate Fine<K, R>(w: World<K, R>, t: Thread)
    requires t in w.at
  {
    var p := w.at[t];
    && p.c in w.leader
    && match p {
         case Running(k, c) => k in w.g.inFlight && w.g.inFlight[k] == c && w.leader[c] == t && c !in w.ran
         case Leaving(k, c, r) =>
           k in w.g.inFlight && w.g.inFlight[k] == c && w.leader[c] == t && c in w.ran && w.ran[c] == Ran(k, r)
         case Waiting(k, c) =>
           if c in w.ran then w.ran[c].k == k
           else w.leader[c] in w.at && w.at[w.leader[c]] == Running(k, c)
         case Returned(k, c, r, _) => c in w.ran && w.ran[c] == Ran(k, r)
       }
  }

  /** The call in flight under k is one whose leader has not yet deleted it. */
  ghost predicate Led<K, R>(w: World<K, R>, k: K)
    requires k in w.g.inFlight
  {
    var c := w.g.inFlight[k];
    && c in w.leader && w.leader[c] in w.at
    && (w.at[w.leader[c]].Running? || w.at[w.leader[c]].Leaving?)
    && w.at[w.leader[c]].k == k && w.at[w.leader[c]].c == c
  }

  ghost predicate Inv<K, R>(w: World<K, R>) {
    && (forall t <- w.at :: Fine(w, t))
    && (forall k <- w.g.inFlight :: Led(w, k))
    && (forall c <- w.leader :: c < w.g.calls)
    && w.g.results.Keys == w.ran.Keys
    && (forall c <- w.ran :: w.ran[c].r == w.g.results[c] && c in w.leader)
  }

  lemma CallKeepsInv<K, R>(w: World<K, R>, t: Thread, k: K)
    requires Inv(w) && Enabled(w, Call(t, k))
    ensures Inv(Next(w, Call(t, k)))
  {
    var v := Next(w, Call(t, k));
    forall u <- v.at ensures Fine(v, u) {
      if u == t {
        if k in w.g.inFlight { assert Led(w, k); }
      } else {
        assert Fine(w, u);
      }
    }
    forall j <- v.g.inFlight ensures Led(v, j) {
      if j in w.g.inFlight { assert Led(w, j); }
    }
  }

  lemma FnReturnsKeepsInv<K, R>(w: World<K, R>, t: Thread, r: R)
    requires Inv(w) && Enabled(w, FnReturns(t, r))
    ensures Inv(Next(w, FnReturns(t, r)))
  {
    var v := Next(w, FnReturns(t, r));
    assert Fine(w, t);
    forall u <- v.at ensures Fine(v, u) {
      assert Fine(w, u);
    }
    forall j <- v.g.inFlight ensures Led(v, j) {
      assert Led(w, j);
    }
  }

  lemma DeleteKeepsInv<K, R>(w: World<K, R>, t: Thread)
    requires Inv(w) && Enabled(w, Delete(t))
    ensures Inv(Next(w, Delete(t)))
  {
    var v := Next(w, Delete(t));
    assert Fine(w, t);
    forall u <- v.at ensures Fine(v, u) {
      assert Fine(w, u);
    }
    forall j <- v.g.inFlight ensures Led(v, j) {
      assert Led(w, j);
    }
  }

  lemma WakeKeepsInv<K, R>(w: World<K, R>, t: Thread)
    requires Inv(w) && Enabled(w, Wake(t))
    ensures Inv(Next(w, Wake(t)))
  {
    var v := Next(w, Wake(t));
    assert Fine(w, t);
    forall u <- v.at ensures Fine(v, u) {
      assert Fine(w, u);
    }
    forall j <- v.g.inFlight ensures Led(v, j) {
      assert Led(w, j);
    }
  }

  lemma {:induction false} RunKeepsInv<K, R>(w: World<K, R>, run: seq<Step<K, R>>)
    requires Inv(w) && Possible(w, run)
    ensures Inv(After(w, run))
    decreases |run|
  {
    if run != [] {
      match run[0] {
        case Call(t, k) => CallKeepsInv(w, t, k);
        case FnReturns(t, r) => FnReturnsKeepsInv(w, t, r);
        case Delete(t) => DeleteKeepsInv(w, t);
        case Wake(t) => WakeKeepsInv(w, t);
      }
      RunKeepsInv(Next(w, run[0]), run[1..]);
    }
  }

  /** Who calls for a key in flight waits for that call; who calls for another leads a new one,
      and is then the one in flight. */
  lemma CallJoins<K, R>(w: World<K, R>, t: Thread, k: K)
    requires Enabled(w, Call(t, k))
    ensures var v := Next(w, Call(t, k));
            && t in v.at && (forall u <- w.at :: u != t ==> u in v.at && v.at[u] == w.at[u])
            && (if k in w.g.inFlight then v.at[t] == Waiting(k, w.g.inFlight[k]) && v.g == w.g
                else v.at[t] == Running(k, w.g.calls) && v.g.inFlight == w.g.inFlight[k := w.g.calls])
  {
  }

  /** In every interleaving: at most one fn runs per key; whatever any caller returned
      is the result of the fn that ran for its own key under the call it joined; and no
      waiter is left without a result or a leader still running. */
  lemma EveryRun<K, R>(run: seq<Step<K, R>>)
    requires Possible(Start<K, R>(), run)
    ensures var w := After(Start<K, R>(), run);
            && (forall t, u | t in w.at && u in w.at && w.at[t].Running? && w.at[u].Running? ::
                  w.at[t].k == w.at[u].k ==> t == u)
            && (forall t <- w.at :: w.at[t].Returned? ==>
                  w.at[t].c in w.ran && w.ran[w.at[t].c] == Ran(w.at[t].k, w.at[t].r))
            && (forall t <- w.at :: w.at[t].Waiting? ==>
                  w.at[t].c in w.g.results || exists u :: u in w.at && w.at[u] == Running(w.at[t].k, w.at[t].c))
  {
    RunKeepsInv(Start<K, R>(), run);
    var w := After(Start<K, R>(), run);
    forall t, u | t in w.at && u in w.at && w.at[t].Running? && w.at[u].Running? && w.at[t].k == w.at[u].k
      ensures t == u
    {
      assert Fine(w, t) && Fine(w, u);
    }
    forall t <- w.at ensures Fine(w, t) {}
  }

  /** The delete at the end of `Do` removes the leader's own call and nothing else. */
  lemma DeleteRemovesOwnCall<K, R>(run: seq<Step<K, R>>, t: Thread)
    requires Possible(Start<K, R>(), run) && Enabled(After(Start<K, R>(), run), Delete(t))
    ensures var w := After(Start<K, R>(), run);
            var v := Next(w, Delete(t));
            && w.at[t].k in w.g.inFlight && w.g.inFlight[w.at[t].k] == w.at[t].c
            && v.g.inFlight.Keys == w.g.inFlight.Keys - {w.at[t].k}
            && (forall k <- v.g.inFlight :: v.g.inFlight[k] == w.g.inFlight[k])
  {
    RunKeepsInv(Start<K, R>(), run);
    assert Fine(After(Start<K, R>(), run), t);
  }
}
