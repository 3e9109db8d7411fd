/** Failover over a list of upstreams (internal/resolver/forward.go): `forwardOrdered`
    and `forwardHedged` as event loops over results and one timer.

    The network is an endless stream of events; the loop reads it while it runs, and
    the stream is feasible when every event it offers could happen at that point: a
    result only from a started upstream that has not reported, a timer only once it is
    due. `Step` is one turn of the loop on its variables (with a record of what was
    started and received), the methods are the loops, and the lemmas say what every
    feasible stream leads to. Times are milliseconds. */
module Forwarding {
  import opened Wrappers

  const DEFAULT_TIMEOUT := 1_500
  const HEDGE_DELAY := 30
  const HOUR := 3_600_000

  datatype Rcode = ServFail | Refused | OtherRcode

  datatype Msg<M> = Msg(rcode: Rcode, body: M)

  datatype Err = UpstreamTimeout | NoUpstreams | FromUpstream(e: int)

  /** What one exchange returns: a message, an error, or neither. */
  datatype Reply<M> = Got(msg: Msg<M>) | Failed(e: int) | Nothing

  datatype Result<M> = Result(idx: nat, reply: Reply<M>, rtt: int)

  datatype Event<M> = Arrive(res: Result<M>, at: int) | Fire(at: int)

  /** `Neither`: no message and no error, which a lone upstream may return. */
  datatype Outcome<M> = Answered(msg: Msg<M>, rtt: int, idx: nat) | NoAnswer(err: Err) | Neither

  predicate SoftFailure<M>(m: Msg<M>) { m.rcode == ServFail || m.rcode == Refused }

  predicate Real<M>(r: Reply<M>) { r.Got? && !SoftFailure(r.msg) }

  function BetterSoft<M>(cur: Option<Result<M>>, next: Result<M>): Option<Result<M>>
    requires next.reply.Got? && (cur.Some? ==> cur.value.reply.Got?)
  {
    if cur.None? || (cur.value.reply.msg.rcode != ServFail && next.reply.msg.rcode == ServFail)
    then Some(next) else cur
  }

  function ErrorOf<M>(r: Reply<M>): Err { if r.Failed? then FromUpstream(r.e) else NoUpstreams }

  function Relay<M>(r: Result<M>): Outcome<M>
    requires r.reply.Got?
  {
    Answered(r.reply.msg, r.rtt, r.idx)
  }

  // ---------------------------------------------------------------- what the caller is owed

  /** The first received result that satisfies p. */
  function First<M>(got: seq<Result<M>>, p: Result<M> -> bool): (r: Option<Result<M>>)
    ensures r.None? <==> forall x <- got :: !p(x)
    ensures r.Some? ==>
              exists i :: 0 <= i < |got| && got[i] == r.value && p(got[i]) && forall j | 0 <= j < i :: !p(got[j])
  {
    if got == [] then None
    else
      var r := First(got[..|got| - 1], p);
      if r.Some? then r else if p(got[|got| - 1]) then Some(got[|got| - 1]) else None
  }

  function IsReal<M>(): Result<M> -> bool { (x: Result<M>) => Real(x.reply) }

  function IsCode<M>(c: Rcode): Result<M> -> bool { (x: Result<M>) => x.reply.Got? && x.reply.msg.rcode == c }

  /** The first real answer, else the first SERVFAIL, else the first REFUSED. */
  function Best<M>(got: seq<Result<M>>): Option<Result<M>> {
    var answer := First(got, IsReal<M>());
    var fail := First(got, IsCode<M>(ServFail));
    if answer.Some? then answer else if fail.Some? then fail else First(got, IsCode<M>(Refused))
  }

  /** The error of the last result that carried no message. */
  function LastError<M>(got: seq<Result<M>>): Option<Err> {
    if got == [] then None
    else
      var r := got[|got| - 1].reply;
      if r.Got? then LastError(got[..|got| - 1]) else Some(ErrorOf(r))
  }

  function Owed<M>(got: seq<Result<M>>, otherwise: Err): Outcome<M>
    requires Best(got).Some? ==> Best(got).value.reply.Got?
  {
    if Best(got).Some? then Relay(Best(got).value)
    else NoAnswer(if LastError(got).Some? then LastError(got).value else otherwise)
  }

  lemma BestHasMessage<M>(got: seq<Result<M>>)
    ensures Best(got).Some? ==> Best(got).value.reply.Got? && Best(got).value in got
    ensures Best(got).None? <==> forall x <- got :: !x.reply.Got?
  {
  }

  lemma BestGrows<M>(got: seq<Result<M>>, r: Result<M>)
    requires First(got, IsReal<M>()).None?
    ensures Best(got).Some? ==> Best(got).value.reply.Got?
    ensures Best(got + [r]) ==
            if Real(r.reply) then Some(r)
            else if r.reply.Got? then BetterSoft(Best(got), r)
            else Best(got)
    ensures First(got + [r], IsReal<M>()) == if Real(r.reply) then Some(r) else None
    ensures LastError(got + [r]) == if r.reply.Got? then LastError(got) else Some(ErrorOf(r.reply))
  {
    BestHasMessage(got);
    assert (got + [r])[..|got|] == got;
  }

  // ---------------------------------------------------------------- ordered failover

  datatype Config = Config(n: nat, per: int, begin: int, deadline: int)

  datatype Start = Start(at: int, wait: int, seen: nat)

  /** Loop variables, then the record: upstreams still running, results received, and
      when each upstream was started, with what wait, after how many results. */
  datatype State<M> = State(
    next: nat,
    pending: nat,
    soft: Option<Result<M>>,
    lastErr: Option<Err>,
    timerAt: int,
    out: Option<Outcome<M>>,
    clock: int,
    running: set<nat>,
    got: seq<Result<M>>,
    starts: seq<Start>)

  function CanAdvance(c: Config, next: nat, now: int): bool { next < c.n && c.deadline - now > 0 }

  function WaitFor(c: Config, next: nat, now: int): int {
    var remaining := c.deadline - now;
    if next + 1 == c.n || c.per > remaining then remaining else c.per
  }

  function Advance<M>(c: Config, s: State<M>, now: int): State<M> {
    if !CanAdvance(c, s.next, now) then s
    else
      var wait := WaitFor(c, s.next, now);
      s.(next := s.next + 1, pending := s.pending + 1, timerAt := now + wait,
         running := s.running + {s.next}, starts := s.starts + [Start(now, wait, |s.got|)])
  }

  function Finish<M>(soft: Option<Result<M>>, lastErr: Option<Err>): Outcome<M>
    requires soft.Some? ==> soft.value.reply.Got?
  {
    if soft.Some? then Relay(soft.value)
    else NoAnswer(if lastErr.None? then UpstreamTimeout else lastErr.value)
  }

  ghost predicate Sound<M>(s: State<M>) {
    s.soft.Some? ==> s.soft.value.reply.Got?
  }

  function Init<M>(c: Config): State<M> {
    Advance(c, State(0, 0, None, None, c.begin + HOUR, None, c.begin, {}, [], []), c.begin)
  }

  ghost predicate Enabled<M>(s: State<M>, e: Event<M>) {
    match e
    case Arrive(res, at) => s.clock <= at && res.idx in s.running && s.pending > 0
    case Fire(at) => s.clock <= at && s.timerAt <= at
  }

  /** The arrival as the loop books it before looking at the reply. */
  function Received<M>(s: State<M>, res: Result<M>, at: int): State<M>
    requires s.pending > 0
  {
    s.(pending := s.pending - 1, clock := at, running := s.running - {res.idx}, got := s.got + [res])
  }

  /** One turn of the loop. */
  function Step<M>(c: Config, s: State<M>, e: Event<M>): State<M>
    requires Sound(s) && (e.Arrive? ==> s.pending > 0)
  {
    match e
    case Arrive(res, at) =>
      var t := Received(s, res, at);
      if Real(res.reply) then t.(out := Some(Relay(res)))
      else
        var u := if res.reply.Got? then t.(soft := BetterSoft(t.soft, res))
                 else t.(lastErr := Some(ErrorOf(res.reply)));
        if res.idx + 1 != u.next then u
        else if CanAdvance(c, u.next, at) then Advance(c, u, at)
        else if u.pending == 0 then u.(out := Some(Finish(u.soft, u.lastErr)))
        else u.(timerAt := c.deadline)
    case Fire(at) =>
      if CanAdvance(c, s.next, at) then Advance(c, s.(clock := at), at)
      else s.(clock := at, out := Some(Finish(s.soft, s.lastErr)))
  }

  /** The state before turn k (it stays put once there is an outcome, or when the
      stream offers an impossible event). */
  ghost function At<M>(c: Config, ev: nat -> Event<M>, k: nat): State<M> {
    if k == 0 then Init(c)
    else
      var s := At(c, ev, k - 1);
      if s.out.None? && Sound(s) && Enabled(s, ev(k - 1)) then Step(c, s, ev(k - 1)) else s
  }

  ghost predicate FeasibleAt<M>(c: Config, ev: nat -> Event<M>, k: nat) {
    At(c, ev, k).out.None? ==> Enabled(At(c, ev, k), ev(k))
  }

  ghost predicate Feasible<M>(c: Config, ev: nat -> Event<M>) {
    forall k: nat :: FeasibleAt(c, ev, k)
  }

  /** Every upstream past the first was started once its predecessor's wait was over,
      or once its predecessor had reported a failure. */
  ghost predicate InOrder<M>(s: State<M>, i: nat)
    requires 0 < i < |s.starts|
  {
    || s.starts[i - 1].at + s.starts[i - 1].wait <= s.starts[i].at
    || (exists j :: 0 <= j < |s.got| && j < s.starts[i].seen && s.got[j].idx == i - 1 && !Real(s.got[j].reply))
  }

  ghost predicate Bookkeeping<M>(c: Config, s: State<M>) {
    && s.next == |s.starts| <= c.n
    && s.pending == |s.running|
    && (forall i <- s.running :: i < s.next)
    && (s.next > 0 ==> s.timerAt == c.deadline || s.timerAt == s.starts[s.next - 1].at + s.starts[s.next - 1].wait)
    && (s.next == c.n && c.n > 0 ==> s.timerAt == c.deadline)
    && (s.next == 0 ==> c.deadline <= s.clock)
    && (forall i | 0 <= i < |s.starts| ::
          && s.starts[i].at < c.deadline
          && s.starts[i].wait == WaitFor(c, i, s.starts[i].at)
          && s.starts[i].seen <= |s.got|)
  }

  ghost predicate Choice<M>(c: Config, s: State<M>) {
    && Sound(s)
    && (Best(s.got).Some? ==> Best(s.got).value.reply.Got?)
    && (s.out.None? ==> First(s.got, IsReal<M>()).None? && s.soft == Best(s.got) && s.lastErr == LastError(s.got))
    && (s.out.Some? ==>
          && s.out.value == Owed(s.got, UpstreamTimeout)
          && (First(s.got, IsReal<M>()).Some? || c.deadline <= s.clock || (s.next == c.n && s.running == {})))
  }

  ghost predicate Inv<M>(c: Config, s: State<M>) {
    && Bookkeeping(c, s)
    && Choice(c, s)
    && (forall i | 0 < i < |s.starts| :: InOrder(s, i))
  }

  lemma AdvanceBooks<M>(c: Config, s: State<M>, now: int)
    requires Bookkeeping(c, s) && CanAdvance(c, s.next, now) && s.next !in s.running && s.clock <= now
    ensures Bookkeeping(c, Advance(c, s, now).(clock := now))
  {
  }

  /** Receiving results only adds evidence. */
  lemma MoreResults<M>(s: State<M>, t: State<M>, i: nat)
    requires 0 < i < |s.starts| && InOrder(s, i) && s.got <= t.got && s.starts <= t.starts
    ensures InOrder(t, i)
  {
    if s.starts[i - 1].at + s.starts[i - 1].wait > s.starts[i].at {
      var j :| 0 <= j < |s.got| && j < s.starts[i].seen && s.got[j].idx == i - 1 && !Real(s.got[j].reply);
      assert t.got[j] == s.got[j];
    }
  }

  lemma ReceivedBooks<M>(c: Config, s: State<M>, res: Result<M>, at: int)
    requires Bookkeeping(c, s) && Enabled(s, Arrive(res, at))
    ensures Bookkeeping(c, Received(s, res, at))
  {
    assert |s.running - {res.idx}| == s.pending - 1;
  }

  lemma ArriveBooks<M>(c: Config, s: State<M>, res: Result<M>, at: int)
    requires Bookkeeping(c, s) && Sound(s) && Enabled(s, Arrive(res, at))
    ensures Bookkeeping(c, Step(c, s, Arrive(res, at)))
  {
    ReceivedBooks(c, s, res, at);
    var t := Received(s, res, at);
    if !Real(res.reply) {
      var u := if res.reply.Got? then t.(soft := BetterSoft(t.soft, res))
               else t.(lastErr := Some(ErrorOf(res.reply)));
      assert Bookkeeping(c, u);
      if res.idx + 1 == u.next && CanAdvance(c, u.next, at) { AdvanceBooks(c, u, at); }
    }
  }

  lemma FireBooks<M>(c: Config, s: State<M>, at: int)
    requires Inv(c, s) && s.out.None? && Enabled(s, Fire(at))
    ensures Bookkeeping(c, Step(c, s, Fire(at)))
  {
    if CanAdvance(c, s.next, at) { AdvanceBooks(c, s, at); }
  }

  lemma FinishIsOwed<M>(got: seq<Result<M>>)
    requires Best(got).Some? ==> Best(got).value.reply.Got?
    ensures Finish(Best(got), LastError(got)) == Owed(got, UpstreamTimeout)
  {
  }

  lemma RealIsOwed<M>(got: seq<Result<M>>, r: Result<M>, otherwise: Err)
    requires First(got, IsReal<M>()).None? && Real(r.reply)
    ensures Best(got + [r]) == Some(r) && Relay(r) == Owed(got + [r], otherwise)
    ensures First(got + [r], IsReal<M>()).Some?
  {
    BestGrows(got, r);
  }

  lemma ArriveChooses<M>(c: Config, s: State<M>, res: Result<M>, at: int)
    requires Inv(c, s) && s.out.None? && Enabled(s, Arrive(res, at))
    ensures Choice(c, Step(c, s, Arrive(res, at)))
  {
    var got := s.got + [res];
    if Real(res.reply) {
      RealIsOwed(s.got, res, UpstreamTimeout);
    } else {
      BestGrows(s.got, res);
      var soft := if res.reply.Got? then BetterSoft(s.soft, res) else s.soft;
      var lastErr := if res.reply.Got? then s.lastErr else Some(ErrorOf(res.reply));
      assert soft == Best(got) && lastErr == LastError(got);
      FinishIsOwed(got);
      SoftChooses(c, s, res, at, soft, lastErr);
    }
  }

  lemma SoftChooses<M>(c: Config, s: State<M>, res: Result<M>, at: int, soft: Option<Result<M>>, lastErr: Option<Err>)
    requires Bookkeeping(c, s) && Sound(s) && s.out.None? && Enabled(s, Arrive(res, at)) && !Real(res.reply)
    requires soft == (if res.reply.Got? then BetterSoft(s.soft, res) else s.soft)
    requires lastErr == (if res.reply.Got? then s.lastErr else Some(ErrorOf(res.reply)))
    ensures var t := Step(c, s, Arrive(res, at));
            && t.got == s.got + [res] && t.soft == soft && t.lastErr == lastErr
            && (t.out.Some? ==> t.out.value == Finish(soft, lastErr)
                                && (c.deadline <= t.clock || (t.next == c.n && t.running == {})))
  {
    assert |s.running - {res.idx}| == s.pending - 1;
  }

  lemma FireChooses<M>(c: Config, s: State<M>, at: int)
    requires Inv(c, s) && s.out.None? && Enabled(s, Fire(at))
    ensures Choice(c, Step(c, s, Fire(at)))
  {
    var t := Step(c, s, Fire(at));
    assert t.got == s.got;
  }

  lemma StepKeepsOrder<M>(c: Config, s: State<M>, e: Event<M>, i: nat)
    requires Inv(c, s) && s.out.None? && Enabled(s, e)
    requires 0 < i < |Step(c, s, e).starts|
    ensures InOrder(Step(c, s, e), i)
  {
    var t := Step(c, s, e);
    assert s.got <= t.got && s.starts <= t.starts;
    if i < |s.starts| {
      MoreResults(s, t, i);
    } else if e.Arrive? {
      var j := |s.got|;
      assert t.got[j] == e.res && j < t.starts[i].seen;
    }
  }

  lemma StepKeepsInv<M>(c: Config, s: State<M>, e: Event<M>)
    requires Inv(c, s) && s.out.None? && Enabled(s, e)
    ensures Inv(c, Step(c, s, e))
  {
    match e {
      case Arrive(res, at) =>
        ArriveBooks(c, s, res, at);
        ArriveChooses(c, s, res, at);
      case Fire(at) =>
        FireBooks(c, s, at);
        FireChooses(c, s, at);
    }
    forall i | 0 < i < |Step(c, s, e).starts| ensures InOrder(Step(c, s, e), i) {
      StepKeepsOrder(c, s, e, i);
    }
  }

  /** At every turn of every stream: upstreams start in list order, each only after its
      predecessor failed or its wait elapsed, none once the budget is spent; and an
      outcome is the first real answer, else the first SERVFAIL, else the first REFUSED,
      else an error, with the index that produced it. */
  lemma {:induction false} EveryTurn<M>(c: Config, ev: nat -> Event<M>, k: nat)
    requires c.n > 0
    ensures Inv(c, At(c, ev, k))
  {
    if k > 0 {
      EveryTurn(c, ev, k - 1);
      var s := At(c, ev, k - 1);
      if s.out.None? && Enabled(s, ev(k - 1)) { StepKeepsInv(c, s, ev(k - 1)); }
    }
  }

  /** Turns the loop can still take. */
  function TurnsLeft<M>(c: Config, s: State<M>): int {
    if s.next == 0 then 1 else 2 * (c.n - s.next) + s.pending + 1
  }

  lemma ArriveUsesTurn<M>(c: Config, s: State<M>, res: Result<M>, at: int)
    requires Bookkeeping(c, s) && Sound(s) && s.out.None? && Enabled(s, Arrive(res, at))
    ensures var t := Step(c, s, Arrive(res, at));
            t.out.Some? || 1 <= TurnsLeft(c, t) < TurnsLeft(c, s)
  {
    assert s.next > 0;
  }

  lemma FireUsesTurn<M>(c: Config, s: State<M>, at: int)
    requires Bookkeeping(c, s) && Sound(s) && s.out.None? && Enabled(s, Fire(at))
    ensures var t := Step(c, s, Fire(at));
            t.out.Some? || 1 <= TurnsLeft(c, t) < TurnsLeft(c, s)
  {
  }

  lemma TurnUsesTurn<M>(c: Config, s: State<M>, e: Event<M>)
    requires Bookkeeping(c, s) && Sound(s) && s.out.None? && Enabled(s, e)
    ensures var t := Step(c, s, e);
            t.out.Some? || 1 <= TurnsLeft(c, t) < TurnsLeft(c, s)
  {
    match e {
      case Arrive(res, at) => ArriveUsesTurn(c, s, res, at);
      case Fire(at) => FireUsesTurn(c, s, at);
    }
  }

  /** One turn of the run uses one of those left. */
  lemma RunUsesTurn<M>(c: Config, ev: nat -> Event<M>, k: nat)
    requires c.n > 0 && FeasibleAt(c, ev, k) && At(c, ev, k).out.None?
    ensures var t := At(c, ev, k + 1);
            t.out.Some? || 1 <= TurnsLeft(c, t) < TurnsLeft(c, At(c, ev, k))
  {
    EveryTurn(c, ev, k);
    TurnUsesTurn(c, At(c, ev, k), ev(k));
  }

  lemma StaysEnded<M>(c: Config, ev: nat -> Event<M>, k: nat)
    requires At(c, ev, k).out.Some?
    ensures At(c, ev, k + 1).out.Some?
  {
  }

  lemma AtFirst<M>(c: Config, ev: nat -> Event<M>)
    requires c.n > 0
    ensures 1 <= TurnsLeft(c, At(c, ev, 0)) <= 2 * c.n
  {
  }

  /** Within 2n turns there is an outcome. */
  lemma {:induction false} EndsWithin<M>(c: Config, ev: nat -> Event<M>, k: nat)
    requires c.n > 0 && Feasible(c, ev)
    ensures At(c, ev, k).out.Some? || 1 <= TurnsLeft(c, At(c, ev, k)) <= 2 * c.n - k
    ensures k >= 2 * c.n ==> At(c, ev, k).out.Some?
  {
    if k == 0 {
      AtFirst(c, ev);
    } else {
      var j := k - 1;
      EndsWithin(c, ev, j);
      assert FeasibleAt(c, ev, j);
      if At(c, ev, j).out.None? { RunUsesTurn(c, ev, j); } else { StaysEnded(c, ev, j); }
    }
  }

  lemma TurnFacts<M>(c: Config, ev: nat -> Event<M>, k: nat)
    requires c.n > 0 && Feasible(c, ev) && At(c, ev, k).out.None?
    ensures k < 2 * c.n
    ensures Sound(At(c, ev, k)) && Enabled(At(c, ev, k), ev(k))
    ensures At(c, ev, k + 1) == Step(c, At(c, ev, k), ev(k))
  {
    EveryTurn(c, ev, k);
    EndsWithin(c, ev, k);
    assert FeasibleAt(c, ev, k);
  }

  /** A list of one upstream. */
  method ExchangeOnly<M>(reply: Reply<M>, rtt: int) returns (out: Outcome<M>)
    ensures out.Answered? <==> reply.Got?
    ensures reply.Got? ==> out == Answered(reply.msg, rtt, 0)
    ensures reply.Failed? ==> out == NoAnswer(FromUpstream(reply.e))
  {
    if reply.Failed? { return NoAnswer(FromUpstream(reply.e)); }
    if reply.Nothing? { return Neither; }
    return Answered(reply.msg, rtt, 0);
  }

  /** The run has its outcome after exactly `turns` events. */
  ghost predicate EndsAt<M>(c: Config, ev: nat -> Event<M>, turns: nat, out: Outcome<M>) {
    turns > 0 && At(c, ev, turns - 1).out.None? && At(c, ev, turns).out == Some(out)
  }

  lemma EndHere<M>(c: Config, ev: nat -> Event<M>, k: nat, out: Outcome<M>)
    requires At(c, ev, k).out.None? && At(c, ev, k + 1).out == Some(out)
    ensures EndsAt(c, ev, k + 1, out)
  {
  }

  /** The loop's variables. */
  datatype Vars<M> = Vars(next: nat, pending: nat, soft: Option<Result<M>>, lastErr: Option<Err>, timerAt: int)

  function VarsOf<M>(s: State<M>): Vars<M> { Vars(s.next, s.pending, s.soft, s.lastErr, s.timerAt) }

  /** The select statement of `forwardOrdered`. */
  method OrderedTurn<M>(c: Config, v: Vars<M>, e: Event<M>, ghost s: State<M>)
    returns (w: Vars<M>, out: Option<Outcome<M>>)
    requires v == VarsOf(s) && s.out.None? && Sound(s) && Enabled(s, e)
    ensures out == Step(c, s, e).out
    ensures out.None? ==> w == VarsOf(Step(c, s, e))
  {
    var next, pending, soft, lastErr, timerAt := v.next, v.pending, v.soft, v.lastErr, v.timerAt;
    if e.Arrive? {
      var res, at := e.res, e.at;
      pending := pending - 1;
      if res.reply.Got? {
        if !SoftFailure(res.reply.msg) { return v, Some(Relay(res)); }
        soft := BetterSoft(soft, res);
      } else {
        lastErr := Some(ErrorOf(res.reply));
      }
      if res.idx + 1 == next {
        if CanAdvance(c, next, at) {
          timerAt := at + WaitFor(c, next, at);
          next, pending := next + 1, pending + 1;
        } else if pending == 0 {
          return v, Some(Finish(soft, lastErr));
        } else {
          timerAt := c.deadline;
        }
      }
    } else {
      if !CanAdvance(c, next, e.at) { return v, Some(Finish(soft, lastErr)); }
      timerAt := e.at + WaitFor(c, next, e.at);
      next, pending := next + 1, pending + 1;
    }
    return Vars(next, pending, soft, lastErr, timerAt), None;
  }

  /** `forwardOrdered` over two or more upstreams: it reads `turns` <= 2n events and
      returns the outcome of the run (`OutcomeIsOwed` says which that is). */
  method ForwardOrdered<M>(n: nat, per0: int, begin: int, timeout: int, ev: nat -> Event<M>)
    returns (out: Outcome<M>, turns: nat)
    requires n >= 2
    requires Feasible(Config(n, if per0 <= 0 then DEFAULT_TIMEOUT else per0, begin, begin + timeout), ev)
    ensures turns <= 2 * n
    ensures EndsAt(Config(n, if per0 <= 0 then DEFAULT_TIMEOUT else per0, begin, begin + timeout), ev, turns, out)
  {
    var c := Config(n, if per0 <= 0 then DEFAULT_TIMEOUT else per0, begin, begin + timeout);
    var v: Vars<M> := Vars(0, 0, None, None, begin + HOUR);
    if CanAdvance(c, 0, begin) {
      v := Vars(1, 1, None, None, begin + WaitFor(c, 0, begin));
    }
    turns := 0;
    while true
      invariant v == VarsOf(At(c, ev, turns)) && At(c, ev, turns).out.None?
      decreases 2 * n - turns
    {
      TurnFacts(c, ev, turns);
      var w, ended := OrderedTurn(c, v, ev(turns), At(c, ev, turns));
      if ended.Some? {
        EndHere(c, ev, turns, ended.value);
        return ended.value, turns + 1;
      }
      v, turns := w, turns + 1;
    }
  }

  /** What the run returns: the first real answer received, else the first SERVFAIL,
      else the first REFUSED, else an error; and without a real answer it ends only
      when the budget is spent or every upstream has reported. */
  lemma OutcomeIsOwed<M>(c: Config, ev: nat -> Event<M>, turns: nat, out: Outcome<M>)
    requires c.n > 0 && EndsAt(c, ev, turns, out)
    ensures var s := At(c, ev, turns);
            && Choice(c, s) && out == Owed(s.got, UpstreamTimeout)
            && (First(s.got, IsReal<M>()).Some? || c.deadline <= s.clock || (s.next == c.n && s.running == {}))
  {
    EveryTurn(c, ev, turns);
  }

  /** A late failure can leave the loop with nobody to wait for and no outcome: exactly
      when the last upstream still running is not the one started last. It then waits
      for its timer. */
  lemma WaitsForNobodyIff<M>(c: Config, s: State<M>, res: Result<M>, at: int)
    requires Inv(c, s) && s.out.None? && Enabled(s, Arrive(res, at))
    ensures var t := Step(c, s, Arrive(res, at));
            (t.out.None? && t.running == {} <==>
             !Real(res.reply) && s.running == {res.idx} && res.idx + 1 != s.next)
  {
    var running := s.running - {res.idx};
    assert |running| == s.pending - 1;
    assert running == {} <==> s.running == {res.idx};
    if CanAdvance(c, s.next, at) { assert s.next in running + {s.next}; }
  }

  /** Two upstreams, both failed at 1.2 s, and the loop still waits (until 5 s). */
  lemma WaitsForNobodyHappens()
    ensures var c := Config(2, 1_000, 0, 5_000);
            var s1 := Step(c, Init<int>(c), Fire(1_000));
            var s2 := Step(c, s1, Arrive(Result(1, Failed(7), 100), 1_100));
            var s3 := Step(c, s2, Arrive(Result(0, Failed(8), 1_200), 1_200));
            && Enabled(Init<int>(c), Fire(1_000))
            && Enabled(s1, Arrive(Result(1, Failed(7), 100), 1_100))
            && Enabled(s2, Arrive(Result(0, Failed(8), 1_200), 1_200))
            && s3.running == {} && s3.out.None? && s3.timerAt == 5_000
  {
    var c := Config(2, 1_000, 0, 5_000);
    var s0 := Init<int>(c);
    assert s0.running == {0};
    var s1 := Step(c, s0, Fire(1_000));
    assert s1.running == {0, 1};
    var s2 := Step(c, s1, Arrive(Result(1, Failed(7), 100), 1_100));
    assert s2.running == {0};
  }

  // ---------------------------------------------------------------- hedged

  datatype Hedge<M> = Hedge(
    pending: nat,
    launched: bool,
    best: Option<Result<M>>,
    lastErr: Option<Err>,
    out: Option<Outcome<M>>,
    clock: int,
    running: set<nat>,
    got: seq<Result<M>>,
    fired: bool)

  function Rest(n: nat): (r: set<nat>)
    ensures forall i :: i in r <==> 1 <= i < n
  {
    if n <= 1 then {} else Rest(n - 1) + {n - 1}
  }

  function LaunchRest<M>(n: nat, h: Hedge<M>): Hedge<M>
    requires n > 0
  {
    if h.launched then h
    else h.(pending := h.pending + n - 1, launched := true, running := h.running + Rest(n))
  }

  function HInit<M>(begin: int): Hedge<M> { Hedge(1, false, None, None, None, begin, {0}, [], false) }

  ghost predicate HEnabled<M>(begin: int, h: Hedge<M>, e: Event<M>) {
    match e
    case Arrive(res, at) => h.clock <= at && res.idx in h.running && h.pending > 0
    case Fire(at) => h.clock <= at && !h.launched && begin + HEDGE_DELAY <= at
  }

  function HReceived<M>(h: Hedge<M>, res: Result<M>, at: int): Hedge<M>
    requires h.pending > 0
  {
    h.(pending := h.pending - 1, clock := at, running := h.running - {res.idx}, got := h.got + [res])
  }

  function HFinish<M>(best: Option<Result<M>>, lastErr: Option<Err>): Outcome<M>
    requires best.Some? ==> best.value.reply.Got?
  {
    if best.Some? then Relay(best.value) else NoAnswer(if lastErr.None? then NoUpstreams else lastErr.value)
  }

  function HStep<M>(n: nat, h: Hedge<M>, e: Event<M>): Hedge<M>
    requires n > 0 && (h.best.Some? ==> h.best.value.reply.Got?) && (e.Arrive? ==> h.pending > 0)
  {
    match e
    case Fire(at) => LaunchRest(n, h.(clock := at, fired := true))
    case Arrive(res, at) =>
      var t := HReceived(h, res, at);
      if Real(res.reply) then t.(out := Some(Relay(res)))
      else
        var u := LaunchRest(n, if res.reply.Got? then t.(best := BetterSoft(t.best, res))
                               else t.(lastErr := if res.reply.Failed? then Some(ErrorOf(res.reply)) else None));
        if u.pending == 0 then u.(out := Some(HFinish(u.best, u.lastErr))) else u
  }

  ghost function HAt<M>(n: nat, begin: int, ev: nat -> Event<M>, k: nat): Hedge<M>
    requires n > 0
  {
    if k == 0 then HInit(begin)
    else
      var h := HAt(n, begin, ev, k - 1);
      if h.out.None? && (h.best.Some? ==> h.best.value.reply.Got?) && HEnabled(begin, h, ev(k - 1))
      then HStep(n, h, ev(k - 1)) else h
  }

  ghost predicate HFeasibleAt<M>(n: nat, begin: int, ev: nat -> Event<M>, k: nat)
    requires n > 0
  {
    HAt(n, begin, ev, k).out.None? ==> HEnabled(begin, HAt(n, begin, ev, k), ev(k))
  }

  ghost predicate HFeasible<M>(n: nat, begin: int, ev: nat -> Event<M>)
    requires n > 0
  {
    forall k: nat :: HFeasibleAt(n, begin, ev, k)
  }

  function Or(e: Option<Err>, d: Err): Err { if e.Some? then e.value else d }

  function Launched<M>(n: nat, h: Hedge<M>): nat { if h.launched then n else 1 }

  ghost predicate Reported<M>(got: seq<Result<M>>, i: nat) { exists j :: 0 <= j < |got| && got[j].idx == i }

  /** Every upstream launched is running or has reported, and none reported twice. */
  ghost predicate Counts<M>(total: nat, pending: nat, running: set<nat>, got: seq<Result<M>>) {
    && pending == |running|
    && (forall i <- running :: i < total)
    && |got| + |running| == total
    && (forall i: nat | i < total :: i in running || Reported(got, i))
  }

  ghost predicate HCounts<M>(n: nat, h: Hedge<M>) { Counts(Launched(n, h), h.pending, h.running, h.got) }

  /** Upstream 0 runs alone until the hedge delay passed or it failed. */
  ghost predicate HCause<M>(begin: int, h: Hedge<M>) {
    && (h.fired ==> h.launched && begin + HEDGE_DELAY <= h.clock)
    && (h.launched && !h.fired ==> h.got != [] && h.got[0].idx == 0 && !Real(h.got[0].reply))
    && (!h.launched && h.out.None? ==> h.got == [] && h.running == {0})
  }

  ghost predicate HChoice<M>(n: nat, h: Hedge<M>) {
    && (h.best.Some? ==> h.best.value.reply.Got?)
    && (Best(h.got).Some? ==> Best(h.got).value.reply.Got?)
    && (h.out.None? ==>
          && First(h.got, IsReal<M>()).None? && h.best == Best(h.got)
          && Or(h.lastErr, NoUpstreams) == Or(LastError(h.got), NoUpstreams)
          && h.pending > 0)
    && (h.out.Some? ==>
          && h.out.value == Owed(h.got, NoUpstreams)
          && (First(h.got, IsReal<M>()).Some? || (h.launched && h.running == {})))
  }

  ghost predicate HInv<M>(n: nat, begin: int, h: Hedge<M>) {
    HCounts(n, h) && HCause(begin, h) && HChoice(n, h)
  }

  lemma {:induction false} RestSize(n: nat)
    requires n > 0
    ensures |Rest(n)| == n - 1
  {
    if n > 1 { RestSize(n - 1); }
  }

  lemma LaunchCounts<M>(n: nat, pending: nat, running: set<nat>, got: seq<Result<M>>)
    requires n > 0 && Counts(1, pending, running, got)
    ensures Counts(n, pending + n - 1, running + Rest(n), got)
  {
    RestSize(n);
    assert running !! Rest(n);
    assert |running + Rest(n)| == |running| + n - 1;
    forall i: nat | i < n ensures i in running + Rest(n) || Reported(got, i) {
      if i == 0 && i !in running { assert Reported(got, 0); }
    }
  }

  lemma ReceivedCounts<M>(total: nat, pending: nat, running: set<nat>, got: seq<Result<M>>, res: Result<M>)
    requires Counts(total, pending, running, got) && res.idx in running && pending > 0
    ensures Counts(total, pending - 1, running - {res.idx}, got + [res])
  {
    var got' := got + [res];
    assert |running - {res.idx}| == |running| - 1;
    assert got'[|got|].idx == res.idx;
    forall i: nat | i < total ensures i in running - {res.idx} || Reported(got', i) {
      if i != res.idx && i !in running {
        var j :| 0 <= j < |got| && got[j].idx == i;
        assert got'[j].idx == i;
      }
    }
  }

  /** The loop's variables after a reply that is no answer. */
  function HAbsorb<M>(t: Hedge<M>, res: Result<M>): Hedge<M>
    requires !Real(res.reply) && (t.best.Some? ==> t.best.value.reply.Got?)
  {
    if res.reply.Got? then t.(best := BetterSoft(t.best, res))
    else t.(lastErr := if res.reply.Failed? then Some(ErrorOf(res.reply)) else None)
  }

  ghost predicate Ready<M>(h: Hedge<M>) {
    h.out.None? && (h.best.Some? ==> h.best.value.reply.Got?)
  }

  lemma HStepBooks<M>(n: nat, h: Hedge<M>, res: Result<M>, at: int)
    requires n > 0 && h.pending > 0 && (h.best.Some? ==> h.best.value.reply.Got?)
    ensures var t := HStep(n, h, Arrive(res, at));
            var rest := !Real(res.reply) && !h.launched;
            && t.got == h.got + [res]
            && t.launched == (h.launched || rest)
            && t.pending == h.pending - 1 + (if rest then n - 1 else 0)
            && t.running == h.running - {res.idx} + (if rest then Rest(n) else {})
  {
  }

  lemma HStepCounts<M>(n: nat, begin: int, h: Hedge<M>, e: Event<M>)
    requires n > 0 && HCounts(n, h) && Ready(h) && HEnabled(begin, h, e)
    ensures HCounts(n, HStep(n, h, e))
  {
    if e.Fire? {
      LaunchCounts(n, h.pending, h.running, h.got);
    } else {
      HStepBooks(n, h, e.res, e.at);
      ReceivedCounts(Launched(n, h), h.pending, h.running, h.got, e.res);
      if !Real(e.res.reply) && !h.launched {
        LaunchCounts(n, h.pending - 1, h.running - {e.res.idx}, h.got + [e.res]);
      } else {
        assert h.running - {e.res.idx} + {} == h.running - {e.res.idx};
      }
    }
  }

  lemma HStepCause<M>(n: nat, begin: int, h: Hedge<M>, e: Event<M>)
    requires n > 0 && HCause(begin, h) && Ready(h) && HEnabled(begin, h, e)
    ensures HCause(begin, HStep(n, h, e))
  {
    if e.Arrive? && !h.launched {
      assert HStep(n, h, e).got[0] == e.res;
    }
  }

  lemma HFinishIsOwed<M>(got: seq<Result<M>>, lastErr: Option<Err>)
    requires Best(got).Some? ==> Best(got).value.reply.Got?
    requires Or(lastErr, NoUpstreams) == Or(LastError(got), NoUpstreams)
    ensures HFinish(Best(got), lastErr) == Owed(got, NoUpstreams)
  {
  }

  lemma HStepFields<M>(n: nat, h: Hedge<M>, res: Result<M>, at: int)
    requires n > 0 && h.pending > 0 && (h.best.Some? ==> h.best.value.reply.Got?) && !Real(res.reply) && h.out.None?
    ensures var t := HStep(n, h, Arrive(res, at));
            var u := HAbsorb(HReceived(h, res, at), res);
            && t.got == h.got + [res] && t.best == u.best && t.lastErr == u.lastErr && t.launched
            && t.out == if t.pending == 0 then Some(HFinish(u.best, u.lastErr)) else None
  {
  }

  lemma HArriveChoice<M>(n: nat, h: Hedge<M>, res: Result<M>, at: int)
    requires n > 0 && HChoice(n, h) && h.out.None?
    requires var t := HStep(n, h, Arrive(res, at));
             t.pending == 0 ==> t.running == {}
    ensures HChoice(n, HStep(n, h, Arrive(res, at)))
  {
    var got := h.got + [res];
    if Real(res.reply) {
      RealIsOwed(h.got, res, NoUpstreams);
    } else {
      BestGrows(h.got, res);
      HStepFields(n, h, res, at);
      var u := HAbsorb(HReceived(h, res, at), res);
      assert u.best == Best(got) && Or(u.lastErr, NoUpstreams) == Or(LastError(got), NoUpstreams);
      HFinishIsOwed(got, u.lastErr);
    }
  }

  lemma HStepKeepsInv<M>(n: nat, begin: int, h: Hedge<M>, e: Event<M>)
    requires n > 0 && HInv(n, begin, h) && h.out.None? && HEnabled(begin, h, e)
    ensures HInv(n, begin, HStep(n, h, e))
  {
    HStepCounts(n, begin, h, e);
    HStepCause(n, begin, h, e);
    var t := HStep(n, h, e);
    if e.Arrive? {
      HArriveChoice(n, h, e.res, e.at);
    } else {
      assert t.got == h.got;
    }
  }

  /** At every turn: upstream 0 first, the rest only after the hedge delay or its
      failure; an outcome is the first real answer, else the first SERVFAIL, else the
      first REFUSED, else an error, and without a real answer it comes only once all n
      upstreams have reported. */
  lemma {:induction false} HEveryTurn<M>(n: nat, begin: int, ev: nat -> Event<M>, k: nat)
    requires n > 0
    ensures HInv(n, begin, HAt(n, begin, ev, k))
  {
    if k > 0 {
      HEveryTurn(n, begin, ev, k - 1);
      var h := HAt(n, begin, ev, k - 1);
      if h.out.None? && HEnabled(begin, h, ev(k - 1)) {
        HStepKeepsInv(n, begin, h, ev(k - 1));
      }
    } else {
      assert HAt(n, begin, ev, 0).running == {0};
    }
  }

  function HTurnsLeft<M>(n: nat, h: Hedge<M>): int {
    n - |h.got| + (if h.launched then 0 else 1)
  }

  lemma HUsesTurn<M>(n: nat, begin: int, h: Hedge<M>, e: Event<M>)
    requires n > 0 && Ready(h) && HEnabled(begin, h, e)
    ensures HTurnsLeft(n, HStep(n, h, e)) < HTurnsLeft(n, h)
  {
    if e.Arrive? && !Real(e.res.reply) { HStepFields(n, h, e.res, e.at); }
  }

  lemma HLeft<M>(n: nat, begin: int, h: Hedge<M>)
    requires n > 0 && HInv(n, begin, h) && h.out.None?
    ensures HTurnsLeft(n, h) >= 1 && Ready(h)
  {
  }

  lemma HTurn<M>(n: nat, begin: int, ev: nat -> Event<M>, k: nat)
    requires n > 0 && HFeasible(n, begin, ev) && HAt(n, begin, ev, k).out.None?
    ensures var h := HAt(n, begin, ev, k);
            && Ready(h) && HEnabled(begin, h, ev(k)) && HTurnsLeft(n, h) >= 1
            && HAt(n, begin, ev, k + 1) == HStep(n, h, ev(k))
  {
    HEveryTurn(n, begin, ev, k);
    HLeft(n, begin, HAt(n, begin, ev, k));
    assert HFeasibleAt(n, begin, ev, k);
  }

  /** Within n + 1 turns there is an outcome. */
  lemma {:induction false} HEndsWithin<M>(n: nat, begin: int, ev: nat -> Event<M>, k: nat)
    requires n > 0 && HFeasible(n, begin, ev)
    ensures HAt(n, begin, ev, k).out.Some? || 1 <= HTurnsLeft(n, HAt(n, begin, ev, k)) <= n + 1 - k
  {
    if HAt(n, begin, ev, k).out.None? {
      HTurn(n, begin, ev, k);
    }
    if k > 0 {
      HEndsWithin(n, begin, ev, k - 1);
      if HAt(n, begin, ev, k - 1).out.None? {
        HTurn(n, begin, ev, k - 1);
        HUsesTurn(n, begin, HAt(n, begin, ev, k - 1), ev(k - 1));
      }
    }
  }

  datatype HVars<M> = HVars(pending: nat, launched: bool, best: Option<Result<M>>, lastErr: Option<Err>)

  function HVarsOf<M>(h: Hedge<M>): HVars<M> { HVars(h.pending, h.launched, h.best, h.lastErr) }

  /** The select statement of `forwardHedged`. */
  method HedgedTurn<M>(n: nat, v: HVars<M>, e: Event<M>, ghost h: Hedge<M>, ghost begin: int)
    returns (w: HVars<M>, out: Option<Outcome<M>>)
    requires n > 0 && v == HVarsOf(h) && h.out.None? && (h.best.Some? ==> h.best.value.reply.Got?)
    requires HEnabled(begin, h, e)
    ensures out == HStep(n, h, e).out
    ensures out.None? ==> w == HVarsOf(HStep(n, h, e))
  {
    var pending, launched, best, lastErr := v.pending, v.launched, v.best, v.lastErr;
    if e.Arrive? {
      var res := e.res;
      pending := pending - 1;
      if Real(res.reply) { return v, Some(Relay(res)); }
      if res.reply.Got? {
        best := BetterSoft(best, res);
      } else {
        lastErr := if res.reply.Failed? then Some(ErrorOf(res.reply)) else None;
      }
    }
    if !launched {
      for i := 1 to n
        invariant pending == (if e.Arrive? then v.pending - 1 else v.pending) + i - 1
      {
        pending := pending + 1;
      }
      launched := true;
    }
    if e.Arrive? && pending == 0 {
      return v, Some(if best.Some? then Relay(best.value)
          else NoAnswer(if lastErr.None? then NoUpstreams else lastErr.value));
    }
    return HVars(pending, launched, best, lastErr), None;
  }

  ghost predicate HEndsAt<M>(n: nat, begin: int, ev: nat -> Event<M>, turns: nat, out: Outcome<M>)
    requires n > 0
  {
    turns > 0 && HAt(n, begin, ev, turns - 1).out.None? && HAt(n, begin, ev, turns).out == Some(out)
  }

  /** `forwardHedged` over two or more upstreams. */
  method ForwardHedged<M>(n: nat, begin: int, ev: nat -> Event<M>) returns (out: Outcome<M>, turns: nat)
    requires n >= 2 && HFeasible(n, begin, ev)
    ensures turns <= n + 1
    ensures HEndsAt(n, begin, ev, turns, out)
  {
    var v: HVars<M> := HVars(1, false, None, None);
    turns := 0;
    while true
      invariant v == HVarsOf(HAt(n, begin, ev, turns)) && HAt(n, begin, ev, turns).out.None?
      decreases n + 1 - turns
    {
      HTurn(n, begin, ev, turns);
      HEndsWithin(n, begin, ev, turns);
      var w, ended := HedgedTurn(n, v, ev(turns), HAt(n, begin, ev, turns), begin);
      if ended.Some? { return ended.value, turns + 1; }
      v, turns := w, turns + 1;
    }
  }

  lemma HOutcomeIsOwed<M>(n: nat, begin: int, ev: nat -> Event<M>, turns: nat, out: Outcome<M>)
    requires n > 0 && HEndsAt(n, begin, ev, turns, out)
    ensures var h := HAt(n, begin, ev, turns);
            && HChoice(n, h) && out == Owed(h.got, NoUpstreams)
            && (First(h.got, IsReal<M>()).Some? || (|h.got| == n && forall i: nat | i < n :: Reported(h.got, i)))
  {
    HEveryTurn(n, begin, ev, turns);
  }
}
