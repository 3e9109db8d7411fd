/** What failover promises in terms of response codes (internal/resolver/forward.go:67-84):
    SERVFAIL and REFUSED send the query on to the next upstream and are relayed only for want
    of anything else, any other response is the answer at once. */
module ForwardRcodes {
  import opened Forwarding
  import opened Wrappers

  predicate HasCode<M>(r: Result<M>, c: Rcode) { r.reply.Got? && r.reply.msg.rcode == c }

  predicate NoneHas<M>(got: seq<Result<M>>, upto: nat, c: Rcode)
    requires upto <= |got|
  {
    forall j :: 0 <= j < upto ==> !HasCode(got[j], c)
  }

  /** The outcome was relayed from the i-th result, as the best of what was received. */
  ghost predicate RelayedFrom<M>(got: seq<Result<M>>, i: nat, msg: Msg<M>, rtt: int, idx: nat)
    requires i < |got|
  {
    && got[i] == Result(idx, Got(msg), rtt)
    && (msg.rcode == OtherRcode ==> i + 1 == |got| && NoneHas(got, i, OtherRcode))
    && (msg.rcode == ServFail ==> NoneHas(got, |got|, OtherRcode) && NoneHas(got, i, ServFail))
    && (msg.rcode == Refused ==>
          NoneHas(got, |got|, OtherRcode) && NoneHas(got, |got|, ServFail) && NoneHas(got, i, Refused))
  }

  /** The promise on what is returned after the results `got`. */
  ghost predicate OwedByCodes<M>(got: seq<Result<M>>, out: Outcome<M>, otherwise: Err) {
    match out
    case Answered(msg, rtt, idx) => exists i :: 0 <= i < |got| && RelayedFrom(got, i, msg, rtt, idx)
    case NoAnswer(err) =>
      && (forall j :: 0 <= j < |got| ==> !got[j].reply.Got?)
      && err == (if got == [] then otherwise
                 else if got[|got| - 1].reply.Failed? then FromUpstream(got[|got| - 1].reply.e) else NoUpstreams)
    case Neither => false
  }

  lemma FirstCode<M>(got: seq<Result<M>>, c: Rcode) returns (i: nat)
    requires First(got, IsCode<M>(c)).Some?
    ensures i < |got| && got[i] == First(got, IsCode<M>(c)).value && HasCode(got[i], c) && NoneHas(got, i, c)
  {
    var x := First(got, IsCode<M>(c));
    i :| 0 <= i < |got| && got[i] == x.value && IsCode<M>(c)(got[i]) && forall j | 0 <= j < i :: !IsCode<M>(c)(got[j]);
    forall j | 0 <= j < i ensures !HasCode(got[j], c) { assert !IsCode<M>(c)(got[j]); }
  }

  lemma NoCode<M>(got: seq<Result<M>>, c: Rcode)
    requires First(got, IsCode<M>(c)).None?
    ensures NoneHas(got, |got|, c)
  {
    forall j | 0 <= j < |got| ensures !HasCode(got[j], c) {
      assert got[j] in got && !IsCode<M>(c)(got[j]);
    }
  }

  lemma RealIsOther<M>(x: Result<M>)
    ensures IsReal<M>()(x) <==> HasCode(x, OtherRcode)
  {
  }

  lemma NoReal<M>(got: seq<Result<M>>)
    requires First(got, IsReal<M>()).None?
    ensures NoneHas(got, |got|, OtherRcode)
  {
    forall j | 0 <= j < |got| ensures !HasCode(got[j], OtherRcode) {
      assert got[j] in got && !IsReal<M>()(got[j]);
      RealIsOther(got[j]);
    }
  }

  lemma FirstReal<M>(got: seq<Result<M>>) returns (i: nat)
    requires First(got, IsReal<M>()).Some?
    ensures i < |got| && got[i] == First(got, IsReal<M>()).value && HasCode(got[i], OtherRcode)
    ensures NoneHas(got, i, OtherRcode)
  {
    var x := First(got, IsReal<M>());
    i :| 0 <= i < |got| && got[i] == x.value && IsReal<M>()(got[i]) && forall j | 0 <= j < i :: !IsReal<M>()(got[j]);
    RealIsOther(got[i]);
    forall j | 0 <= j < i ensures !HasCode(got[j], OtherRcode) {
      assert !IsReal<M>()(got[j]);
      RealIsOther(got[j]);
    }
  }

  lemma Relayed<M>(got: seq<Result<M>>, i: nat)
    requires i < |got| && got[i].reply.Got? && RelayedFrom(got, i, got[i].reply.msg, got[i].rtt, got[i].idx)
    ensures OwedByCodes(got, Answered(got[i].reply.msg, got[i].rtt, got[i].idx), NoUpstreams)
    ensures OwedByCodes(got, Answered(got[i].reply.msg, got[i].rtt, got[i].idx), UpstreamTimeout)
  {
  }

  lemma {:induction false} LastErrorIs<M>(got: seq<Result<M>>)
    requires forall j :: 0 <= j < |got| ==> !got[j].reply.Got?
    ensures LastError(got) ==
            if got == [] then None
            else Some(if got[|got| - 1].reply.Failed? then FromUpstream(got[|got| - 1].reply.e) else NoUpstreams)
  {
  }

  /** The choice among what was received, in terms of codes, if only the last result can be
      an answer. */
  lemma ChoiceByCodes<M>(got: seq<Result<M>>, otherwise: Err)
    requires got != [] ==> NoneHas(got, |got| - 1, OtherRcode)
    requires otherwise == NoUpstreams || otherwise == UpstreamTimeout
    ensures Best(got).Some? ==> Best(got).value.reply.Got?
    ensures OwedByCodes(got, Owed(got, otherwise), otherwise)
  {
    BestHasMessage(got);
    if First(got, IsReal<M>()).Some? {
      var i := FirstReal(got);
      assert i + 1 == |got|;
      Relayed(got, i);
    } else if First(got, IsCode<M>(ServFail)).Some? {
      NoReal(got);
      var i := FirstCode(got, ServFail);
      Relayed(got, i);
    } else if First(got, IsCode<M>(Refused)).Some? {
      NoReal(got);
      NoCode(got, ServFail);
      var i := FirstCode(got, Refused);
      Relayed(got, i);
    } else {
      NoReal(got);
      NoCode(got, ServFail);
      NoCode(got, Refused);
      forall j | 0 <= j < |got| ensures !got[j].reply.Got? {
        assert !HasCode(got[j], OtherRcode) && !HasCode(got[j], ServFail) && !HasCode(got[j], Refused);
      }
      LastErrorIs(got);
    }
  }

  /** At most one more result. */
  ghost predicate Grew<M>(was: seq<Result<M>>, got: seq<Result<M>>) {
    got == was || (|got| == |was| + 1 && was <= got)
  }

  ghost predicate OnlyLastAnswers<M>(got: seq<Result<M>>) { got != [] ==> NoneHas(got, |got| - 1, OtherRcode) }

  lemma OneMoreAnswers<M>(was: seq<Result<M>>, got: seq<Result<M>>)
    requires First(was, IsReal<M>()).None? && Grew(was, got)
    ensures OnlyLastAnswers(got)
  {
    NoReal(was);
  }

  lemma OwedEnds<M>(got: seq<Result<M>>, out: Outcome<M>, otherwise: Err, spent: bool)
    requires OnlyLastAnswers(got) && (otherwise == NoUpstreams || otherwise == UpstreamTimeout)
    requires (Best(got).Some? ==> Best(got).value.reply.Got?) && out == Owed(got, otherwise)
    requires First(got, IsReal<M>()).Some? || spent
    ensures OwedByCodes(got, out, otherwise) && ((out.Answered? && out.msg.rcode == OtherRcode) || spent)
  {
    ChoiceByCodes(got, otherwise);
    if First(got, IsReal<M>()).Some? { var i := FirstReal(got); }
  }

  // ---------------------------------------------------------------- ordered

  /** What ends the ordered loop without an answer: the budget is spent, or every upstream
      has reported. */
  ghost predicate SpentOrDone<M>(c: Config, s: State<M>) {
    c.deadline <= s.clock || (s.next == c.n && s.running == {})
  }

  /** What the loop promises of its outcome: an answer with another code than SERVFAIL and
      REFUSED as soon as it comes; else the first SERVFAIL, else the first REFUSED, else the
      error of the last report, once the budget is spent or all reported. */
  ghost predicate OrderedPromise<M>(c: Config, s: State<M>, out: Outcome<M>) {
    && OwedByCodes(s.got, out, UpstreamTimeout)
    && ((out.Answered? && out.msg.rcode == OtherRcode) || SpentOrDone(c, s))
  }

  ghost predicate Unanswered<M>(got: seq<Result<M>>) { First(got, IsReal<M>()).None? }

  ghost predicate OrderedEnd<M>(c: Config, s: State<M>, out: Outcome<M>) {
    && (Best(s.got).Some? ==> Best(s.got).value.reply.Got?) && out == Owed(s.got, UpstreamTimeout)
    && (First(s.got, IsReal<M>()).Some? || SpentOrDone(c, s))
  }

  lemma OrderedEndPromised<M>(c: Config, s: State<M>, out: Outcome<M>)
    requires OnlyLastAnswers(s.got) && OrderedEnd(c, s, out)
    ensures OrderedPromise(c, s, out)
  {
    OwedEnds(s.got, out, UpstreamTimeout, SpentOrDone(c, s));
  }

  ghost predicate OrderedKeeps<M>(c: Config, s: State<M>) { s.out.Some? ==> OrderedPromise(c, s, s.out.value) }

  lemma StepKeepsPromise<M>(c: Config, s: State<M>, e: Event<M>)
    requires Inv(c, s) && s.out.None? && Enabled(s, e)
    ensures OrderedKeeps(c, Step(c, s, e))
  {
    var t := Step(c, s, e);
    StepKeepsInv(c, s, e);
    StepGrows(c, s, e);
    if t.out.Some? {
      OneMoreAnswers(s.got, t.got);
      OrderedEndPromised(c, t, t.out.value);
    }
  }

  lemma StepGrows<M>(c: Config, s: State<M>, e: Event<M>)
    requires Sound(s) && Enabled(s, e)
    ensures Grew(s.got, Step(c, s, e).got)
  {
  }

  /** The outcome of every run of the ordered loop. */
  lemma {:induction false} OrderedOutcome<M>(c: Config, ev: nat -> Event<M>, k: nat)
    requires c.n > 0
    ensures OrderedKeeps(c, At(c, ev, k))
  {
    if k > 0 {
      OrderedOutcome(c, ev, k - 1);
      EveryTurn(c, ev, k - 1);
      var s := At(c, ev, k - 1);
      if s.out.None? && Enabled(s, ev(k - 1)) { StepKeepsPromise(c, s, ev(k - 1)); }
    }
  }

  /** An answer with another code ends the ordered loop at once. */
  lemma OrderedEndsAtOnce<M>(c: Config, ev: nat -> Event<M>, k: nat, res: Result<M>, at: int)
    requires c.n > 0 && FeasibleAt(c, ev, k) && At(c, ev, k).out.None? && ev(k) == Arrive(res, at)
    requires HasCode(res, OtherRcode)
    ensures At(c, ev, k + 1).out == Some(Answered(res.reply.msg, res.rtt, res.idx))
  {
    EveryTurn(c, ev, k);
  }

  /** The next upstream was started at `at`, to be waited for at most `per`, and the last one
      for all that is left of the budget. */
  ghost predicate Started<M>(c: Config, s: State<M>, t: State<M>, at: int) {
    && t.out.None? && t.next == s.next + 1 && |t.starts| == |s.starts| + 1 && s.next in t.running
    && var left := c.deadline - at;
       var wait := if s.next + 1 == c.n || left < c.per then left else c.per;
       t.starts[|s.starts|].at == at && t.starts[|s.starts|].wait == wait && t.timerAt == at + wait
  }

  /** After a SERVFAIL, a REFUSED or an error of the upstream started last, the next one is
      started at once, if there is one and time. */
  lemma OrderedFailsOver<M>(c: Config, ev: nat -> Event<M>, k: nat, res: Result<M>, at: int)
    requires c.n > 0 && FeasibleAt(c, ev, k) && At(c, ev, k).out.None? && ev(k) == Arrive(res, at)
    requires !HasCode(res, OtherRcode) && res.idx + 1 == At(c, ev, k).next < c.n && at < c.deadline
    ensures Started(c, At(c, ev, k), At(c, ev, k + 1), at)
  {
    EveryTurn(c, ev, k);
  }

  /** So it is when the wait for it is over. */
  lemma OrderedTimesOut<M>(c: Config, ev: nat -> Event<M>, k: nat, at: int)
    requires c.n > 0 && FeasibleAt(c, ev, k) && At(c, ev, k).out.None? && ev(k) == Fire(at)
    requires At(c, ev, k).next < c.n && at < c.deadline
    ensures Started(c, At(c, ev, k), At(c, ev, k + 1), at)
  {
    EveryTurn(c, ev, k);
  }

  /** The first one is started at the beginning. */
  lemma OrderedBegins<M>(c: Config, ev: nat -> Event<M>)
    requires c.n > 0 && c.begin < c.deadline
    ensures Started(c, State(0, 0, None, None, 0, None, 0, {}, [], []), At(c, ev, 0), c.begin)
  {
  }

  // ---------------------------------------------------------------- hedged

  ghost predicate AllReported<M>(n: nat, got: seq<Result<M>>) {
    |got| == n && forall i: nat | i < n :: Reported(got, i)
  }

  /** The same choice, and without an answer only once all have reported. */
  ghost predicate HedgedPromise<M>(n: nat, h: Hedge<M>, out: Outcome<M>) {
    && OwedByCodes(h.got, out, NoUpstreams)
    && ((out.Answered? && out.msg.rcode == OtherRcode) || AllReported(n, h.got))
  }

  ghost predicate HedgedEnd<M>(n: nat, h: Hedge<M>, out: Outcome<M>) {
    && (Best(h.got).Some? ==> Best(h.got).value.reply.Got?) && out == Owed(h.got, NoUpstreams)
    && (First(h.got, IsReal<M>()).Some? || AllReported(n, h.got))
  }

  lemma HedgedEndPromised<M>(n: nat, h: Hedge<M>, out: Outcome<M>)
    requires OnlyLastAnswers(h.got) && HedgedEnd(n, h, out)
    ensures HedgedPromise(n, h, out)
  {
    OwedEnds(h.got, out, NoUpstreams, AllReported(n, h.got));
  }

  ghost predicate HedgedKeeps<M>(n: nat, h: Hedge<M>) { h.out.Some? ==> HedgedPromise(n, h, h.out.value) }

  lemma HStepGrows<M>(n: nat, begin: int, h: Hedge<M>, e: Event<M>)
    requires n > 0 && Ready(h) && HEnabled(begin, h, e)
    ensures Grew(h.got, HStep(n, h, e).got)
  {
  }

  lemma HStepKeepsPromise<M>(n: nat, begin: int, h: Hedge<M>, e: Event<M>)
    requires n > 0 && HInv(n, begin, h) && h.out.None? && HEnabled(begin, h, e)
    ensures HedgedKeeps(n, HStep(n, h, e))
  {
    var t := HStep(n, h, e);
    HStepKeepsInv(n, begin, h, e);
    HStepGrows(n, begin, h, e);
    if t.out.Some? {
      OneMoreAnswers(h.got, t.got);
      HEndReported(n, begin, t);
      HedgedEndPromised(n, t, t.out.value);
    }
  }

  lemma HEndReported<M>(n: nat, begin: int, h: Hedge<M>)
    requires HInv(n, begin, h) && h.out.Some?
    ensures HedgedEnd(n, h, h.out.value)
  {
  }

  /** The outcome of every run of the hedged loop. */
  lemma {:induction false} HedgedOutcome<M>(n: nat, begin: int, ev: nat -> Event<M>, k: nat)
    requires n > 0
    ensures HedgedKeeps(n, HAt(n, begin, ev, k))
  {
    if k > 0 {
      HedgedOutcome(n, begin, ev, k - 1);
      HEveryTurn(n, begin, ev, k - 1);
      var h := HAt(n, begin, ev, k - 1);
      if h.out.None? && HEnabled(begin, h, ev(k - 1)) { HStepKeepsPromise(n, begin, h, ev(k - 1)); }
    }
  }

  lemma HedgedEndsAtOnce<M>(n: nat, begin: int, ev: nat -> Event<M>, k: nat, res: Result<M>, at: int)
    requires n > 0 && HFeasibleAt(n, begin, ev, k) && HAt(n, begin, ev, k).out.None? && ev(k) == Arrive(res, at)
    requires HasCode(res, OtherRcode)
    ensures HAt(n, begin, ev, k + 1).out == Some(Answered(res.reply.msg, res.rtt, res.idx))
  {
    HEveryTurn(n, begin, ev, k);
  }

  /** A SERVFAIL, a REFUSED or an error of the first upstream sends the query to all others at
      once, as does the hedge delay. */
  lemma HedgedLaunches<M>(n: nat, begin: int, ev: nat -> Event<M>, k: nat)
    requires n > 0 && HFeasibleAt(n, begin, ev, k) && HAt(n, begin, ev, k).out.None?
    requires !HAt(n, begin, ev, k).launched && (ev(k).Arrive? ==> !HasCode(ev(k).res, OtherRcode))
    ensures var t := HAt(n, begin, ev, k + 1);
            t.launched && forall i :: 1 <= i < n ==> i in t.running
  {
    HEveryTurn(n, begin, ev, k);
  }
}
