/** The body of a process-log request (`procLogBody` in internal/cluster/agent.go) as Go's
    JSON encoder writes it, and the control plane's limit on it (internal/api/logs.go).
    Strings are sequences of bytes, taken to be valid UTF-8. */
module LogWire {
  import opened LogShipping
  import opened Wrappers

  const MAX_BODY: nat := 1_048_576
  const SEPARATOR := "\U{E2}\U{80}"   // begins U+2028 and U+2029, line and paragraph separator

  // ---------------------------------------------------------------- encoding

  function HexDigit(n: nat): char
    requires n < 16
  {
    "0123456789abcdef"[n]
  }

  /** One byte of a string: markup characters are escaped too. */
  function EscapedChar(c: char): string {
    if c == '"' || c == '\\' then ['\\', c]
    else if c == '\U{08}' then "\\b"
    else if c == '\U{0C}' then "\\f"
    else if c == '\n' then "\\n"
    else if c == '\r' then "\\r"
    else if c == '\t' then "\\t"
    else if c < ' ' || c == '<' || c == '>' || c == '&' then
      "\\u00" + [HexDigit(c as int / 16), HexDigit(c as int % 16)]
    else [c]
  }

  function Escaped(s: string): (r: string)
    ensures |s| <= |r| <= 6 * |s|
  {
    if s == "" then ""
    else if SEPARATOR <= s && |s| > 2 && (s[2] == '\U{A8}' || s[2] == '\U{A9}') then
      "\\u202" + [if s[2] == '\U{A8}' then '8' else '9'] + Escaped(s[3..])
    else EscapedChar(s[0]) + Escaped(s[1..])
  }

  function Digits(n: nat): string {
    if n < 10 then [HexDigit(n)] else Digits(n / 10) + [HexDigit(n % 10)]
  }

  function Integer(i: int): string { if i < 0 then "-" + Digits(-i) else Digits(i) }

  function Encoded(e: Entry): string {
    "{\"seq\":" + Digits(e.num) + ",\"ts\":" + Integer(e.ts) + ",\"level\":\"" + Escaped(e.level)
    + "\",\"msg\":\"" + Escaped(e.msg) + "\"}"
  }

  function Listed(es: seq<Entry>): string {
    if es == [] then ""
    else if |es| == 1 then Encoded(es[0])
    else Listed(es[..|es| - 1]) + "," + Encoded(es[|es| - 1])
  }

  function Body(boot: string, es: seq<Entry>): string {
    "{\"boot_id\":\"" + Escaped(boot) + "\",\"entries\":[" + Listed(es) + "]}"
  }

  /** The handler reads at most this much before it answers 400. */
  predicate Accepts(body: string) { |body| <= MAX_BODY }

  // ---------------------------------------------------------------- size

  /** An entry but for its message, and how much the message grows by its escapes. */
  function Rim(e: Entry): nat { |Encoded(e.(msg := ""))| }

  function Growth(e: Entry): nat { |Escaped(e.msg)| - |e.msg| }

  function Total(f: Entry -> nat, es: seq<Entry>): nat {
    if es == [] then 0 else Total(f, es[..|es| - 1]) + f(es[|es| - 1])
  }

  function Messages(es: seq<Entry>): nat { Total((e: Entry) => |e.msg|, es) }

  function Growths(es: seq<Entry>): nat { Total(Growth, es) }

  function Rims(es: seq<Entry>): nat { Total(Rim, es) }

  /** What the body takes besides the messages: quotes, names, numbers, commas. */
  function Frame(boot: string, es: seq<Entry>): nat {
    |Body(boot, [])| + Rims(es) + if es == [] then 0 else |es| - 1
  }

  lemma EntrySize(e: Entry)
    ensures |Encoded(e)| == Rim(e) + |e.msg| + Growth(e)
  {
    assert Escaped("") == "";
  }

  lemma {:induction false} ListedSize(es: seq<Entry>)
    ensures |Listed(es)| == Rims(es) + Messages(es) + Growths(es) + if es == [] then 0 else |es| - 1
  {
    if es != [] {
      var rest, e := es[..|es| - 1], es[|es| - 1];
      EntrySize(e);
      ListedSize(rest);
      if |es| == 1 {
        assert rest == [];
      }
    }
  }

  /** A body is taken exactly if its messages, the frame around them and the growth by
      escapes come to at most 1 MiB together. */
  lemma AcceptedIff(boot: string, es: seq<Entry>)
    ensures Accepts(Body(boot, es)) <==> Frame(boot, es) + Messages(es) + Growths(es) <= MAX_BODY
  {
    ListedSize(es);
    assert Listed([]) == "";
  }

  /** The frame of an entry, with its comma, is within the 64 bytes the budget counts for it. */
  predicate Lean(es: seq<Entry>) { forall e <- es :: Rim(e) < 64 }

  lemma {:induction false} FrameWithinCost(es: seq<Entry>)
    requires Lean(es)
    ensures Rims(es) + |es| + Messages(es) <= Cost(es)
  {
    if es != [] {
      assert es[|es| - 1] in es;
      FrameWithinCost(es[..|es| - 1]);
    }
  }

  lemma {:induction false} GrowthsBounded(es: seq<Entry>)
    ensures Growths(es) <= 5 * Messages(es)
  {
    if es != [] { GrowthsBounded(es[..|es| - 1]); }
  }

  /** The agent's start is named by 16 hexadecimal digits. */
  predicate BootName(boot: string) { |boot| <= 16 }

  lemma SmallFrame(boot: string)
    requires BootName(boot)
    ensures |Body(boot, [])| <= 128
  {
    assert Listed([]) == "";
  }

  /** A batch within the budget is taken exactly if its escapes leave room: it always is if
      they add less than half a mebibyte, and so is any single clipped line. */
  lemma BatchAcceptedIff(boot: string, offered: seq<Entry>, n: nat)
    requires BootName(boot) && Fits(offered, n) && n > 0 && Lean(offered[..n])
    requires forall e <- offered[..n] :: Truncate(e.msg) == e.msg
    ensures var es := offered[..n];
            && Frame(boot, es) + Messages(es) <= BYTE_BUDGET + 128
            && (Accepts(Body(boot, es)) <==> Frame(boot, es) + Messages(es) + Growths(es) <= MAX_BODY)
            && (Growths(es) <= MAX_BODY - BYTE_BUDGET - 128 ==> Accepts(Body(boot, es)))
            && (n == 1 ==> Accepts(Body(boot, es)))
  {
    var es := offered[..n];
    AcceptedIff(boot, es);
    FrameWithinCost(es);
    GrowthsBounded(es);
    SmallFrame(boot);
    if n == 1 {
      ClippedLength(es[0].msg);
      assert es[0] in es && es == [es[0]];
      OneSize(es[0]);
    }
  }

  lemma OneSize(e: Entry)
    ensures Cost([e]) == |e.msg| + 64 && Messages([e]) == |e.msg|
  {
    assert [e][..0] == [];
    assert Cost([]) == 0 && Messages([]) == 0;
  }

  lemma ClippedLength(msg: string)
    requires Truncate(msg) == msg
    ensures |msg| <= MAX_MSG_LEN + |CUT_MARK|
  {
  }

  // ---------------------------------------------------------------- a batch of markup

  function MarkupLine(): (s: string)
    ensures |s| == MAX_MSG_LEN && forall i :: 0 <= i < |s| ==> s[i] == '<'
  {
    seq(MAX_MSG_LEN, _ => '<')
  }

  /** `n` lines of as much markup as a line can hold. */
  function Markup(n: nat): (es: seq<Entry>)
    ensures |es| == n && forall i :: 0 <= i < n ==> es[i] == Entry(i + 1, 0, "info", MarkupLine())
  {
    seq(n, i requires 0 <= i < n => Entry(i + 1, 0, "info", MarkupLine()))
  }

  lemma {:induction false} MarkupIsEscaped(s: string)
    requires forall i :: 0 <= i < |s| ==> s[i] == '<'
    ensures |Escaped(s)| == 6 * |s|
  {
    if s != "" {
      MarkupIsEscaped(s[1..]);
      assert |EscapedChar('<')| == 6;
    }
  }

  lemma MarkupOneMore(n: nat)
    ensures Markup(n + 1)[..n] == Markup(n)
  {
  }

  lemma {:induction false} MarkupSize(n: nat)
    ensures Cost(Markup(n)) == n * (MAX_MSG_LEN + 64)
    ensures Messages(Markup(n)) == n * MAX_MSG_LEN && Growths(Markup(n)) == 5 * n * MAX_MSG_LEN
  {
    if n > 0 {
      MarkupSize(n - 1);
      MarkupOneMore(n - 1);
      MarkupIsEscaped(MarkupLine());
    }
  }

  lemma WithinBudget(es: seq<Entry>)
    requires es != [] && Cost(es) <= BYTE_BUDGET
    ensures Fits(es, |es|)
  {
    assert es[..|es|] == es;
  }

  /** From 22 to 63 such lines are within the budget and too long for the control plane. */
  lemma MarkupIsRefused(boot: string, n: nat)
    requires 22 <= n <= 63
    ensures Fits(Markup(n), n) && !Accepts(Body(boot, Markup(n)))
  {
    var es := Markup(n);
    MarkupSize(n);
    WithinBudget(es);
    TooMuch(boot, es);
  }

  lemma TooMuch(boot: string, es: seq<Entry>)
    requires Messages(es) + Growths(es) > MAX_BODY
    ensures !Accepts(Body(boot, es))
  {
    AcceptedIff(boot, es);
  }

  // ---------------------------------------------------------------- refused is lost

  /** No line of that number of an agent's start is ingested, in flight or still to ship. */
  predicate Gone(w: World, boot: nat, num: nat) {
    && boot <= w.boot && (w.boot == boot ==> num <= w.cursor)
    && (forall g <- w.log.got :: g.boot != boot || g.e.num != num)
    && (forall b <- w.pending :: b.boot != boot || forall e <- b.es :: e.num != num)
  }

  lemma HeardMovesOn(w: World, i: nat, log: Log, lost: bool, cap: nat)
    requires Inv(w, cap) && i < |w.pending|
    ensures Heard(w.(pending := Without(w.pending, i), log := log), w.pending[i], lost).cursor >= w.cursor
  {
  }

  lemma DeliverSpares(w: World, b: Batch, boot: nat, num: nat)
    requires Consecutive(b.es) && (b.boot != boot || forall e <- b.es :: e.num != num)
    requires forall g <- w.log.got :: g.boot != boot || g.e.num != num
    ensures forall g <- Ingested(w.log, b.boot, b.es).got :: g.boot != boot || g.e.num != num
  {
    TakenIsSuffix(LastOf(w.log, b.boot), b.es);
  }

  lemma ShipSpares(w: World, to: nat, cap: nat, boot: nat, num: nat)
    requires Inv(w, cap) && Gone(w, boot, num)
    ensures Gone(Next(w, Ship(to), cap), boot, num)
  {
    var from := NextStart(|w.history|, cap, w.cursor);
    if w.asked.None? && from <= to <= |w.history| {
      var es := Lines(w.history, from, to);
      forall e <- es ensures w.boot != boot || e.num != num {
        var i :| 0 <= i < |es| && es[i] == e;
        assert e == w.history[from - 1 + i];
      }
    }
  }

  lemma StepKeepsGone(w: World, s: Step, cap: nat, boot: nat, num: nat)
    requires Inv(w, cap) && Gone(w, boot, num)
    ensures Gone(Next(w, s, cap), boot, num)
  {
    match s
    case Write(_, _, _) =>
    case Ship(to) => ShipSpares(w, to, cap, boot, num);
    case Deliver(i, lost) =>
      if i < |w.pending| {
        var b := w.pending[i];
        assert b in w.pending;
        DeliverSpares(w, b, boot, num);
        HeardMovesOn(w, i, Ingested(w.log, b.boot, b.es), lost, cap);
      }
    case Refuse(i, lost) => if i < |w.pending| { HeardMovesOn(w, i, w.log, lost, cap); }
    case GiveUp =>
    case Restart =>
  }

  lemma {:induction false} RunKeepsGone(w: World, run: seq<Step>, cap: nat, boot: nat, num: nat)
    requires Inv(w, cap) && Gone(w, boot, num)
    ensures Gone(After(w, run, cap), boot, num)
    decreases |run|
  {
    if run != [] {
      StepKeepsInv(w, run[0], cap);
      StepKeepsGone(w, run[0], cap, boot, num);
      RunKeepsGone(Next(w, run[0], cap), run[1..], cap, boot, num);
    }
  }

  /** No line of that number is ingested, or in flight but in request `i`. */
  predicate OnlyIn(w: World, i: nat, boot: nat, num: nat) {
    && (forall g <- w.log.got :: g.boot != boot || g.e.num != num)
    && (forall j :: 0 <= j < |w.pending| && j != i && w.pending[j].boot == boot ==>
                      forall e <- w.pending[j].es :: e.num != num)
  }

  /** When the agent hears that its batch was refused, the lines of it that were neither
      ingested nor sent in another request never are, whatever happens next. */
  lemma RefusedIsLost(w: World, i: nat, run: seq<Step>, cap: nat, k: nat)
    requires Inv(w, cap) && i < |w.pending| && w.asked == Some(w.pending[i]) && k < |w.pending[i].es|
    requires OnlyIn(w, i, w.boot, w.pending[i].es[k].num)
    ensures forall g <- After(Next(w, Refuse(i, false), cap), run, cap).log.got ::
              g.boot != w.boot || g.e.num != w.pending[i].es[k].num
  {
    var b := w.pending[i];
    var v := Next(w, Refuse(i, false), cap);
    StepKeepsInv(w, Refuse(i, false), cap);
    assert b.es[k].num <= LastNum(b.es);
    RunKeepsGone(v, run, cap, w.boot, b.es[k].num);
  }

  // ---------------------------------------------------------------- the run

  function MarkupLogged(n: nat): World { Start().(history := Markup(n)) }

  function Logging(n: nat): seq<Step> { seq(n, _ => Write(0, "info", MarkupLine())) }

  lemma {:induction false} LogMarkup(k: nat, n: nat, run: seq<Step>, cap: nat)
    ensures After(MarkupLogged(k), Logging(n) + run, cap) == After(MarkupLogged(k + n), run, cap)
    decreases n
  {
    if n == 0 {
      assert Logging(0) + run == run;
    } else {
      var step := Write(0, "info", MarkupLine());
      assert Logging(n) + run == [step] + (Logging(n - 1) + run);
      AfterStep(MarkupLogged(k), step, Logging(n - 1) + run, cap);
      MarkupOneMore(k);
      assert Markup(k) + [Entry(k + 1, 0, "info", MarkupLine())] == Markup(k + 1);
      LogMarkup(k + 1, n - 1, run, cap);
    }
  }

  lemma ShipMarkup(n: nat, cap: nat)
    requires 1 <= n <= cap
    ensures var w, b := Next(MarkupLogged(n), Ship(n), cap), Batch(0, 1, Markup(n));
            w.asked == Some(b) && w.pending == [b] && w.log.got == [] && w.boot == 1 && Inv(w, cap)
  {
    MarkupInv(n, cap);
    StepKeepsInv(MarkupLogged(n), Ship(n), cap);
    assert Lines(Markup(n), 1, n) == Markup(n);
  }

  lemma MarkupShipped(n: nat, cap: nat, run: seq<Step>)
    ensures After(Start(), Logging(n) + ([Ship(n)] + run), cap) == After(Next(MarkupLogged(n), Ship(n), cap), run, cap)
  {
    assert Markup(0) == [];
    LogMarkup(0, n, [Ship(n)] + run, cap);
    AfterStep(MarkupLogged(n), Ship(n), run, cap);
  }

  /** An agent logs such lines and ships them within its budget; the control plane cannot
      take the body, and no line is ever ingested. */
  lemma OversizedBatchIsLost(boot: string, n: nat, cap: nat, run: seq<Step>, num: nat)
    requires 22 <= n <= 63 && n <= cap && 1 <= num <= n
    ensures Fits(Markup(n), n) && !Accepts(Body(boot, Markup(n)))
    ensures After(Start(), Logging(n) + ([Ship(n)] + []), cap).asked == Some(Batch(0, 1, Markup(n)))
    ensures forall g <- After(Start(), Logging(n) + ([Ship(n)] + ([Refuse(0, false)] + run)), cap).log.got ::
              g.boot != 1 || g.e.num != num
  {
    MarkupIsRefused(boot, n);
    ShipMarkup(n, cap);
    MarkupShipped(n, cap, []);
    MarkupShipped(n, cap, [Refuse(0, false)] + run);
    var w := Next(MarkupLogged(n), Ship(n), cap);
    AfterStep(w, Refuse(0, false), run, cap);
    MarkupLost(n, w, cap, run, num);
  }

  lemma MarkupLost(n: nat, w: World, cap: nat, run: seq<Step>, num: nat)
    requires Inv(w, cap) && w.boot == 1 && w.log.got == [] && 1 <= num <= n
    requires var b := Batch(0, 1, Markup(n)); w.asked == Some(b) && w.pending == [b]
    ensures forall g <- After(Next(w, Refuse(0, false), cap), run, cap).log.got :: g.boot != 1 || g.e.num != num
  {
    RefusedIsLost(w, 0, run, cap, num - 1);
  }

  lemma MarkupInv(n: nat, cap: nat)
    ensures Inv(MarkupLogged(n), cap)
  {
  }
}
