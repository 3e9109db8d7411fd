/** Process logs: the in-memory ring (internal/logbuf/logbuf.go), the agent's shipping of
    new lines (`shipProcLogs` in internal/cluster/agent.go) and the control plane's ingest
    with its dedupe by boot and sequence number (internal/api/logs.go). Strings are
    sequences of bytes. */
module LogShipping {
  import opened Wrappers

  datatype Entry = Entry(num: nat, ts: int, level: string, msg: string)   // num is Seq

  const MAX_MSG_LEN: nat := 8192
  const CUT_MARK := "\U{E2}\U{80}\U{A6}[truncated]"

  function Truncate(msg: string): string { if |msg| <= MAX_MSG_LEN then msg else msg[..MAX_MSG_LEN] + CUT_MARK }

  /** Truncating at ingest what was truncated at capture changes nothing. */
  lemma TruncateTwice(msg: string)
    ensures Truncate(Truncate(msg)) == Truncate(msg) && |Truncate(msg)| <= MAX_MSG_LEN + |CUT_MARK|
    ensures if |msg| <= 8192 then Truncate(msg) == msg
            else |Truncate(msg)| == 8192 + 14 && Truncate(msg)[..8192] == msg[..8192]
  {
    if |msg| > MAX_MSG_LEN { assert Truncate(msg)[..MAX_MSG_LEN] == msg[..MAX_MSG_LEN]; }
  }

  // ---------------------------------------------------------------- the ring

  function Wrap(i: nat, n: nat): (r: nat)
    requires 0 < n && i < 2 * n
    ensures r < n
  {
    if i < n then i else i - n
  }

  function Min(a: nat, b: nat): nat { if a < b then a else b }

  /** The last `cap` lines ever appended. */
  function Kept(history: seq<Entry>, cap: nat): seq<Entry> { history[|history| - Min(cap, |history|)..] }

  predicate Numbered(history: seq<Entry>) { forall i :: 0 <= i < |history| ==> history[i].num == i + 1 }

  /** The first `max` lines from position `j` on that are numbered above `after`. */
  function AboveFrom(es: seq<Entry>, j: nat, after: nat, max: nat): seq<Entry>
    requires j <= |es|
    decreases |es| - j
  {
    if j == |es| || max == 0 then []
    else if es[j].num > after then [es[j]] + AboveFrom(es, j + 1, after, max - 1)
    else AboveFrom(es, j + 1, after, max)
  }

  function Above(es: seq<Entry>, after: nat, max: nat): seq<Entry> { AboveFrom(es, 0, after, max) }

  /** The `i`th oldest entry of a ring. */
  function Slot(ring: seq<Entry>, start: nat, i: nat): Entry
    requires start < |ring| && i < |ring|
  {
    ring[Wrap(start + i, |ring|)]
  }

  /** The ring holds the last lines of the history, oldest first from `start`. */
  predicate RingHolds(ring: seq<Entry>, start: nat, count: nat, history: seq<Entry>) {
    && start < |ring| && count == Min(|ring|, |history|)
    && (|history| < |ring| ==> start == 0)
    && forall i :: 0 <= i < count ==> Slot(ring, start, i) == Kept(history, |ring|)[i]
  }

  lemma PutGrows(ring: seq<Entry>, start: nat, count: nat, history: seq<Entry>, e: Entry)
    requires RingHolds(ring, start, count, history) && count < |ring|
    ensures RingHolds(ring[Wrap(start + count, |ring|) := e], start, count + 1, history + [e])
  {
    var after := ring[Wrap(start + count, |ring|) := e];
    forall i | 0 <= i < count + 1 ensures Slot(after, start, i) == Kept(history + [e], |ring|)[i] {
      if i < count { assert Slot(ring, start, i) == Kept(history, |ring|)[i]; }
    }
  }

  lemma PutEvicts(ring: seq<Entry>, start: nat, count: nat, history: seq<Entry>, e: Entry)
    requires RingHolds(ring, start, count, history) && count == |ring|
    ensures RingHolds(ring[start := e], Wrap(start + 1, |ring|), count, history + [e])
  {
    var after, next := ring[start := e], Wrap(start + 1, |ring|);
    forall i | 0 <= i < count ensures Slot(after, next, i) == Kept(history + [e], |ring|)[i] {
      if i + 1 < count { assert Slot(ring, start, i + 1) == Kept(history, |ring|)[i + 1]; }
    }
  }

  class Buffer {
    const entries: array<Entry>
    var start: nat
    var count: nat
    var nextSeq: nat
    ghost var history: seq<Entry>

    ghost predicate Shape()
      reads this, entries
    {
      RingHolds(entries[..], start, count, history)
    }

    ghost predicate Valid()
      reads this, entries
    {
      Shape() && Numbered(history) && nextSeq == |history|
    }

    constructor (capacity: int)
      ensures Valid() && history == [] && fresh(entries)
      ensures entries.Length == if capacity <= 0 then 1 else capacity
    {
      var size := if capacity <= 0 then 1 else capacity;
      entries := new Entry[size](_ => Entry(0, 0, "", ""));
      start, count, nextSeq, history := 0, 0, 0, [];
    }

    method Put(e: Entry)
      requires Shape()
      modifies this`start, this`count, this`history, entries
      ensures Shape() && history == old(history) + [e]
    {
      var n := entries.Length;
      ghost var was := entries[..];
      if count < n {
        PutGrows(was, start, count, history, e);
        entries[Wrap(start + count, n)] := e;
        count := count + 1;
        assert entries[..] == was[Wrap(start + (count - 1), n) := e];
      } else {
        PutEvicts(was, start, count, history, e);
        entries[start] := e;
        assert entries[..] == was[start := e];
        start := Wrap(start + 1, n);
      }
      history := history + [e];
    }

    method Append(ts: int, level: string, msg: string)
      requires Valid()
      modifies this, entries
      ensures Valid() && history == old(history) + [Entry(|old(history)| + 1, ts, level, msg)]
    {
      nextSeq := nextSeq + 1;
      Put(Entry(nextSeq, ts, level, msg));
    }

    method AppendEntry(e: Entry)
      requires Valid()
      modifies this, entries
      ensures Valid() && history == old(history) + [e.(num := |old(history)| + 1)]
    {
      nextSeq := nextSeq + 1;
      Put(e.(num := nextSeq));
    }

    method All() returns (out: seq<Entry>)
      requires Valid()
      ensures out == Kept(history, entries.Length)
    {
      out := [];
      for i := 0 to count
        invariant out == Kept(history, entries.Length)[..i]
      {
        assert Slot(entries[..], start, i) == Kept(history, entries.Length)[i];
        out := out + [entries[Wrap(start + i, entries.Length)]];
      }
    }

    method Since(after: nat, max: nat) returns (out: seq<Entry>)
      requires Valid()
      ensures out == Above(Kept(history, entries.Length), after, max)
    {
      out := [];
      var i := 0;
      ghost var kept := Kept(history, entries.Length);
      while i < count && |out| < max
        invariant 0 <= i <= count == |kept| && |out| <= max
        invariant out + AboveFrom(kept, i, after, max - |out|) == AboveFrom(kept, 0, after, max)
      {
        var e := entries[Wrap(start + i, entries.Length)];
        assert e == kept[i] by { assert Slot(entries[..], start, i) == kept[i]; }
        if e.num > after {
          assert out + ([e] + AboveFrom(kept, i + 1, after, max - |out| - 1))
              == (out + [e]) + AboveFrom(kept, i + 1, after, max - |out| - 1);
          out := out + [e];
        }
        i := i + 1;
      }
    }
  }

  // ---------------------------------------------------------------- a batch

  const BATCH_LINES: nat := 1000
  const BYTE_BUDGET: nat := 524288

  function Cost(es: seq<Entry>): nat {
    if es == [] then 0 else Cost(es[..|es| - 1]) + |es[|es| - 1].msg| + 64
  }

  /** The longest prefix within the byte budget, but never an empty one. */
  predicate Fits(es: seq<Entry>, n: nat) {
    && n <= |es| && (es != [] ==> n >= 1)
    && (n > 1 ==> Cost(es[..n]) <= BYTE_BUDGET)
    && (1 <= n < |es| ==> Cost(es[..n + 1]) > BYTE_BUDGET)
  }

  lemma {:induction false} CostGrows(es: seq<Entry>, a: nat, b: nat)
    requires a <= b <= |es|
    ensures Cost(es[..a]) <= Cost(es[..b])
  {
    if a < b {
      assert es[..b][..b - 1] == es[..b - 1];
      CostGrows(es, a, b - 1);
    }
  }

  lemma FitIsUnique(es: seq<Entry>, m: nat, n: nat)
    requires Fits(es, m) && Fits(es, n)
    ensures m == n
  {
    if m < n { CostGrows(es, m + 1, n); }
    if n < m { CostGrows(es, n + 1, m); }
  }

  method FitBatch(es: seq<Entry>) returns (n: nat)
    ensures Fits(es, n)
  {
    var bytes := 0;
    for i := 0 to |es|
      invariant bytes == Cost(es[..i])
      invariant i > 1 ==> bytes <= BYTE_BUDGET
    {
      assert es[..i + 1][..i] == es[..i];
      bytes := bytes + |es[i].msg| + 64;
      if i > 0 && bytes > BYTE_BUDGET { return i; }
    }
    return |es|;
  }

  /** The lines of `history` from number `from` to number `to`. */
  function Lines(history: seq<Entry>, from: nat, to: nat): seq<Entry>
    requires 1 <= from <= to + 1 && to <= |history|
  {
    history[from - 1..to]
  }

  function Clamp(x: int, lo: nat, hi: nat): nat
    requires lo <= hi
  {
    if x < lo then lo else if x > hi then hi else x
  }

  /** Of consecutive lines numbered from `base + 1`, those above `after` are a slice. */
  lemma {:induction false} AboveIsSlice(es: seq<Entry>, base: nat, after: nat, max: nat, j: nat)
    requires j <= |es| && forall i :: 0 <= i < |es| ==> es[i].num == base + i + 1
    ensures var lo := Clamp(after - base, j, |es|);
            AboveFrom(es, j, after, max) == es[lo..lo + Min(max, |es| - lo)]
    decreases |es| - j
  {
    if j < |es| && max != 0 {
      if es[j].num > after {
        AboveIsSlice(es, base, after, max - 1, j + 1);
        var hi := j + Min(max, |es| - j);
        assert es[j..hi] == [es[j]] + es[j + 1..hi];
      } else {
        AboveIsSlice(es, base, after, max, j + 1);
      }
    }
  }

  /** Where the agent's next batch begins: after its cursor, at a line still in the ring. */
  function NextStart(n: nat, cap: nat, cursor: nat): nat {
    var gone := n - Min(cap, n);
    (if cursor > gone then cursor else gone) + 1
  }

  /** What is offered to the next batch are consecutive lines from there, up to a thousand. */
  lemma OfferedAreConsecutive(history: seq<Entry>, cap: nat, cursor: nat)
    requires Numbered(history)
    ensures var from := NextStart(|history|, cap, cursor);
            from <= |history| ==>
              Above(Kept(history, cap), cursor, BATCH_LINES)
              == Lines(history, from, Min(from - 1 + BATCH_LINES, |history|))
    ensures NextStart(|history|, cap, cursor) > |history| ==> Above(Kept(history, cap), cursor, BATCH_LINES) == []
  {
    var kept, gone := Kept(history, cap), |history| - Min(cap, |history|);
    assert forall i :: 0 <= i < |kept| ==> kept[i] == history[gone + i];
    AboveIsSlice(kept, gone, cursor, BATCH_LINES, 0);
  }

  datatype Status = Ok200 | Refused | Failed   // Refused: 404, 400 or 413

  class Shipper {
    const buf: Buffer
    var cursor: nat

    constructor (b: Buffer)
      ensures buf == b && cursor == 0
    {
      buf, cursor := b, 0;
    }

    /** The batch of one cycle; empty when there is nothing new. */
    method NextBatch() returns (es: seq<Entry>)
      requires buf.Valid()
      ensures es == [] <==> NextStart(|buf.history|, buf.entries.Length, cursor) > |buf.history|
      ensures es != [] ==>
                var from := NextStart(|buf.history|, buf.entries.Length, cursor);
                var offered := Lines(buf.history, from, Min(from - 1 + BATCH_LINES, |buf.history|));
                |es| <= |offered| && es == offered[..|es|] && Fits(offered, |es|)
    {
      var offered := buf.Since(cursor, BATCH_LINES);
      OfferedAreConsecutive(buf.history, buf.entries.Length, cursor);
      var n := FitBatch(offered);
      es := offered[..n];
    }

    method Answered(es: seq<Entry>, status: Status)
      requires es != []
      modifies this
      ensures cursor == if status == Failed then old(cursor) else es[|es| - 1].num
    {
      match status {
        case Ok200 => cursor := es[|es| - 1].num;
        case Refused => cursor := es[|es| - 1].num;
        case Failed =>
      }
    }
  }

  // ---------------------------------------------------------------- ingest

  /** The lines an ingest appends: those numbered above every earlier one. */
  function Taken(last: nat, es: seq<Entry>): seq<Entry>
    decreases es
  {
    if es == [] then []
    else if es[0].num <= last then Taken(last, es[1..])
    else [es[0]] + Taken(es[0].num, es[1..])
  }

  function LastTaken(last: nat, es: seq<Entry>): nat
    decreases es
  {
    if es == [] then last else LastTaken(if es[0].num <= last then last else es[0].num, es[1..])
  }

  /** A line and the start of the agent that logged it. Boot ids are random and taken to
      differ: here they are numbered from 1, 0 being the empty one. */
  datatype Got = Got(boot: nat, e: Entry)

  /** One agent's log on the control plane; `got` is every line ever ingested. */
  datatype Log = Log(boot: nat, last: nat, got: seq<Got>)

  function Tagged(boot: nat, es: seq<Entry>): (gs: seq<Got>)
    ensures |gs| == |es| && forall i :: 0 <= i < |es| ==> gs[i] == Got(boot, es[i])
  {
    seq(|es|, i requires 0 <= i < |es| => Got(boot, es[i]))
  }

  function LastOf(log: Log, boot: nat): nat { if log.boot == boot then log.last else 0 }

  function Ingested(log: Log, boot: nat, es: seq<Entry>): Log {
    var last := LastOf(log, boot);
    Log(boot, LastTaken(last, es), log.got + Tagged(boot, Taken(last, es)))
  }

  function TakeLine(log: Log, e: Entry): Log {
    if e.num <= log.last then log else Log(log.boot, e.num, log.got + [Got(log.boot, e)])
  }

  lemma {:induction false} TakenOneMore(last: nat, es: seq<Entry>, e: Entry)
    ensures LastTaken(last, es + [e]) == if e.num <= LastTaken(last, es) then LastTaken(last, es) else e.num
    ensures Taken(last, es + [e]) == Taken(last, es) + if e.num <= LastTaken(last, es) then [] else [e]
    decreases es
  {
    if es == [] {
      assert es + [e] == [e] && [e][1..] == [];
    } else {
      assert (es + [e])[1..] == es[1..] + [e];
      TakenOneMore(if es[0].num <= last then last else es[0].num, es[1..], e);
    }
  }

  lemma IngestedOneMore(log: Log, boot: nat, es: seq<Entry>, e: Entry)
    ensures Ingested(log, boot, es + [e]) == TakeLine(Ingested(log, boot, es), e)
  {
    var last := LastOf(log, boot);
    TakenOneMore(last, es, e);
    if e.num > LastTaken(last, es) {
      assert Tagged(boot, Taken(last, es) + [e]) == Tagged(boot, Taken(last, es)) + [Got(boot, e)];
    } else {
      assert Taken(last, es) + [] == Taken(last, es);
    }
  }

  const NODE_PROC_LOG_CAP: nat := 1000

  /** The lines as the node's ring numbers and clips them. */
  function Stored(got: seq<Got>): (es: seq<Entry>)
    ensures |es| == |got|
    ensures forall i :: 0 <= i < |got| ==> es[i] == got[i].e.(num := i + 1, msg := Truncate(got[i].e.msg))
  {
    seq(|got|, i requires 0 <= i < |got| => got[i].e.(num := i + 1, msg := Truncate(got[i].e.msg)))
  }

  class NodeProcLog {
    const buf: Buffer
    var bootID: nat
    var lastSeq: nat
    ghost var got: seq<Got>

    ghost function State(): Log
      reads this
    {
      Log(bootID, lastSeq, got)
    }

    /** The ring was appended the lines of `got`, in order. */
    ghost predicate Valid()
      reads this, buf, buf.entries
    {
      buf.Valid() && buf.history == Stored(got)
    }

    constructor ()
      ensures Valid() && State() == Log(0, 0, []) && fresh(buf) && fresh(buf.entries)
      ensures buf.entries.Length == NODE_PROC_LOG_CAP
    {
      buf := new Buffer(NODE_PROC_LOG_CAP);
      bootID, lastSeq, got := 0, 0, [];
    }

    method Take(e: Entry) returns (taken: bool)
      requires Valid()
      modifies this`lastSeq, this`got, buf, buf.entries
      ensures Valid() && State() == TakeLine(old(State()), e)
      ensures taken == (e.num > old(lastSeq))
    {
      if e.num <= lastSeq { return false; }
      lastSeq := e.num;
      buf.AppendEntry(e.(msg := Truncate(e.msg)));
      got := got + [Got(bootID, e)];
      return true;
    }

    method Ingest(boot: nat, es: seq<Entry>) returns (n: nat)
      requires Valid()
      modifies this, buf, buf.entries
      ensures Valid() && State() == Ingested(old(State()), boot, es)
      ensures n == |got| - |old(got)|
    {
      if bootID != boot { bootID, lastSeq := boot, 0; }
      n := 0;
      assert State() == Ingested(old(State()), boot, []);
      for i := 0 to |es|
        invariant Valid() && State() == Ingested(old(State()), boot, es[..i])
        invariant n == |got| - |old(got)|
      {
        IngestedOneMore(old(State()), boot, es[..i], es[i]);
        assert es[..i + 1] == es[..i] + [es[i]];
        var taken := Take(es[i]);
        if taken { n := n + 1; }
      }
      assert es[..|es|] == es;
    }
  }

  // ---------------------------------------------------------------- runs

  datatype Batch = Batch(id: nat, boot: nat, es: seq<Entry>)

  /** One agent and its log. `pending` are requests not yet served, `asked` the one the
      agent waits on; `top` is where its latest batch began. */
  datatype World = World(boot: nat, history: seq<Entry>, cursor: nat, top: nat, asked: Option<Batch>,
                         pending: seq<Batch>, nextId: nat, log: Log)

  datatype Step =
    | Write(ts: int, level: string, msg: string)
    | Ship(to: nat)                     // a batch up to line `to` is sent
    | Deliver(i: nat, lost: bool)       // a request is served, at any time; its answer may be lost
    | Refuse(i: nat, lost: bool)        // answered 404, 400 or 413
    | GiveUp                            // the agent stops waiting
    | Restart

  function Without<T>(s: seq<T>, i: nat): seq<T>
    requires i < |s|
  {
    s[..i] + s[i + 1..]
  }

  function LastNum(es: seq<Entry>): nat { if es == [] then 0 else es[|es| - 1].num }

  /** The agent hears of the outcome of the request it waits on. */
  function Heard(w: World, b: Batch, lost: bool): World {
    if w.asked == Some(b) && !lost then w.(cursor := LastNum(b.es), asked := None) else w
  }

  function Next(w: World, s: Step, cap: nat): World {
    match s
    case Write(ts, level, msg) => w.(history := w.history + [Entry(|w.history| + 1, ts, level, msg)])
    case Ship(to) =>
      var from := NextStart(|w.history|, cap, w.cursor);
      if w.asked.None? && from <= to <= |w.history| then
        var b := Batch(w.nextId, w.boot, Lines(w.history, from, to));
        w.(top := from, asked := Some(b), pending := w.pending + [b], nextId := w.nextId + 1)
      else w
    case Deliver(i, lost) =>
      if i < |w.pending| then
        var b := w.pending[i];
        Heard(w.(pending := Without(w.pending, i), log := Ingested(w.log, b.boot, b.es)), b, lost)
      else w
    case Refuse(i, lost) =>
      if i < |w.pending| then Heard(w.(pending := Without(w.pending, i)), w.pending[i], lost) else w
    case GiveUp => w.(asked := None)
    case Restart => w.(boot := w.boot + 1, history := [], cursor := 0, top := 1, asked := None)
  }

  function Start(): World { World(1, [], 0, 1, None, [], 0, Log(0, 0, [])) }

  function After(w: World, run: seq<Step>, cap: nat): World
    decreases |run|
  {
    if run == [] then w else After(Next(w, run[0], cap), run[1..], cap)
  }

  predicate Consecutive(es: seq<Entry>) {
    es != [] && es[0].num >= 1 && forall i :: 0 <= i < |es| ==> es[i].num == es[0].num + i
  }

  /** A batch of the present start holds lines of the present history, from no later than
      the latest batch. */
  predicate BatchOk(b: Batch, boot: nat, history: seq<Entry>, top: nat) {
    && Consecutive(b.es) && 1 <= b.boot <= boot
    && (b.boot == boot ==>
          b.es[0].num <= top && LastNum(b.es) <= |history|
          && forall i :: 0 <= i < |b.es| ==> b.es[i] == history[b.es[i].num - 1])
  }

  predicate PendingOk(pending: seq<Batch>, boot: nat, history: seq<Entry>, top: nat) {
    forall i :: 0 <= i < |pending| ==> BatchOk(pending[i], boot, history, top)
  }

  predicate AskedOk(asked: Option<Batch>, boot: nat, history: seq<Entry>, top: nat, cursor: nat) {
    asked.Some? ==> BatchOk(asked.value, boot, history, top) && asked.value.boot == boot
                    && asked.value.es[0].num == top && cursor < top
  }

  /** From the start of the latest batch up to the last number taken, every line of the
      present start was ingested. */
  predicate LogOk(log: Log, boot: nat, history: seq<Entry>, top: nat) {
    && log.boot <= boot
    && (log.boot == boot ==>
          log.last <= |history|
          && forall k :: 0 <= k < log.last && top <= k + 1 ==> Got(boot, history[k]) in log.got)
  }

  predicate Inv(w: World, cap: nat) {
    && w.boot >= 1 && 1 <= w.top <= NextStart(|w.history|, cap, w.cursor)
    && Numbered(w.history)
    && PendingOk(w.pending, w.boot, w.history, w.top)
    && AskedOk(w.asked, w.boot, w.history, w.top, w.cursor)
    && LogOk(w.log, w.boot, w.history, w.top)
  }

  /** How many lines of consecutive ones an ingest drops. */
  function Dropped(last: nat, es: seq<Entry>): nat
    requires es != []
  {
    if last < es[0].num then 0 else Min(last - es[0].num + 1, |es|)
  }

  lemma {:induction false} TakenIsSuffix(last: nat, es: seq<Entry>)
    requires Consecutive(es)
    ensures Taken(last, es) == es[Dropped(last, es)..]
    ensures LastTaken(last, es) == if last < LastNum(es) then LastNum(es) else last
    decreases es
  {
    var rest := es[1..];
    assert es == [es[0]] + rest;
    if rest != [] {
      assert forall i :: 0 <= i < |rest| ==> rest[i] == es[i + 1];
      TakenIsSuffix(if es[0].num <= last then last else es[0].num, rest);
    }
  }

  /** After an ingest every line numbered above the last one taken before is there. */
  lemma IngestTakes(log: Log, boot: nat, es: seq<Entry>, i: nat)
    requires Consecutive(es) && i < |es| && es[i].num > LastOf(log, boot)
    ensures Got(boot, es[i]) in Ingested(log, boot, es).got
  {
    var last := LastOf(log, boot);
    TakenIsSuffix(last, es);
    var taken, d := Taken(last, es), Dropped(last, es);
    assert Tagged(boot, taken)[i - d] == Got(boot, es[i]);
    assert Ingested(log, boot, es).got[|log.got| + (i - d)] == Got(boot, es[i]);
  }

  lemma IngestKeepsGot(log: Log, boot: nat, es: seq<Entry>, g: Got)
    requires g in log.got
    ensures g in Ingested(log, boot, es).got
  {
  }

  lemma DeliverKeepsLog(log: Log, b: Batch, boot: nat, history: seq<Entry>, top: nat)
    requires LogOk(log, boot, history, top) && BatchOk(b, boot, history, top) && Numbered(history)
    ensures LogOk(Ingested(log, b.boot, b.es), boot, history, top)
  {
    if b.boot == boot {
      var last, after := LastOf(log, boot), Ingested(log, boot, b.es);
      TakenIsSuffix(last, b.es);
      forall k | 0 <= k < after.last && top <= k + 1 ensures Got(boot, history[k]) in after.got {
        if k < last {
          IngestKeepsGot(log, boot, b.es, Got(boot, history[k]));
        } else {
          var i := k + 1 - b.es[0].num;
          assert b.es[i] == history[k];
          IngestTakes(log, boot, b.es, i);
        }
      }
    }
  }

  lemma WriteKeeps(w: World, e: Entry, cap: nat)
    requires Inv(w, cap) && e.num == |w.history| + 1
    ensures Inv(w.(history := w.history + [e]), cap)
  {
    forall i | 0 <= i < |w.pending| ensures BatchOk(w.pending[i], w.boot, w.history + [e], w.top) {
    }
  }

  lemma ShipKeeps(w: World, to: nat, cap: nat)
    requires Inv(w, cap)
    ensures Inv(Next(w, Ship(to), cap), cap)
  {
    var from := NextStart(|w.history|, cap, w.cursor);
    if w.asked.None? && from <= to <= |w.history| {
      var b := Batch(w.nextId, w.boot, Lines(w.history, from, to));
      assert BatchOk(b, w.boot, w.history, from);
      forall i | 0 <= i < |w.pending| ensures BatchOk(w.pending[i], w.boot, w.history, from) {
      }
    }
  }

  lemma ServeKeeps(w: World, i: nat, log: Log, lost: bool, cap: nat)
    requires Inv(w, cap) && i < |w.pending| && LogOk(log, w.boot, w.history, w.top)
    ensures Inv(Heard(w.(pending := Without(w.pending, i), log := log), w.pending[i], lost), cap)
  {
    forall k | 0 <= k < |Without(w.pending, i)| ensures BatchOk(Without(w.pending, i)[k], w.boot, w.history, w.top) {
    }
  }

  lemma RestartKeeps(w: World, cap: nat)
    requires Inv(w, cap)
    ensures Inv(Next(w, Restart, cap), cap)
  {
    forall i | 0 <= i < |w.pending| ensures BatchOk(w.pending[i], w.boot + 1, [], 1) {
    }
  }

  lemma StepKeepsInv(w: World, s: Step, cap: nat)
    requires Inv(w, cap)
    ensures Inv(Next(w, s, cap), cap)
  {
    match s {
      case Write(ts, level, msg) => WriteKeeps(w, Entry(|w.history| + 1, ts, level, msg), cap);
      case Ship(to) => ShipKeeps(w, to, cap);
      case Deliver(i, lost) =>
        if i < |w.pending| {
          DeliverKeepsLog(w.log, w.pending[i], w.boot, w.history, w.top);
          ServeKeeps(w, i, Ingested(w.log, w.pending[i].boot, w.pending[i].es), lost, cap);
        }
      case Refuse(i, lost) => if i < |w.pending| { ServeKeeps(w, i, w.log, lost, cap); }
      case GiveUp =>
      case Restart => RestartKeeps(w, cap);
    }
  }

  lemma {:induction false} RunKeepsInv(w: World, run: seq<Step>, cap: nat)
    requires Inv(w, cap)
    ensures Inv(After(w, run, cap), cap)
    decreases |run|
  {
    if run != [] {
      StepKeepsInv(w, run[0], cap);
      RunKeepsInv(Next(w, run[0], cap), run[1..], cap);
    }
  }

  lemma ServedBatchIsIngested(log: Log, b: Batch, boot: nat, history: seq<Entry>, k: nat)
    requires b.es != [] && BatchOk(b, boot, history, b.es[0].num) && b.boot == boot
        && LogOk(log, boot, history, b.es[0].num)
    requires Numbered(history) && k < |b.es|
    ensures Got(boot, b.es[k]) in Ingested(log, boot, b.es).got
  {
    var after := Ingested(log, boot, b.es);
    DeliverKeepsLog(log, b, boot, history, b.es[0].num);
    TakenIsSuffix(LastOf(log, boot), b.es);
    var x := b.es[k].num - 1;
    assert b.es[k] == history[x] && x < after.last && b.es[0].num <= x + 1;
  }

  /** Over every run: when the request the agent waits on is served, every line of it has
      been ingested, by this request or an earlier one. */
  lemma ServedIsIngested(run: seq<Step>, cap: nat, i: nat, lost: bool, k: nat)
    ensures var w := After(Start(), run, cap);
            i < |w.pending| && w.asked == Some(w.pending[i]) && k < |w.pending[i].es| ==>
              Got(w.boot, w.pending[i].es[k]) in Next(w, Deliver(i, lost), cap).log.got
  {
    var w := After(Start(), run, cap);
    RunKeepsInv(Start(), run, cap);
    if i < |w.pending| && w.asked == Some(w.pending[i]) && k < |w.pending[i].es| {
      ServedBatchIsIngested(w.log, w.pending[i], w.boot, w.history, k);
    }
  }

  // ---------------------------------------------------------------- at most once, in order

  /** The lines of each start are in the order they were logged, none twice. */
  predicate InOrder(got: seq<Got>) {
    forall i, j :: 0 <= i < j < |got| && got[i].boot == got[j].boot ==> got[i].e.num < got[j].e.num
  }

  predicate Tidy(log: Log) {
    InOrder(log.got) && forall i :: 0 <= i < |log.got| && log.got[i].boot == log.boot ==> log.got[i].e.num <= log.last
  }

  /** The batch is of the start last heard of, or begins after all that was ingested of its
      own. */
  predicate Welcome(log: Log, boot: nat, es: seq<Entry>)
    requires es != []
  {
    boot == log.boot || forall i :: 0 <= i < |log.got| && log.got[i].boot == boot ==> log.got[i].e.num < es[0].num
  }

  lemma WelcomeIsTidy(log: Log, boot: nat, es: seq<Entry>)
    requires Tidy(log) && Consecutive(es) && Welcome(log, boot, es)
    ensures Tidy(Ingested(log, boot, es))
  {
    var last, after := LastOf(log, boot), Ingested(log, boot, es);
    TakenIsSuffix(last, es);
    var n, d := |log.got|, Dropped(last, es);
    forall j | n <= j < |after.got| ensures after.got[j] == Got(boot, es[d + (j - n)]) {
    }
    assert after.got[..n] == log.got;
    forall i, j | 0 <= i < j < |after.got| && after.got[i].boot == after.got[j].boot
      ensures after.got[i].e.num < after.got[j].e.num
    {
      if i < n <= j { assert after.got[i] == log.got[i]; }
    }
  }

  /** An ingest keeps the order exactly when the batch is welcome. What breaks it is a late
      batch of an earlier start, with lines already ingested before the next start was
      heard of: these are ingested again. */
  lemma IngestKeepsOrderIff(log: Log, boot: nat, es: seq<Entry>)
    requires Tidy(log) && Consecutive(es)
    ensures InOrder(Ingested(log, boot, es).got) <==> Welcome(log, boot, es)
  {
    if Welcome(log, boot, es) {
      WelcomeIsTidy(log, boot, es);
    } else {
      var i :| 0 <= i < |log.got| && log.got[i].boot == boot && log.got[i].e.num >= es[0].num;
      TakenIsSuffix(0, es);
      var after := Ingested(log, boot, es);
      assert after.got[i] == log.got[i] && after.got[|log.got|] == Got(boot, es[0]);
    }
  }

  /** Every batch is welcome when it is served. */
  predicate Polite(w: World, run: seq<Step>, cap: nat)
    decreases |run|
  {
    run == []
    || (Polite(Next(w, run[0], cap), run[1..], cap)
        && match run[0]
           case Deliver(i, _) => i < |w.pending| && w.pending[i].es != []
               ==> Welcome(w.log, w.pending[i].boot, w.pending[i].es)
           case _ => true)
  }

  lemma StepKeepsTidy(w: World, s: Step, cap: nat)
    requires Inv(w, cap) && Tidy(w.log) && Polite(w, [s], cap)
    ensures Tidy(Next(w, s, cap).log)
  {
    match s {
      case Deliver(i, lost) =>
        if i < |w.pending| {
          assert BatchOk(w.pending[i], w.boot, w.history, w.top);
          WelcomeIsTidy(w.log, w.pending[i].boot, w.pending[i].es);
        }
      case _ =>
    }
  }

  lemma {:induction false} RunKeepsTidy(w: World, run: seq<Step>, cap: nat)
    requires Inv(w, cap) && Tidy(w.log) && Polite(w, run, cap)
    ensures Tidy(After(w, run, cap).log)
    decreases |run|
  {
    if run != [] {
      assert [run[0]][1..] == [];
      StepKeepsTidy(w, run[0], cap);
      StepKeepsInv(w, run[0], cap);
      RunKeepsTidy(Next(w, run[0], cap), run[1..], cap);
    }
  }

  /** Over every run with lost answers, re-sent and late batches: if no batch of an earlier
      start arrives after that start's lines were ingested and the next was heard of, each
      line is ingested at most once and the lines of a start in their order. */
  lemma AtMostOnceInOrder(run: seq<Step>, cap: nat)
    requires Polite(Start(), run, cap)
    ensures InOrder(After(Start(), run, cap).log.got)
  {
    RunKeepsTidy(Start(), run, cap);
  }

  lemma OneLine(a: Entry, boot: nat, log: Log)
    requires a.num == 1 && log.boot != boot
    ensures Ingested(log, boot, [a]) == Log(boot, 1, log.got + [Got(boot, a)])
  {
    TakenIsSuffix(0, [a]);
    assert Tagged(boot, [a]) == [Got(boot, a)];
  }

  const LINE_A: Entry := Entry(1, 0, "info", "a")
  const LOG_A: Step := Write(0, "info", "a")

  lemma AfterStep(w: World, s: Step, run: seq<Step>, cap: nat)
    ensures After(w, [s] + run, cap) == After(Next(w, s, cap), run, cap)
  {
    assert ([s] + run)[1..] == run;
  }

  /** The agent logs a line, ships it, and does so again without having heard. */
  lemma ShippedTwice(run: seq<Step>) returns (w: World)
    ensures After(Start(), [LOG_A] + ([Ship(1)] + ([Deliver(0, true)] + ([GiveUp] + ([Ship(1)] + run)))), 1)
        == After(w, run, 1)
    ensures w.boot == 1 && w.pending == [Batch(1, 1, [LINE_A])] && w.nextId == 2 && w.log == Log(1, 1, [Got(1, LINE_A)])
  {
    assert Lines([LINE_A], 1, 1) == [LINE_A];
    var a := Next(Start(), LOG_A, 1);
    assert a.history == [LINE_A];
    var b := Next(a, Ship(1), 1);
    assert b.pending == [Batch(0, 1, [LINE_A])];
    OneLine(LINE_A, 1, b.log);
    var c := Next(b, Deliver(0, true), 1);
    assert c.pending == [];
    var d := Next(c, GiveUp, 1);
    w := Next(d, Ship(1), 1);
    AfterStep(d, Ship(1), run, 1);
    AfterStep(c, GiveUp, [Ship(1)] + run, 1);
    AfterStep(b, Deliver(0, true), [GiveUp] + ([Ship(1)] + run), 1);
    AfterStep(a, Ship(1), [Deliver(0, true)] + ([GiveUp] + ([Ship(1)] + run)), 1);
    AfterStep(Start(), LOG_A, [Ship(1)] + ([Deliver(0, true)] + ([GiveUp] + ([Ship(1)] + run))), 1);
  }

  /** Then it restarts, and logs and ships a line again. */
  lemma ShippedAfterRestart(v: World, run: seq<Step>) returns (w: World)
    requires v.boot == 1 && v.pending == [Batch(1, 1, [LINE_A])] && v.nextId == 2
    ensures After(v, [Restart] + ([LOG_A] + ([Ship(1)] + run)), 1) == After(w, run, 1)
    ensures w.pending == [Batch(1, 1, [LINE_A]), Batch(2, 2, [LINE_A])] && w.log == v.log
  {
    assert Lines([LINE_A], 1, 1) == [LINE_A];
    var a := Next(v, Restart, 1);
    var b := Next(a, LOG_A, 1);
    assert b.history == [LINE_A];
    w := Next(b, Ship(1), 1);
    AfterStep(b, Ship(1), run, 1);
    AfterStep(a, LOG_A, [Ship(1)] + run, 1);
    AfterStep(v, Restart, [LOG_A] + ([Ship(1)] + run), 1);
  }

  /** The new start's batch arrives, then the late copy of the old one's. */
  lemma LateCopyArrives(v: World)
    requires v.pending == [Batch(1, 1, [LINE_A]), Batch(2, 2, [LINE_A])] && v.log == Log(1, 1, [Got(1, LINE_A)])
    ensures After(v, [Deliver(1, false)] + [Deliver(0, true)], 1).log.got
        == [Got(1, LINE_A), Got(2, LINE_A), Got(1, LINE_A)]
  {
    OneLine(LINE_A, 2, v.log);
    var a := Next(v, Deliver(1, false), 1);
    assert a.pending == [Batch(1, 1, [LINE_A])];
    OneLine(LINE_A, 1, a.log);
    AfterStep(v, Deliver(1, false), [Deliver(0, true)], 1);
    assert [Deliver(0, true)] == [Deliver(0, true)] + [];
    AfterStep(a, Deliver(0, true), [], 1);
  }

  /** Otherwise a line can be ingested twice: a batch is sent twice, its first answer lost,
      the agent restarts, and the second copy arrives after a batch of the new start. */
  lemma LateBatchIsTakenAgain() returns (run: seq<Step>)
    ensures After(Start(), run, 1).log.got == [Got(1, LINE_A), Got(2, LINE_A), Got(1, LINE_A)]
  {
    var last := [Deliver(1, false)] + [Deliver(0, true)];
    var rest := [Restart] + ([LOG_A] + ([Ship(1)] + last));
    run := [LOG_A] + ([Ship(1)] + ([Deliver(0, true)] + ([GiveUp] + ([Ship(1)] + rest))));
    var v := ShippedTwice(rest);
    var w := ShippedAfterRestart(v, last);
    LateCopyArrives(w);
  }
}
