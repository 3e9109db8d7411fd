/** Privacy reduction of the stored query log: the policy (internal/privacy/privacy.go),
    the reduction of entries as they arrive, and the background scrub with its cursor,
    overlap and day-long statements (internal/privacy/scrub.go).

    `keep` stands for the domain tracker's decision (module DomainTrackers) and `pseud` for a
    client's pseudonym of a day (module Keyrings); both may change from one moment to the
    next, and moments are numbered. Timestamps are unix milliseconds. */
module Scrubbing {
  import opened PrivacyTerms
  import opened Wrappers

  const HOUR_MS := 3_600_000
  const OVERLAP := 600_000
  const MAX_DOMAIN_K := 100
  const MAX_DETAIL_HOURS := 168

  datatype Policy = Policy(level: int, detailHours: int, domainK: int)

  function Clip(x: int, lo: int, hi: int): int { if x < lo then lo else if x > hi then hi else x }

  function Normalize(p: Policy): Policy {
    Policy(Clip(p.level, 0, 3), Clip(p.detailHours, 0, MAX_DETAIL_HOURS),
           if p.domainK < 2 then 0 else if p.domainK > MAX_DOMAIN_K then MAX_DOMAIN_K else p.domainK)
  }

  /** The policy in force is always a normalized one; "hide every name" is stricter than any
      threshold it may name. */
  lemma NormalizedPolicy(raw: Policy)
    ensures var p := Normalize(raw);
            && 0 <= p.level <= 3 && 0 <= p.detailHours <= MAX_DETAIL_HOURS
            && (p.domainK == 0 || 2 <= p.domainK <= MAX_DOMAIN_K) && Normalize(p) == p
            && 0 <= Strictness(p) <= MAX_DOMAIN_K + 1
            && (Strictness(p) == MAX_DOMAIN_K + 1 <==> p.level > 0 && !RareOnly(p))
            && (Strictness(p) == 0 <==> p.level == 0)
  {
  }

  /** A value in range stays, one outside becomes the nearest bound; a threshold below 2 is
      none. */
  predicate Nearest(x: int, lo: int, hi: int, y: int) {
    && lo <= y <= hi
    && (lo <= x <= hi ==> y == x) && (x < lo ==> y == lo) && (x > hi ==> y == hi)
  }

  lemma NormalizedIs(raw: Policy)
    ensures var p := Normalize(raw);
            && Nearest(raw.level, 0, 3, p.level) && Nearest(raw.detailHours, 0, 168, p.detailHours)
            && (if raw.domainK < 2 then p.domainK == 0 else Nearest(raw.domainK, 2, 100, p.domainK))
  {
  }

  predicate RareOnly(p: Policy) { p.domainK > 0 && (p.level == 1 || p.level == 2) }

  function Strictness(p: Policy): int {
    if p.level == 0 then 0 else if RareOnly(p) then p.domainK else MAX_DOMAIN_K + 1
  }

  function Cutoff(p: Policy, now: int): int { now - p.detailHours * HOUR_MS }

  /** A stored query. */
  datatype Row = Row(id: int, ts: int, name: string, client: string)

  datatype Env = Env(keep: (string, int, nat) -> string, pseud: (string, int, nat) -> string)

  /** Keep decides on a name once it is stored, and leaves "hidden" alone. */
  function ReduceName(e: Env, p: Policy, r: Row, m: nat): Row {
    if RareOnly(p) then r.(name := if r.name == HIDDEN then HIDDEN else e.keep(r.name, r.ts, m))
    else r.(name := HIDDEN)
  }

  function ReduceClient(e: Env, p: Policy, r: Row, m: nat): Row {
    if p.level == 2 && r.client != "" && !IsPseudonym(r.client)
    then r.(client := e.pseud(r.client, DayOf(r.ts), m)) else r
  }

  function Reduce(e: Env, p: Policy, r: Row, m: nat): Row { ReduceClient(e, p, ReduceName(e, p, r, m), m) }

  // ---------------------------------------------------------------- what the level promises

  /** The name after decisions at these moments, one after the other. */
  function Redecided(e: Env, name: string, ts: int, ms: seq<nat>): string {
    if ms == [] then name
    else
      var was := Redecided(e, name, ts, ms[..|ms| - 1]);
      if was == "hidden" then "hidden" else e.keep(was, ts, ms[|ms| - 1])
  }

  /** `name` is what one or more decisions before the moment `upto` made of `raw`. */
  ghost predicate DecidedFrom(e: Env, raw: string, name: string, ts: int, upto: nat) {
    exists ms: seq<nat> :: ms != [] && (forall m <- ms :: m < upto) && Redecided(e, raw, ts, ms) == name
  }

  ghost predicate PseudonymOf(e: Env, client: string, raw: string, ts: int, upto: nat) {
    exists m: nat :: m < upto && client == e.pseud(raw, DayOf(ts), m)
  }

  /** What is stored for a query once the level applied to it: its id and time as they were, its
      name hidden (or, if only rare ones are, decided on at least once), its client as it was,
      or at level 2 its pseudonym of that day. */
  ghost predicate ReducedFrom(e: Env, p: Policy, raw: Row, r: Row, upto: nat) {
    && r.id == raw.id && r.ts == raw.ts
    && (if p.domainK > 0 && p.level < 3 then DecidedFrom(e, raw.name, r.name, raw.ts, upto) else r.name == "hidden")
    && (if p.level == 2 && raw.client != "" && !("anon-" <= raw.client)
        then PseudonymOf(e, r.client, raw.client, raw.ts, upto) else r.client == raw.client)
  }

  /** Not reduced yet, or reduced. */
  ghost predicate Touched(e: Env, p: Policy, raw: Row, r: Row, upto: nat) {
    r == raw || ReducedFrom(e, p, raw, r, upto)
  }

  ghost predicate Pseudonyms(e: Env) { forall c, day, m: nat :: IsPseudonym(e.pseud(c, day, m)) }

  lemma DecidedOnceMore(e: Env, raw: string, name: string, ts: int, m: nat, upto: nat)
    requires name == raw || DecidedFrom(e, raw, name, ts, upto)
    requires m < upto
    ensures DecidedFrom(e, raw, if name == HIDDEN then HIDDEN else e.keep(name, ts, m), ts, upto)
  {
    var ms: seq<nat> := [];
    if name == raw {
      assert Redecided(e, raw, ts, ms) == name;
    } else {
      ms :| ms != [] && (forall x <- ms :: x < upto) && Redecided(e, raw, ts, ms) == name;
    }
    assert (ms + [m])[..|ms|] == ms;
    assert Redecided(e, raw, ts, ms + [m]) == if name == HIDDEN then HIDDEN else e.keep(name, ts, m);
  }

  /** Reducing a row, for the first time or again, leaves it reduced. */
  lemma ReduceReduces(e: Env, p: Policy, raw: Row, r: Row, m: nat, upto: nat)
    requires Pseudonyms(e) && 1 <= p.level <= 3 && Touched(e, p, raw, r, upto) && m < upto
    ensures ReducedFrom(e, p, raw, Reduce(e, p, r, m), upto) && Reduce(e, p, r, m).ts == r.ts
  {
    if RareOnly(p) { DecidedOnceMore(e, raw.name, r.name, r.ts, m, upto); }
  }

  lemma ReducedLater(e: Env, p: Policy, raw: Row, r: Row, upto: nat, later: nat)
    requires ReducedFrom(e, p, raw, r, upto) && upto <= later
    ensures ReducedFrom(e, p, raw, r, later)
  {
  }

  /** If a decision answers the name, its registered domain or "hidden", as the tracker's do,
      so does any number of them. */
  lemma {:induction false} OnlyCoarser(e: Env, reg: string -> string, raw: string, ts: int, ms: seq<nat>)
    requires forall n, t, m: nat :: e.keep(n, t, m) in {n, reg(n), "hidden"}
    requires forall n :: reg(reg(n)) == reg(n)
    ensures Redecided(e, raw, ts, ms) in {raw, reg(raw), "hidden"}
  {
    if ms != [] { OnlyCoarser(e, reg, raw, ts, ms[..|ms| - 1]); }
  }

  // ---------------------------------------------------------------- one pass

  /** Applies the policy to the rows with from <= ts < to; the row of time ts is taken up at the
      moment `at(ts)`. */
  function Sweep(e: Env, p: Policy, rows: seq<Row>, from: int, to: int, at: int -> nat): (out: seq<Row>)
    ensures |out| == |rows|
    ensures forall i | 0 <= i < |rows| ::
              out[i] == if from <= rows[i].ts < to then Reduce(e, p, rows[i], at(rows[i].ts)) else rows[i]
  {
    seq(|rows|, i requires 0 <= i < |rows| =>
        if from <= rows[i].ts < to then Reduce(e, p, rows[i], at(rows[i].ts)) else rows[i])
  }

  lemma SweepsJoin(e: Env, p: Policy, rows: seq<Row>, a: int, b: int, c: int, at: int -> nat)
    requires a <= b <= c
    ensures Sweep(e, p, Sweep(e, p, rows, a, b, at), b, c, at) == Sweep(e, p, rows, a, c, at)
  {
  }

  lemma EmptySweep(e: Env, p: Policy, rows: seq<Row>, a: int, b: int, at: int -> nat)
    requires b <= a
    ensures Sweep(e, p, rows, a, b, at) == rows
  {
  }

  function SliceEnd(lo: int, cutoff: int): int {
    var day := (lo / DAY_MS + 1) * DAY_MS;
    if day < cutoff then day else cutoff
  }

  /** A slice moves forward, stays before the cutoff and lies within one UTC day. */
  lemma SliceFits(lo: int, cutoff: int)
    requires 0 <= lo < cutoff
    ensures lo < SliceEnd(lo, cutoff) <= cutoff
    ensures forall ts | lo <= ts < SliceEnd(lo, cutoff) :: ts / DAY_MS == lo / DAY_MS
  {
  }

  /** `OldestQueryLogTS`: 0 when empty. */
  function Oldest(rows: seq<Row>): (ts: int)
    ensures rows == [] ==> ts == 0
    ensures rows != [] ==> (exists r <- rows :: r.ts == ts) && forall r <- rows :: ts <= r.ts
  {
    if rows == [] then 0
    else if |rows| == 1 then rows[0].ts
    else
      var m := Oldest(rows[..|rows| - 1]);
      assert rows == rows[..|rows| - 1] + [rows[|rows| - 1]];
      if rows[|rows| - 1].ts < m then rows[|rows| - 1].ts else m
  }

  /** A query past the cutoff that the rollups, which got as far as `rolled`, have counted. */
  predicate Counted(r: Row, cutoff: int, rolled: int) { r.ts < cutoff && r.id <= rolled }

  /** Level 3 deletes those. */
  function Uncounted(rows: seq<Row>, cutoff: int, rolled: int): seq<Row> {
    if rows == [] then []
    else
      var rest, r := Uncounted(rows[..|rows| - 1], cutoff, rolled), rows[|rows| - 1];
      if Counted(r, cutoff, rolled) then rest else rest + [r]
  }

  lemma {:induction false} UncountedMeaning(rows: seq<Row>, cutoff: int, rolled: int, r: Row)
    ensures multiset(Uncounted(rows, cutoff, rolled))[r] ==
            if Counted(r, cutoff, rolled) then 0 else multiset(rows)[r]
  {
    if rows != [] {
      UncountedMeaning(rows[..|rows| - 1], cutoff, rolled, r);
      assert rows == rows[..|rows| - 1] + [rows[|rows| - 1]];
    }
  }

  datatype Meta = Meta(cursor: int, level: int, domains: int)

  /** Which of the three values cannot be read when a pass begins; such a one passes for 0. */
  datatype Unread = Unread(cursor: bool, level: bool, domains: bool)

  const ALL_READ := Unread(false, false, false)

  function AsRead(m: Meta, u: Unread): Meta {
    Meta(if u.cursor then 0 else m.cursor, if u.level then 0 else m.level, if u.domains then 0 else m.domains)
  }

  predicate Redo(p: Policy, m: Meta) { p.level > m.level || Strictness(p) > m.domains }

  function From(p: Policy, m: Meta, rows: seq<Row>): int {
    var start := if Redo(p, m) then 0 else if m.cursor - OVERLAP > 0 then m.cursor - OVERLAP else 0;
    if Oldest(rows) > start then Oldest(rows) else start
  }

  /** How strict on domains: none, rare ones by threshold, all. */
  predicate StrictnessIs(p: Policy, s: int) {
    if p.level == 0 then s == 0 else if p.domainK > 0 && p.level < 3 then s == p.domainK else s == 101
  }

  /** A pass begins at the oldest row, or later: ten minutes before the last cutoff, if the last
      completed pass was as strict in level and domains as far as that can be read. */
  lemma PassBegins(p: Policy, m: Meta, u: Unread, rows: seq<Row>, s: int)
    requires 0 <= p.level <= 3 && StrictnessIs(p, s)
    ensures var from := From(p, AsRead(m, u), rows);
            var stricter := p.level > (if u.level then 0 else m.level) || s > (if u.domains then 0 else m.domains);
            var overlap := if u.cursor then -600_000 else m.cursor - 600_000;
            && (rows != [] ==> exists r <- rows :: r.ts == Oldest(rows)) && (forall r <- rows :: Oldest(rows) <= r.ts)
            && from >= 0 && from >= Oldest(rows)
            && (stricter || overlap <= 0 ==> from == 0 || from == Oldest(rows))
            && (!stricter && overlap > 0 ==> from >= overlap && (from == overlap || from == Oldest(rows)))
  {
  }

  /** How far a completed pass gets: the cutoff, or nowhere if the oldest timestamp is
      not positive. */
  function PassEnd(p: Policy, m: Meta, rows: seq<Row>, now: int): int {
    var from := From(p, m, rows);
    if Oldest(rows) > 0 && from < Cutoff(p, now) then Cutoff(p, now) else from
  }

  function AfterPass(p: Policy, now: int): Meta { Meta(Cutoff(p, now), p.level, Strictness(p)) }

  /** The rows after the slices from `from` to `to` and, at level 3, the deletion. */
  function Passed(e: Env, p: Policy, rows: seq<Row>, from: int, to: int, at: int -> nat, deleted: bool, cutoff: int,
                  rolled: int): seq<Row>
  {
    var swept := Sweep(e, p, rows, from, to, at);
    if p.level == 3 && deleted then Uncounted(swept, cutoff, rolled) else swept
  }

  /** Below level 3, and before its deletion, a pass keeps every row: those of its range are
      reduced, the others as they were. */
  lemma PassKeepsRows(e: Env, p: Policy, rows: seq<Row>, from: int, to: int, at: int -> nat, deleted: bool, cutoff: int,
                      rolled: int, upto: nat)
    requires Pseudonyms(e) && 1 <= p.level <= 3 && (p.level < 3 || !deleted) && forall ts :: at(ts) < upto
    ensures var out := Passed(e, p, rows, from, to, at, deleted, cutoff, rolled);
            && |out| == |rows|
            && forall i | 0 <= i < |rows| ::
                 if from <= rows[i].ts < to then ReducedFrom(e, p, rows[i], out[i], upto) else out[i] == rows[i]
  {
    forall i | 0 <= i < |rows| ensures ReducedFrom(e, p, rows[i], Reduce(e, p, rows[i], at(rows[i].ts)), upto) {
      ReduceReduces(e, p, rows[i], rows[i], at(rows[i].ts), upto);
    }
  }

  /** The scrubber's store: the rows, how far the rollups got, and the three meta values. */
  class Scrubber {
    const env: Env
    var rows: seq<Row>
    var rolled: int
    var meta: Meta

    constructor (env: Env, rows: seq<Row>, rolled: int, meta: Meta)
      ensures this.env == env && this.rows == rows && this.rolled == rolled && this.meta == meta
    {
      this.env, this.rows, this.rolled, this.meta := env, rows, rolled, meta;
    }

    /** The statements of one slice. */
    method ScrubSlice(p: Policy, lo: int, hi: int, at: int -> nat)
      modifies this`rows
      ensures rows == Sweep(env, p, old(rows), lo, hi, at)
    {
      var i := 0;
      ghost var was := rows;
      while i < |rows|
        invariant 0 <= i <= |rows| == |was|
        invariant forall j | 0 <= j < |was| :: rows[j] == if j < i then Sweep(env, p, was, lo, hi, at)[j] else was[j]
      {
        var r := rows[i];
        if lo <= r.ts < hi {
          if !RareOnly(p) {
            r := r.(name := HIDDEN);
          } else if r.name != HIDDEN {
            r := r.(name := env.keep(r.name, r.ts, at(r.ts)));
          }
          if p.level == 2 && r.client != "" && !IsPseudonym(r.client) {
            r := r.(client := env.pseud(r.client, DayOf(r.ts), at(r.ts)));
          }
          rows := rows[i := r];
        }
        i := i + 1;
      }
    }

    /** The slices of a pass; those of number `failAt` fail. */
    method ScrubSlices(p: Policy, from: int, first: int, cutoff: int, failAt: nat, at: int -> nat)
      returns (lo: int, n: nat, failed: bool)
      requires 0 <= from
      modifies this`rows
      ensures rows == Sweep(env, p, old(rows), from, lo, at)
      ensures !failed ==> lo == if first > 0 && from < cutoff then cutoff else from
      ensures failed <==> n == failAt && first > 0 && lo < cutoff
    {
      ghost var was := rows;
      lo, n := from, 0;
      EmptySweep(env, p, was, from, from, at);
      while first > 0 && lo < cutoff
        invariant from <= lo && (lo <= cutoff || lo == from) && (first <= 0 ==> lo == from)
        invariant rows == Sweep(env, p, was, from, lo, at)
        decreases cutoff - lo
      {
        if n == failAt { return lo, n, true; }
        SliceFits(lo, cutoff);
        var hi := SliceEnd(lo, cutoff);
        ScrubSlice(p, lo, hi, at);
        SweepsJoin(env, p, was, from, lo, hi, at);
        lo, n := hi, n + 1;
      }
      return lo, n, false;
    }

    /** The three final writes; number `failAt` fails. */
    method Record(p: Policy, cutoff: int, failAt: int) returns (ok: bool)
      modifies this`meta
      ensures ok ==> meta == Meta(cutoff, p.level, Strictness(p))
      ensures !ok ==> meta in {old(meta), old(meta).(cursor := cutoff),
                               old(meta).(cursor := cutoff, domains := Strictness(p))}
    {
      if failAt == 0 { return false; }
      meta := meta.(cursor := cutoff);
      if failAt == 1 { return false; }
      meta := meta.(domains := Strictness(p));
      if failAt == 2 { return false; }
      meta := meta.(level := p.level);
      return true;
    }

    /** Where a pass begins. */
    method Begin(p: Policy, u: Unread) returns (from: int, first: int)
      ensures from == From(p, AsRead(meta, u), rows) && first == Oldest(rows) && 0 <= from
    {
      from := if u.cursor then 0 else meta.cursor;
      var lastLevel := if u.level then 0 else meta.level;
      var lastDomains := if u.domains then 0 else meta.domains;
      if p.level > lastLevel || Strictness(p) > lastDomains {
        from := 0;
      } else {
        from := if from - OVERLAP > 0 then from - OVERLAP else 0;
      }
      first := Oldest(rows);
      if first > from { from := first; }
    }

    /** A pass at levels 1 to 3. The statements of slice number `failAt` fail, as does the
        deletion or one of the three final writes if there are fewer slices. */
    method ScrubOnce(p: Policy, now: int, u: Unread, failAt: nat, at: int -> nat) returns (ok: bool, ghost reached: int,
            ghost deleted: bool)
      requires 1 <= p.level <= 3
      modifies this`rows, this`meta
      ensures rows == Passed(env, p, old(rows), From(p, AsRead(old(meta), u), old(rows)), reached, at, deleted,
                             Cutoff(p, now), rolled)
      ensures ok || meta != old(meta) || deleted ==> reached == PassEnd(p, AsRead(old(meta), u), old(rows), now)
      ensures ok || meta != old(meta) ==> deleted
      ensures ok ==> meta == AfterPass(p, now)
      ensures !ok ==> meta.level == old(meta).level
                      && meta in {old(meta), old(meta).(cursor := Cutoff(p, now)),
                                  old(meta).(cursor := Cutoff(p, now), domains := Strictness(p))}
    {
      var cutoff := Cutoff(p, now);
      var from, first := Begin(p, u);
      var lo, n, failed := ScrubSlices(p, from, first, cutoff, failAt, at);
      if failed || n == failAt { return false, lo, false; }
      if p.level == 3 { rows := Uncounted(rows, cutoff, rolled); }
      ok := Record(p, cutoff, failAt - n - 1);
      return ok, lo, true;
    }

    /** `Scrub` under the configured policy. */
    method Scrub(raw: Policy, now: int, u: Unread, failAt: nat, at: int -> nat) returns (ok: bool, ghost reached: int,
            ghost deleted: bool)
      modifies this`rows, this`meta
      ensures var p, seen := Normalize(raw), AsRead(old(meta), u);
              p.level > 0 ==>
                && rows == Passed(env, p, old(rows), From(p, seen, old(rows)), reached, at, deleted, Cutoff(p, now),
                                  rolled)
                && (ok || meta != old(meta) ==> reached == PassEnd(p, seen, old(rows), now) && deleted)
                && (ok ==> meta == AfterPass(p, now))
                && (!ok ==> meta.level == old(meta).level)
      ensures Normalize(raw).level == 0 ==>
                && rows == old(rows) && meta.cursor == old(meta).cursor
                && (ok ==> meta.level == meta.domains == 0)
                && (!ok ==> meta == old(meta) || meta == old(meta).(domains := 0))
    {
      var p := Normalize(raw);
      reached, deleted := 0, false;
      if p.level > 0 {
        ok, reached, deleted := ScrubOnce(p, now, u, failAt, at);
        return;
      }
      if failAt == 0 { return false, 0, false; }
      meta := meta.(domains := 0);
      if failAt == 1 { return false, 0, false; }
      meta := meta.(level := 0);
      return true, 0, false;
    }
  }

  /** At level 3, past the cutoff, a completed pass leaves only queries the rollups have not
      counted yet, with their names hidden (if no stored timestamp is zero or negative and it
      goes over all history), and every other query as it was. */
  lemma AnonymousPass(e: Env, p: Policy, m: Meta, rows: seq<Row>, now: int, rolled: int, r: Row,
                      at: int -> nat)
    requires p.level == 3 && Redo(p, m) && Oldest(rows) > 0
    ensures var from, to := From(p, m, rows), PassEnd(p, m, rows, now);
            var after := Passed(e, p, rows, from, to, at, true, Cutoff(p, now), rolled);
            && (multiset(after)[r] > 0 && r.ts < Cutoff(p, now) ==> r.name == HIDDEN && r.id > rolled)
            && (r.ts >= Cutoff(p, now) ==> multiset(after)[r] == multiset(rows)[r])
  {
    var from, to := From(p, m, rows), PassEnd(p, m, rows, now);
    AnonymousRows(e, p, rows, from, to, Cutoff(p, now), rolled, r, at);
  }

  lemma AnonymousRows(e: Env, p: Policy, rows: seq<Row>, from: int, to: int, cutoff: int, rolled: int, r: Row,
                      at: int -> nat)
    requires p.level == 3 && from == Oldest(rows) && (to == cutoff || to == from >= cutoff)
    ensures var after := multiset(Uncounted(Sweep(e, p, rows, from, to, at), cutoff, rolled));
            && (after[r] > 0 && r.ts < cutoff ==> r.name == HIDDEN && r.id > rolled)
            && (r.ts >= cutoff ==> after[r] == multiset(rows)[r])
  {
    var swept := Sweep(e, p, rows, from, to, at);
    UncountedMeaning(swept, cutoff, rolled, r);
    if multiset(swept)[r] > 0 && r.ts < cutoff { SweptIsHidden(e, p, rows, from, to, r, at); }
    if r.ts >= cutoff { SweptKeepsLater(e, p, rows, from, to, r, at); }
  }

  lemma SweptIsHidden(e: Env, p: Policy, rows: seq<Row>, from: int, to: int, r: Row, at: int -> nat)
    requires p.level == 3 && multiset(Sweep(e, p, rows, from, to, at))[r] > 0 && r.ts < to && from <= Oldest(rows)
    ensures r.name == HIDDEN
  {
    assert r in Sweep(e, p, rows, from, to, at);
    var i :| 0 <= i < |rows| && Sweep(e, p, rows, from, to, at)[i] == r;
    assert rows[i] in rows;
  }

  lemma {:induction false} SameCount<T>(a: seq<T>, b: seq<T>, r: T)
    requires |a| == |b| && forall i :: 0 <= i < |a| ==> (a[i] == r <==> b[i] == r)
    ensures multiset(a)[r] == multiset(b)[r]
  {
    if a != [] {
      SameCount(a[1..], b[1..], r);
      assert a == [a[0]] + a[1..] && b == [b[0]] + b[1..];
    }
  }

  lemma SweptKeepsLater(e: Env, p: Policy, rows: seq<Row>, from: int, to: int, r: Row, at: int -> nat)
    requires to <= r.ts || to <= from
    ensures multiset(Sweep(e, p, rows, from, to, at))[r] == multiset(rows)[r]
  {
    var swept := Sweep(e, p, rows, from, to, at);
    forall i | 0 <= i < |rows| ensures swept[i] == r <==> rows[i] == r {
      assert swept[i].ts == rows[i].ts;
    }
    SameCount(swept, rows, r);
  }

  // ---------------------------------------------------------------- a pass that does nothing

  /** A pass over all history (`Redo`) reduces the rows past their window exactly when no
      stored timestamp is zero or negative: one such row makes it skip every statement,
      and the cursor still moves to the cutoff. */
  lemma RedoReducesIff(e: Env, p: Policy, m: Meta, rows: seq<Row>, now: int, i: nat, at: int -> nat, upto: nat)
    requires Pseudonyms(e) && 1 <= p.level <= 3 && Redo(p, m) && forall ts :: at(ts) < upto
    requires i < |rows| && rows[i].ts < Cutoff(p, now) && !ReducedFrom(e, p, rows[i], rows[i], upto)
    ensures ReducedFrom(e, p, rows[i], Sweep(e, p, rows, From(p, m, rows), PassEnd(p, m, rows, now), at)[i], upto)
            <==> Oldest(rows) > 0
  {
    assert rows[i] in rows;
    ReduceReduces(e, p, rows[i], rows[i], at(rows[i].ts), upto);
  }

  // ---------------------------------------------------------------- passes among insertions

  /** An entry as `Ingest` leaves it at time `at` and moment m. */
  function Ingested(e: Env, p: Policy, raw: Row, at: int, m: nat): Row {
    if p.level == 0 || (raw.ts >= Cutoff(p, at) && p.detailHours != 0) then raw
    else if p.level == 3 then Reduce(e, p, raw, m).(client := "")
    else Reduce(e, p, raw, m)
  }

  /** What is stored of a query as it arrives: the query itself at level 0 or within its detail
      window, else reduced; at level 3 without its client. */
  lemma IngestedIs(e: Env, p: Policy, raw: Row, at: int, m: nat)
    requires Pseudonyms(e) && 0 <= p.level <= 3
    ensures var r := Ingested(e, p, raw, at, m);
            if p.level == 0 || (p.detailHours != 0 && at - p.detailHours * 3_600_000 <= raw.ts) then r == raw
            else if p.level < 3 then ReducedFrom(e, p, raw, r, m + 1)
            else r == Row(raw.id, raw.ts, "hidden", "")
  {
    if p.level > 0 { ReduceReduces(e, p, raw, raw, m, m + 1); }
  }

  /** A pass under way: the oldest timestamp and number of rows it found, and how far its
      slices got. */
  datatype Pass = Pass(began: int, lo: int, count: nat, first: int)

  /** `raws` records each query as it came in (or was stored before), `moment` how many
      insertions and slices there were. */
  datatype World = World(rows: seq<Row>, raws: seq<Row>, meta: Meta, now: int, pass: Option<Pass>, moment: nat)

  datatype Step =
    | Insert(raw: Row, ingestedAt: int)
    | Begin(u: Unread)
    | Slice
    | Complete
    | Abort(written: nat)   // an error; `written` of the final writes got through
    | Tick(to: int)

  /** The slice loop is over. */
  predicate Over(p: Policy, b: Pass) { b.first <= 0 || Cutoff(p, b.began) <= b.lo }

  /** Entries are stored within the overlap of being ingested under the policy. */
  ghost predicate Enabled(w: World, p: Policy, s: Step) {
    match s
    case Insert(_, at) => at <= w.now < at + OVERLAP
    case Begin(_) => w.pass.None?
    case Slice => w.pass.Some? && w.pass.value.first > 0 && 0 <= w.pass.value.lo < Cutoff(p, w.pass.value.began)
    case Complete => w.pass.Some? && Over(p, w.pass.value)
    case Abort(written) => w.pass.Some? && written <= 2 && (written > 0 ==> Over(p, w.pass.value))
    case Tick(to) => w.now <= to
  }

  ghost function Next(e: Env, w: World, p: Policy, s: Step): World
    requires Enabled(w, p, s)
  {
    match s
    case Insert(raw, at) =>
      w.(rows := w.rows + [Ingested(e, p, raw, at, w.moment)], raws := w.raws + [raw], moment := w.moment + 1)
    case Begin(u) => w.(pass := Some(Pass(w.now, From(p, AsRead(w.meta, u), w.rows), |w.rows|, Oldest(w.rows))))
    case Slice =>
      var b := w.pass.value;
      var hi := SliceEnd(b.lo, Cutoff(p, b.began));
      w.(rows := Sweep(e, p, w.rows, b.lo, hi, _ => w.moment), pass := Some(b.(lo := hi)), moment := w.moment + 1)
    case Complete => w.(meta := AfterPass(p, w.pass.value.began), pass := None)
    case Abort(written) =>
      var m := if written > 0 then w.meta.(cursor := Cutoff(p, w.pass.value.began)) else w.meta;
      w.(meta := if written > 1 then m.(domains := Strictness(p)) else m, pass := None)
    case Tick(to) => w.(now := to)
  }

  ghost predicate Possible(e: Env, w: World, p: Policy, run: seq<Step>)
    decreases |run|
  {
    run == [] || (Enabled(w, p, run[0]) && Possible(e, Next(e, w, p, run[0]), p, run[1..]))
  }

  ghost function After(e: Env, w: World, p: Policy, run: seq<Step>): World
    requires Possible(e, w, p, run)
    decreases |run|
  {
    if run == [] then w else After(e, Next(e, w, p, run[0]), p, run[1..])
  }

  ghost predicate RowReduced(e: Env, w: World, p: Policy, i: nat)
    requires i < |w.rows| == |w.raws|
  {
    ReducedFrom(e, p, w.raws[i], w.rows[i], w.moment)
  }

  /** Once a pass of this policy completed, what is still unreduced is no older than the
      overlap before its cutoff. */
  ghost predicate Covered(e: Env, w: World, p: Policy)
    requires |w.rows| == |w.raws|
  {
    !Redo(p, w.meta) ==>
      && w.meta.cursor <= Cutoff(p, w.now)
      && forall i | 0 <= i < |w.rows| :: !RowReduced(e, w, p, i) ==> w.meta.cursor - OVERLAP <= w.raws[i].ts
  }

  /** A pass leaves nothing behind it: of the rows it found, those below `lo` are
      reduced; rows that came in since are no older than the overlap. */
  ghost predicate Progress(e: Env, w: World, p: Policy)
    requires |w.rows| == |w.raws|
  {
    w.pass.Some? ==>
      var b := w.pass.value;
      && 0 <= b.lo && b.began <= w.now && b.count <= |w.rows| && (b.first <= 0 ==> b.count == 0)
      && (forall i | 0 <= i < b.count :: w.raws[i].ts < b.lo ==> RowReduced(e, w, p, i))
      && (forall i | b.count <= i < |w.rows| ::
            !RowReduced(e, w, p, i) ==> Cutoff(p, b.began) - OVERLAP <= w.raws[i].ts)
  }

  /** Every row is as it came in, or reduced from that. */
  ghost predicate AllTouched(e: Env, w: World, p: Policy) {
    && |w.rows| == |w.raws|
    && forall i | 0 <= i < |w.rows| ::
         w.raws[i].ts > 0 && w.rows[i].ts == w.raws[i].ts && Touched(e, p, w.raws[i], w.rows[i], w.moment)
  }

  ghost predicate Inv(e: Env, w: World, p: Policy) {
    1 <= p.level <= 2 && AllTouched(e, w, p) && Covered(e, w, p) && Progress(e, w, p)
  }

  /** What stays reduced when a moment passes. */
  lemma StaysReduced(e: Env, p: Policy, w: World, v: World, i: nat)
    requires i < |w.rows| == |w.raws| && i < |v.rows| == |v.raws| && w.moment <= v.moment
    requires v.raws[i] == w.raws[i] && v.rows[i] == w.rows[i]
    ensures RowReduced(e, w, p, i) ==> RowReduced(e, v, p, i)
    ensures Touched(e, p, w.raws[i], w.rows[i], w.moment) ==> Touched(e, p, v.raws[i], v.rows[i], v.moment)
  {
    if RowReduced(e, w, p, i) { ReducedLater(e, p, w.raws[i], w.rows[i], w.moment, v.moment); }
  }

  lemma InsertKeepsInv(e: Env, w: World, p: Policy, raw: Row, at: int)
    requires Pseudonyms(e) && Inv(e, w, p) && Enabled(w, p, Insert(raw, at)) && raw.ts > 0
    ensures Inv(e, Next(e, w, p, Insert(raw, at)), p)
  {
    var v := Next(e, w, p, Insert(raw, at));
    ReduceReduces(e, p, raw, raw, w.moment, v.moment);
    forall i | 0 <= i < |w.rows|
      ensures RowReduced(e, w, p, i) ==> RowReduced(e, v, p, i)
      ensures v.raws[i] == w.raws[i] && v.rows[i] == w.rows[i] && Touched(e, p, v.raws[i], v.rows[i], v.moment)
    {
      StaysReduced(e, p, w, v, i);
    }
    var last := |w.rows|;
    assert v.raws[last] == raw && v.rows[last] == Ingested(e, p, raw, at, w.moment);
    assert !RowReduced(e, v, p, last) ==> v.rows[last] == raw && Cutoff(p, at) <= raw.ts;
  }

  /** A value that cannot be read makes a pass begin no later. */
  lemma BeginKeepsInv(e: Env, w: World, p: Policy, u: Unread)
    requires Inv(e, w, p) && Enabled(w, p, Begin(u))
    ensures Inv(e, Next(e, w, p, Begin(u)), p)
  {
    var v := Next(e, w, p, Begin(u));
    forall i | 0 <= i < |w.rows|
      ensures RowReduced(e, v, p, i) <==> RowReduced(e, w, p, i)
      ensures w.raws[i].ts < From(p, AsRead(w.meta, u), w.rows) ==> RowReduced(e, w, p, i)
    {
      assert w.rows[i] in w.rows;
    }
  }

  lemma SliceKeepsRow(e: Env, w: World, p: Policy, i: nat)
    requires Pseudonyms(e) && Inv(e, w, p) && Enabled(w, p, Slice) && i < |w.rows|
    ensures var v := Next(e, w, p, Slice);
            && |v.rows| == |v.raws| == |w.rows| && v.raws[i] == w.raws[i] && v.rows[i].ts == w.rows[i].ts
            && Touched(e, p, v.raws[i], v.rows[i], v.moment)
            && (RowReduced(e, w, p, i) ==> RowReduced(e, v, p, i))
            && (w.pass.value.lo <= w.raws[i].ts < v.pass.value.lo ==> RowReduced(e, v, p, i))
  {
    var v := Next(e, w, p, Slice);
    SliceFits(w.pass.value.lo, Cutoff(p, w.pass.value.began));
    if w.pass.value.lo <= w.rows[i].ts < v.pass.value.lo {
      TouchedLater(e, p, w.raws[i], w.rows[i], w.moment, v.moment);
      ReduceReduces(e, p, w.raws[i], w.rows[i], w.moment, v.moment);
    } else {
      StaysReduced(e, p, w, v, i);
    }
  }

  lemma TouchedLater(e: Env, p: Policy, raw: Row, r: Row, upto: nat, later: nat)
    requires Touched(e, p, raw, r, upto) && upto <= later
    ensures Touched(e, p, raw, r, later)
  {
    if r != raw { ReducedLater(e, p, raw, r, upto, later); }
  }

  lemma SliceKeepsInv(e: Env, w: World, p: Policy)
    requires Pseudonyms(e) && Inv(e, w, p) && Enabled(w, p, Slice)
    ensures Inv(e, Next(e, w, p, Slice), p)
  {
    var b := w.pass.value;
    var v := Next(e, w, p, Slice);
    SliceFits(b.lo, Cutoff(p, b.began));
    forall i | 0 <= i < |w.rows|
      ensures v.raws[i] == w.raws[i] && v.rows[i].ts == w.rows[i].ts && Touched(e, p, v.raws[i], v.rows[i], v.moment)
      ensures RowReduced(e, w, p, i) ==> RowReduced(e, v, p, i)
      ensures b.lo <= w.raws[i].ts < v.pass.value.lo ==> RowReduced(e, v, p, i)
    {
      SliceKeepsRow(e, w, p, i);
    }
  }

  lemma EndKeepsInv(e: Env, w: World, p: Policy, s: Step)
    requires Inv(e, w, p) && Enabled(w, p, s) && (s.Complete? || s.Abort? || s.Tick?)
    ensures Inv(e, Next(e, w, p, s), p)
  {
    var v := Next(e, w, p, s);
    forall i | 0 <= i < |w.rows| ensures RowReduced(e, v, p, i) <==> RowReduced(e, w, p, i) {
    }
  }

  /** Every entry that comes in carries a positive timestamp. */
  predicate Positive(run: seq<Step>) { forall i :: 0 <= i < |run| && run[i].Insert? ==> run[i].raw.ts > 0 }

  lemma {:induction false} RunKeepsInv(e: Env, w: World, p: Policy, run: seq<Step>)
    requires Pseudonyms(e) && Inv(e, w, p) && Possible(e, w, p, run) && Positive(run)
    ensures Inv(e, After(e, w, p, run), p)
    decreases |run|
  {
    if run != [] {
      match run[0] {
        case Insert(raw, at) => InsertKeepsInv(e, w, p, raw, at);
        case Begin(u) => BeginKeepsInv(e, w, p, u);
        case Slice => SliceKeepsInv(e, w, p);
        case Complete => EndKeepsInv(e, w, p, run[0]);
        case Abort(_) => EndKeepsInv(e, w, p, run[0]);
        case Tick(_) => EndKeepsInv(e, w, p, run[0]);
      }
      RunKeepsInv(e, Next(e, w, p, run[0]), p, run[1..]);
    }
  }

  /** The queries that came in during a run, in order. */
  function CameIn(run: seq<Step>): seq<Row> {
    if run == [] then [] else (if run[0].Insert? then [run[0].raw] else []) + CameIn(run[1..])
  }

  lemma {:induction false} RawsRecord(e: Env, w: World, p: Policy, run: seq<Step>)
    requires Possible(e, w, p, run)
    ensures After(e, w, p, run).raws == w.raws + CameIn(run)
    decreases |run|
  {
    if run != [] {
      var v := Next(e, w, p, run[0]);
      RawsRecord(e, v, p, run[1..]);
      assert v.raws == w.raws + if run[0].Insert? then [run[0].raw] else [];
    }
  }

  /** Scrub safety, from any stored history and any earlier policy's meta values. `raws` are the
      rows stored before and the queries as they came in. Each row is as it was then, or
      reduced from that; when a pass completes, every row it found that is older than its
      cutoff is reduced; and from the first completed pass on, at every moment, a row that
      is not is no older than ten minutes before the last cutoff. */
  lemma ScrubIsSafe(e: Env, begin: World, p: Policy, run: seq<Step>)
    requires Pseudonyms(e) && 1 <= p.level <= 2 && begin.pass.None? && Redo(p, begin.meta)
    requires begin.raws == begin.rows && forall i | 0 <= i < |begin.rows| :: begin.rows[i].ts > 0
    requires Possible(e, begin, p, run) && Positive(run)
    ensures var w, raws := After(e, begin, p, run), begin.rows + CameIn(run);
            && |w.rows| == |raws|
            && (forall i | 0 <= i < |raws| :: w.rows[i] == raws[i] || ReducedFrom(e, p, raws[i], w.rows[i], w.moment))
            && (Enabled(w, p, Complete) ==>
                  var b := w.pass.value;
                  && b.count <= |raws|
                  && forall i | 0 <= i < b.count ::
                       raws[i].ts < Cutoff(p, b.began) ==> ReducedFrom(e, p, raws[i], w.rows[i], w.moment))
            && (!Redo(p, w.meta) ==>
                  forall i | 0 <= i < |raws| ::
                    !ReducedFrom(e, p, raws[i], w.rows[i], w.moment) ==> w.meta.cursor - OVERLAP <= raws[i].ts)
  {
    RunKeepsInv(e, begin, p, run);
    RawsRecord(e, begin, p, run);
    var w := After(e, begin, p, run);
    forall i | 0 <= i < |w.rows|
      ensures RowReduced(e, w, p, i) <==> ReducedFrom(e, p, w.raws[i], w.rows[i], w.moment)
    {
    }
  }

  // ---------------------------------------------------------------- the detail window

  /** What is within its detail window is as it came in. */
  ghost predicate Detailed(w: World, p: Policy) {
    && |w.rows| == |w.raws|
    && (forall i | 0 <= i < |w.rows| :: w.rows[i].ts == w.raws[i].ts)
    && (forall i | 0 <= i < |w.rows| :: w.raws[i].ts >= Cutoff(p, w.now) ==> w.rows[i] == w.raws[i])
    && (w.pass.Some? ==> w.pass.value.began <= w.now)
  }

  lemma StepKeepsDetail(e: Env, w: World, p: Policy, s: Step)
    requires 1 <= p.level <= 2 && p.detailHours > 0 && Detailed(w, p) && Enabled(w, p, s)
    ensures Detailed(Next(e, w, p, s), p)
  {
    if s.Slice? {
      var b := w.pass.value;
      SliceFits(b.lo, Cutoff(p, b.began));
    }
  }

  /** Over every run with a detail window: a query that is within its window is stored as it
      came in. */
  lemma {:induction false} WindowKeepsDetail(e: Env, w: World, p: Policy, run: seq<Step>)
    requires 1 <= p.level <= 2 && p.detailHours > 0 && Detailed(w, p) && Possible(e, w, p, run)
    ensures Detailed(After(e, w, p, run), p)
    decreases |run|
  {
    if run != [] {
      StepKeepsDetail(e, w, p, run[0]);
      WindowKeepsDetail(e, Next(e, w, p, run[0]), p, run[1..]);
    }
  }

  // ---------------------------------------------------------------- a pass can complete

  /** A pass under way, whose range begins at 0 or later, comes to its end slice by slice. */
  lemma {:induction false} PassCompletes(e: Env, w: World, p: Policy) returns (run: seq<Step>)
    requires w.pass.Some? && 0 <= w.pass.value.lo
    ensures Possible(e, w, p, run)
    ensures var v := After(e, w, p, run); v.pass.None? && v.meta == AfterPass(p, w.pass.value.began)
    decreases Cutoff(p, w.pass.value.began) - w.pass.value.lo
  {
    var b := w.pass.value;
    if Over(p, b) {
      run := [Complete];
      assert run[1..] == [];
    } else {
      SliceFits(b.lo, Cutoff(p, b.began));
      var rest := PassCompletes(e, Next(e, w, p, Slice), p);
      run := [Slice] + rest;
      assert run[1..] == rest;
    }
  }

  // ---------------------------------------------------------------- a timestamp that is not positive

  /** As long as a row with a timestamp that is not positive is stored, no pass reduces
      anything. */
  ghost predicate Stuck(w: World, j: nat) {
    j < |w.rows| && w.rows[j].ts <= 0 && (w.pass.Some? ==> w.pass.value.first <= 0)
  }

  lemma {:induction false} StuckReducesNothing(e: Env, w: World, p: Policy, run: seq<Step>, j: nat)
    requires Stuck(w, j) && Possible(e, w, p, run)
    ensures |After(e, w, p, run).rows| >= |w.rows| && After(e, w, p, run).rows[..|w.rows|] == w.rows
    decreases |run|
  {
    if run != [] {
      var v := Next(e, w, p, run[0]);
      assert w.rows[j] in w.rows;
      assert v.rows[..|w.rows|] == w.rows;
      assert v.rows[j] == w.rows[j];
      StuckReducesNothing(e, v, p, run[1..], j);
      assert After(e, v, p, run[1..]).rows[..|v.rows|][..|w.rows|] == After(e, v, p, run[1..]).rows[..|w.rows|];
    }
  }

  /** The pass completes all the same, and its cursor leaves the rows behind. */
  ghost predicate LeftBehind(w: World, p: Policy, r: Row, i: nat) {
    && i < |w.rows| && w.rows[i] == r
    && !Redo(p, w.meta) && r.ts < w.meta.cursor - OVERLAP && w.meta.cursor <= Cutoff(p, w.now)
    && (w.pass.Some? ==>
          w.pass.value.began <= w.now && w.meta.cursor <= Cutoff(p, w.pass.value.began) && r.ts < w.pass.value.lo)
  }

  predicate AllRead(run: seq<Step>) { forall i :: 0 <= i < |run| && run[i].Begin? ==> run[i].u == ALL_READ }

  lemma StepLeavesBehind(e: Env, w: World, p: Policy, s: Step, r: Row, i: nat)
    requires 1 <= p.level <= 2 && LeftBehind(w, p, r, i) && Enabled(w, p, s) && (s.Begin? ==> s.u == ALL_READ)
    ensures LeftBehind(Next(e, w, p, s), p, r, i)
  {
    if s.Slice? { SliceFits(w.pass.value.lo, Cutoff(p, w.pass.value.began)); }
  }

  /** Over every run of the same policy, whether or not the row that caused it is still
      stored at its start, a row left behind is never touched again, unless a later pass cannot read its values. */
  lemma {:induction false} SkippedForGood(e: Env, w: World, p: Policy, run: seq<Step>, r: Row, i: nat)
    requires 1 <= p.level <= 2 && LeftBehind(w, p, r, i) && Possible(e, w, p, run) && AllRead(run)
    ensures LeftBehind(After(e, w, p, run), p, r, i)
    decreases |run|
  {
    if run != [] {
      StepLeavesBehind(e, w, p, run[0], r, i);
      assert AllRead(run[1..]) by {
        assert forall k :: 0 <= k < |run[1..]| ==> run[1..][k] == run[k + 1];
      }
      SkippedForGood(e, Next(e, w, p, run[0]), p, run[1..], r, i);
    }
  }

  const HIDE_NAMES := Policy(1, 0, 0)
  const AT_ZERO := Row(1, 0, "a.", "c")
  const SECRET := Row(2, 1, "b.", "c")

  /** A log with one row at timestamp 0 and one unreduced row past its window: the first pass
      completes, and leaves the second behind. */
  lemma ZeroTimestampSkips(e: Env, now: int)
    requires now > 1 + OVERLAP
    ensures var begin := World([AT_ZERO, SECRET], [AT_ZERO, SECRET], Meta(0, 0, 0), now, None, 0);
            var run := [Begin(ALL_READ), Complete];
            && Possible(e, begin, HIDE_NAMES, run)
            && LeftBehind(After(e, begin, HIDE_NAMES, run), HIDE_NAMES, SECRET, 1)
            && SECRET.ts < Cutoff(HIDE_NAMES, now) && SECRET.name != "hidden"
  {
    var begin := World([AT_ZERO, SECRET], [AT_ZERO, SECRET], Meta(0, 0, 0), now, None, 0);
    var run := [Begin(ALL_READ), Complete];
    assert AT_ZERO in begin.rows;
    assert Oldest(begin.rows) == 0 by { assert begin.rows[..1] == [AT_ZERO]; }
    var a := Next(e, begin, HIDE_NAMES, run[0]);
    assert run[1..] == [Complete] && run[1..][1..] == [];
    assert Possible(e, a, HIDE_NAMES, [Complete]);
  }
}
