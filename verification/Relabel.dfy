/** Relabelling stored queries (`RelabelContent` in internal/store/categories.go): query-log
    rows move from "other" to the category each now has, and the hourly category rollup
    moves with the rows already folded into it. */
module Relabelling {
  import opened Wrappers

  const OTHER := "other"

  datatype Row = Row(id: int, ts: int, node: string, action: string, cat: string)
  datatype Key = Key(hour: int, node: string, cat: string)
  datatype Hour = Hour(hour: int, node: string)
  datatype Count = Count(cnt: int, blocked: int)

  type Counts = map<Key, Count>

  const ZERO := Count(0, 0)

  function Plus(a: Count, b: Count): Count { Count(a.cnt + b.cnt, a.blocked + b.blocked) }
  function Minus(a: Count, b: Count): Count { Count(a.cnt - b.cnt, a.blocked - b.blocked) }

  function Get(m: Counts, k: Key): Count { if k in m then m[k] else ZERO }

  /** SQL's `ts/3600000`, which truncates toward zero. */
  function HourOf(r: Row): Hour { Hour(if r.ts >= 0 then r.ts / 3600000 else -(-r.ts / 3600000), r.node) }

  function KeyOf(r: Row): Key { Key(HourOf(r).hour, r.node, r.cat) }

  function One(r: Row): Count { Count(1, if r.action == "blocked" then 1 else 0) }

  function Share(r: Row, cursor: int, k: Key): Count {
    if r.id <= cursor && KeyOf(r) == k then One(r) else ZERO
  }

  /** What the rollup counts for `k` from the rows up to the cursor. */
  function Fold(rows: seq<Row>, cursor: int, k: Key): Count {
    if rows == [] then ZERO else Plus(Fold(rows[1..], cursor, k), Share(rows[0], cursor, k))
  }

  predicate Named(labels: map<int, string>, id: int) { id in labels && labels[id] != "" && labels[id] != OTHER }

  /** A row after the relabelling, when its id is among `done`. */
  function Relabelled(r: Row, labels: map<int, string>, done: set<int>): Row {
    if r.cat == OTHER && r.id in done && Named(labels, r.id) then r.(cat := labels[r.id]) else r
  }

  function RelabelledAll(rows: seq<Row>, labels: map<int, string>, done: set<int>): (out: seq<Row>)
    ensures |out| == |rows| && forall i :: 0 <= i < |rows| ==> out[i] == Relabelled(rows[i], labels, done)
  {
    seq(|rows|, i requires 0 <= i < |rows| => Relabelled(rows[i], labels, done))
  }

  // ---------------------------------------------------------------- one chunk

  /** The rows one chunk's statements select. */
  predicate Picked(r: Row, chunk: seq<int>) { r.cat == OTHER && r.id in chunk }

  /** UPDATE query_log SET content_category = cat. */
  function MoveRow(r: Row, chunk: seq<int>, cat: string): Row { if Picked(r, chunk) then r.(cat := cat) else r }

  function MoveRows(rows: seq<Row>, chunk: seq<int>, cat: string): (out: seq<Row>)
    ensures |out| == |rows| && forall i :: 0 <= i < |rows| ==> out[i] == MoveRow(rows[i], chunk, cat)
  {
    seq(|rows|, i requires 0 <= i < |rows| => MoveRow(rows[i], chunk, cat))
  }

  function CountPicked(rows: seq<Row>, chunk: seq<int>): nat {
    if rows == [] then 0 else CountPicked(rows[1..], chunk) + if Picked(rows[0], chunk) then 1 else 0
  }

  function PickedShare(r: Row, chunk: seq<int>, cursor: int, h: Hour): Count {
    if Picked(r, chunk) && r.id <= cursor && HourOf(r) == h then One(r) else ZERO
  }

  /** SELECT COUNT(*), SUM(action='blocked') … GROUP BY hour, node: one group. */
  function Tally(rows: seq<Row>, chunk: seq<int>, cursor: int, h: Hour): (c: Count)
    ensures 0 <= c.blocked <= c.cnt
  {
    if rows == [] then ZERO
    else Plus(Tally(rows[1..], chunk, cursor, h), PickedShare(rows[0], chunk, cursor, h))
  }

  function Groups(rows: seq<Row>, chunk: seq<int>, cursor: int): set<Hour> {
    if rows == [] then {}
    else Groups(rows[1..], chunk, cursor)
         + if Picked(rows[0], chunk) && rows[0].id <= cursor then {HourOf(rows[0])} else {}
  }

  lemma {:induction false} OtherHoursAreEmpty(rows: seq<Row>, chunk: seq<int>, cursor: int, h: Hour)
    requires h !in Groups(rows, chunk, cursor)
    ensures Tally(rows, chunk, cursor, h) == ZERO
  {
    if rows != [] { OtherHoursAreEmpty(rows[1..], chunk, cursor, h); }
  }

  function HourOfKey(k: Key): Hour { Hour(k.hour, k.node) }

  /** How a chunk moved to `cat` changes the fold of `k`. */
  function Shift(t: Count, k: Key, cat: string): Count {
    if k.cat == cat then t else if k.cat == OTHER then Count(-t.cnt, -t.blocked) else ZERO
  }

  lemma MoveShiftsShare(r: Row, chunk: seq<int>, cat: string, cursor: int, k: Key)
    requires cat != OTHER
    ensures Share(MoveRow(r, chunk, cat), cursor, k)
            == Plus(Share(r, cursor, k), Shift(PickedShare(r, chunk, cursor, HourOfKey(k)), k, cat))
  {
    assert HourOf(MoveRow(r, chunk, cat)) == HourOf(r);
  }

  lemma ShiftAdds(a: Count, b: Count, k: Key, cat: string)
    ensures Shift(Plus(a, b), k, cat) == Plus(Shift(a, k, cat), Shift(b, k, cat))
  {
  }

  lemma PlusPlus(a: Count, b: Count, c: Count, d: Count)
    ensures Plus(Plus(a, b), Plus(c, d)) == Plus(Plus(a, c), Plus(b, d))
  {
  }

  lemma MoveRowsTail(rows: seq<Row>, chunk: seq<int>, cat: string)
    requires rows != []
    ensures MoveRows(rows, chunk, cat) == [MoveRow(rows[0], chunk, cat)] + MoveRows(rows[1..], chunk, cat)
  {
  }

  lemma FoldCons(r: Row, rows: seq<Row>, cursor: int, k: Key)
    ensures Fold([r] + rows, cursor, k) == Plus(Fold(rows, cursor, k), Share(r, cursor, k))
  {
    assert ([r] + rows)[1..] == rows;
  }

  lemma {:induction false} MoveShiftsFold(rows: seq<Row>, chunk: seq<int>, cat: string, cursor: int, k: Key)
    requires cat != OTHER
    ensures Fold(MoveRows(rows, chunk, cat), cursor, k)
            == Plus(Fold(rows, cursor, k), Shift(Tally(rows, chunk, cursor, HourOfKey(k)), k, cat))
  {
    if rows != [] {
      var h := HourOfKey(k);
      var rest, t, p := rows[1..], Tally(rows[1..], chunk, cursor, h), PickedShare(rows[0], chunk, cursor, h);
      MoveShiftsFold(rest, chunk, cat, cursor, k);
      MoveShiftsShare(rows[0], chunk, cat, cursor, k);
      ShiftAdds(t, p, k, cat);
      PlusPlus(Fold(rest, cursor, k), Shift(t, k, cat), Share(rows[0], cursor, k), Shift(p, k, cat));
      MoveRowsTail(rows, chunk, cat);
      FoldCons(MoveRow(rows[0], chunk, cat), MoveRows(rest, chunk, cat), cursor, k);
    }
  }

  /** Counts leave "other" and enter a named category, so no count cancels another. */
  predicate Signed(deltas: Counts) {
    forall k <- deltas ::
      if k.cat == OTHER then deltas[k].cnt <= deltas[k].blocked <= 0 else 0 <= deltas[k].blocked <= deltas[k].cnt
  }

  /** `add`. */
  function Add(deltas: Counts, k: Key, c: Count): Counts { deltas[k := Plus(Get(deltas, k), c)] }

  function AddBoth(deltas: Counts, h: Hour, cat: string, c: Count): Counts {
    Add(Add(deltas, Key(h.hour, h.node, OTHER), Count(-c.cnt, -c.blocked)), Key(h.hour, h.node, cat), c)
  }

  lemma AddBothShifts(deltas: Counts, h: Hour, cat: string, c: Count, k: Key)
    requires cat != OTHER
    ensures Get(AddBoth(deltas, h, cat, c), k)
            == if HourOfKey(k) == h then Plus(Get(deltas, k), Shift(c, k, cat)) else Get(deltas, k)
  {
  }

  lemma AddBothSigned(deltas: Counts, h: Hour, cat: string, c: Count)
    requires cat != OTHER && Signed(deltas) && 0 <= c.blocked <= c.cnt
    ensures Signed(AddBoth(deltas, h, cat, c))
  {
  }

  /** The deltas after the groups of `left` are still to come. */
  predicate Shifted(deltas0: Counts, deltas: Counts, rows: seq<Row>, chunk: seq<int>, cursor: int,
                    cat: string, left: set<Hour>, k: Key)
  {
    Get(deltas, k) == if HourOfKey(k) in left then Get(deltas0, k)
                      else Plus(Get(deltas0, k), Shift(Tally(rows, chunk, cursor, HourOfKey(k)), k, cat))
  }

  lemma NoneShifted(deltas: Counts, rows: seq<Row>, chunk: seq<int>, cursor: int, cat: string, left: set<Hour>, k: Key)
    requires HourOfKey(k) in left || Tally(rows, chunk, cursor, HourOfKey(k)) == ZERO
    ensures Shifted(deltas, deltas, rows, chunk, cursor, cat, left, k)
  {
  }

  lemma OneMoreShifted(deltas0: Counts, deltas: Counts, rows: seq<Row>, chunk: seq<int>, cursor: int,
                       cat: string, left: set<Hour>, h: Hour, k: Key)
    requires cat != OTHER && h in left && Shifted(deltas0, deltas, rows, chunk, cursor, cat, left, k)
    ensures Shifted(deltas0, AddBoth(deltas, h, cat, Tally(rows, chunk, cursor, h)), rows, chunk, cursor, cat,
        left - {h}, k)
  {
    AddBothShifts(deltas, h, cat, Tally(rows, chunk, cursor, h), k);
  }

  ghost predicate AllShifted(deltas0: Counts, deltas: Counts, rows: seq<Row>, chunk: seq<int>, cursor: int,
                             cat: string, left: set<Hour>)
  {
    forall k :: Shifted(deltas0, deltas, rows, chunk, cursor, cat, left, k)
  }

  lemma OneMoreAllShifted(deltas0: Counts, deltas: Counts, rows: seq<Row>, chunk: seq<int>, cursor: int,
                          cat: string, left: set<Hour>, h: Hour)
    requires cat != OTHER && h in left && AllShifted(deltas0, deltas, rows, chunk, cursor, cat, left)
    ensures AllShifted(deltas0, AddBoth(deltas, h, cat, Tally(rows, chunk, cursor, h)), rows, chunk, cursor, cat,
        left - {h})
  {
    var after := AddBoth(deltas, h, cat, Tally(rows, chunk, cursor, h));
    forall k ensures Shifted(deltas0, after, rows, chunk, cursor, cat, left - {h}, k) {
      OneMoreShifted(deltas0, deltas, rows, chunk, cursor, cat, left, h, k);
    }
  }

  /** The loop over one chunk's groups. */
  method AddGroups(rows: seq<Row>, chunk: seq<int>, cat: string, cursor: int, deltas0: Counts)
    returns (deltas: Counts)
    requires cat != OTHER && Signed(deltas0)
    ensures Signed(deltas) && AllShifted(deltas0, deltas, rows, chunk, cursor, cat, {})
  {
    deltas := deltas0;
    var left := Groups(rows, chunk, cursor);
    forall k ensures Shifted(deltas0, deltas0, rows, chunk, cursor, cat, left, k) {
      if HourOfKey(k) !in left { OtherHoursAreEmpty(rows, chunk, cursor, HourOfKey(k)); }
      NoneShifted(deltas0, rows, chunk, cursor, cat, left, k);
    }
    while left != {}
      invariant Signed(deltas) && AllShifted(deltas0, deltas, rows, chunk, cursor, cat, left)
      decreases |left|
    {
      var h :| h in left;
      var c := Tally(rows, chunk, cursor, h);
      AddBothSigned(deltas, h, cat, c);
      OneMoreAllShifted(deltas0, deltas, rows, chunk, cursor, cat, left, h);
      deltas := AddBoth(deltas, h, cat, c);
      left := left - {h};
    }
  }

  // ---------------------------------------------------------------- the whole

  /** The ids to move, by category, but for those of `left`. */
  ghost predicate Grouped(byCat: map<string, seq<int>>, labels: map<int, string>, left: set<(int, string)>) {
    && (forall c <- byCat ::
          c != OTHER && forall i :: 0 <= i < |byCat[c]| ==> Named(labels, byCat[c][i]) && labels[byCat[c][i]] == c)
    && (forall id <- labels :: Named(labels, id) && (id, labels[id]) !in left ==>
          labels[id] in byCat && id in byCat[labels[id]])
  }

  function File(byCat: map<string, seq<int>>, id: int, cat: string): map<string, seq<int>> {
    if cat == "" || cat == OTHER then byCat else byCat[cat := (if cat in byCat then byCat[cat] else []) + [id]]
  }

  lemma FileKeepsGrouped(byCat: map<string, seq<int>>, labels: map<int, string>, left: set<(int, string)>, id: int)
    requires id in labels && Grouped(byCat, labels, left)
    ensures Grouped(File(byCat, id, labels[id]), labels, left - {(id, labels[id])})
  {
  }

  method GroupByCategory(labels: map<int, string>) returns (byCat: map<string, seq<int>>)
    ensures Grouped(byCat, labels, {})
  {
    byCat := map[];
    var left := labels.Items;
    while left != {}
      invariant left <= labels.Items && Grouped(byCat, labels, left)
      decreases |left|
    {
      var item :| item in left;
      FileKeepsGrouped(byCat, labels, left, item.0);
      byCat := File(byCat, item.0, item.1);
      left := left - {item};
    }
  }

  function Upsert(rollup: Counts, k: Key, d: Count): Counts {
    if d.cnt == 0 then rollup else rollup[k := Plus(Get(rollup, k), d)]
  }

  lemma UpsertAdds(rollup: Counts, k: Key, d: Count, j: Key)
    requires d.cnt == 0 ==> d.blocked == 0
    ensures Get(Upsert(rollup, k, d), j) == if j == k then Plus(Get(rollup, k), d) else Get(rollup, j)
  {
    if d.cnt == 0 {
      assert d == ZERO;
    } else if j != k {
      assert Upsert(rollup, k, d) == rollup[k := Plus(Get(rollup, k), d)];
    }
  }

  /** The rollup once the deltas of all keys but `left` are in. */
  predicate Summed(rollup0: Counts, rollup: Counts, deltas: Counts, left: set<Key>, k: Key) {
    Get(rollup, k) == if k in left then Get(rollup0, k) else Plus(Get(rollup0, k), Get(deltas, k))
  }

  ghost predicate AllSummed(rollup0: Counts, rollup: Counts, deltas: Counts, left: set<Key>) {
    forall k :: Summed(rollup0, rollup, deltas, left, k)
  }

  lemma OneSummed(rollup0: Counts, rollup: Counts, deltas: Counts, left: set<Key>, k: Key, j: Key)
    requires k in left && k in deltas && (deltas[k].cnt == 0 ==> deltas[k].blocked == 0)
    requires Summed(rollup0, rollup, deltas, left, j)
    ensures Summed(rollup0, Upsert(rollup, k, deltas[k]), deltas, left - {k}, j)
  {
    UpsertAdds(rollup, k, deltas[k], j);
  }

  lemma OneMoreSummed(rollup0: Counts, rollup: Counts, deltas: Counts, left: set<Key>, k: Key)
    requires k in left && k in deltas && (deltas[k].cnt == 0 ==> deltas[k].blocked == 0)
    requires AllSummed(rollup0, rollup, deltas, left)
    ensures AllSummed(rollup0, Upsert(rollup, k, deltas[k]), deltas, left - {k})
  {
    forall j ensures Summed(rollup0, Upsert(rollup, k, deltas[k]), deltas, left - {k}, j) {
      OneSummed(rollup0, rollup, deltas, left, k, j);
    }
  }

  lemma NoneSummed(rollup: Counts, deltas: Counts)
    ensures AllSummed(rollup, rollup, deltas, deltas.Keys)
  {
    forall k ensures Summed(rollup, rollup, deltas, deltas.Keys, k) {
      if k !in deltas { assert Get(deltas, k) == ZERO; }
    }
  }

  lemma NoneIsZero(deltas: Counts, k: Key)
    requires Signed(deltas) && k in deltas && deltas[k].cnt == 0
    ensures deltas[k].blocked == 0
  {
  }

  /** Deltas of zero are skipped; the others are added to the rollup. */
  method ApplyDeltas(rollup0: Counts, deltas: Counts) returns (rollup: Counts)
    requires Signed(deltas)
    ensures AllSummed(rollup0, rollup, deltas, {})
  {
    rollup := rollup0;
    var left := deltas.Keys;
    NoneSummed(rollup0, deltas);
    while left != {}
      invariant forall k <- left :: k in deltas
      invariant AllSummed(rollup0, rollup, deltas, left)
      decreases |left|
    {
      var k: Key :| k in left;
      if deltas[k].cnt == 0 { NoneIsZero(deltas, k); }
      OneMoreSummed(rollup0, rollup, deltas, left, k);
      rollup := Upsert(rollup, k, deltas[k]);
      left := left - {k};
    }
  }

  /** DELETE FROM category_rollup WHERE category = 'other' AND cnt <= 0. */
  function Purged(rollup: Counts): Counts {
    map k <- rollup | !(k.cat == OTHER && rollup[k].cnt <= 0) :: rollup[k]
  }

  /** What the purge leaves of a count. */
  function Settled(c: Count, k: Key): Count { if k.cat == OTHER && c.cnt <= 0 then ZERO else c }

  // ---------------------------------------------------------------- chunks add up

  /** The deltas change by what the rows' fold changes by. */
  predicate Follows(deltas0: Counts, deltas: Counts, rows0: seq<Row>, rows: seq<Row>, cursor: int, k: Key) {
    Minus(Get(deltas, k), Get(deltas0, k)) == Minus(Fold(rows, cursor, k), Fold(rows0, cursor, k))
  }

  ghost predicate AllFollow(deltas0: Counts, deltas: Counts, rows0: seq<Row>, rows: seq<Row>, cursor: int) {
    forall k :: Follows(deltas0, deltas, rows0, rows, cursor, k)
  }

  lemma ChunkFollows(deltas0: Counts, deltas: Counts, rows: seq<Row>, chunk: seq<int>, cat: string, cursor: int)
    requires cat != OTHER && AllShifted(deltas0, deltas, rows, chunk, cursor, cat, {})
    ensures AllFollow(deltas0, deltas, rows, MoveRows(rows, chunk, cat), cursor)
  {
    forall k ensures Follows(deltas0, deltas, rows, MoveRows(rows, chunk, cat), cursor, k) {
      assert Shifted(deltas0, deltas, rows, chunk, cursor, cat, {}, k);
      MoveShiftsFold(rows, chunk, cat, cursor, k);
    }
  }

  lemma MinusChain(a: Count, b: Count, c: Count, x: Count, y: Count, z: Count)
    requires Minus(b, a) == Minus(y, x) && Minus(c, b) == Minus(z, y)
    ensures Minus(c, a) == Minus(z, x)
  {
  }

  lemma FollowAgain(d0: Counts, d1: Counts, d2: Counts,
                    r0: seq<Row>, r1: seq<Row>, r2: seq<Row>, cursor: int)
    requires AllFollow(d0, d1, r0, r1, cursor) && AllFollow(d1, d2, r1, r2, cursor)
    ensures AllFollow(d0, d2, r0, r2, cursor)
  {
    forall k ensures Follows(d0, d2, r0, r2, cursor, k) {
      assert Follows(d0, d1, r0, r1, cursor, k) && Follows(d1, d2, r1, r2, cursor, k);
      MinusChain(Get(d0, k), Get(d1, k), Get(d2, k), Fold(r0, cursor, k), Fold(r1, cursor, k), Fold(r2, cursor, k));
    }
  }

  lemma MoveTwice(rows: seq<Row>, a: seq<int>, b: seq<int>, cat: string)
    requires cat != OTHER
    ensures MoveRows(MoveRows(rows, a, cat), b, cat) == MoveRows(rows, a + b, cat)
  {
  }

  lemma {:induction false} CountTwice(rows: seq<Row>, a: seq<int>, b: seq<int>, cat: string)
    requires cat != OTHER
    ensures CountPicked(rows, a) + CountPicked(MoveRows(rows, a, cat), b) == CountPicked(rows, a + b)
  {
    if rows != [] {
      CountTwice(rows[1..], a, b, cat);
      MoveRowsTail(rows, a, cat);
    }
  }

  function Ids(chunk: seq<int>): set<int> { set i | i in chunk }

  function CountMoved(rows: seq<Row>, labels: map<int, string>, done: set<int>): nat {
    if rows == [] then 0
    else CountMoved(rows[1..], labels, done) + if Relabelled(rows[0], labels, done) == rows[0] then 0 else 1
  }

  predicate AllTo(ids: seq<int>, labels: map<int, string>, cat: string) {
    forall i :: 0 <= i < |ids| ==> Named(labels, ids[i]) && labels[ids[i]] == cat
  }

  lemma MoveOne(r: Row, labels: map<int, string>, done: set<int>, ids: seq<int>, cat: string)
    requires AllTo(ids, labels, cat)
    ensures MoveRow(Relabelled(r, labels, done), ids, cat) == Relabelled(r, labels, done + Ids(ids))
  {
    if r.id in ids { assert Named(labels, r.id) && labels[r.id] == cat; }
  }

  lemma {:induction false} MoveAll(rows: seq<Row>, labels: map<int, string>, done: set<int>, ids: seq<int>, cat: string)
    requires cat != OTHER && AllTo(ids, labels, cat)
    ensures MoveRows(RelabelledAll(rows, labels, done), ids, cat) == RelabelledAll(rows, labels, done + Ids(ids))
    ensures CountMoved(rows, labels, done) + CountPicked(RelabelledAll(rows, labels, done), ids)
            == CountMoved(rows, labels, done + Ids(ids))
  {
    forall i | 0 <= i < |rows|
      ensures MoveRow(Relabelled(rows[i], labels, done), ids, cat) == Relabelled(rows[i], labels, done + Ids(ids))
    {
      MoveOne(rows[i], labels, done, ids, cat);
    }
    if rows != [] {
      MoveAll(rows[1..], labels, done, ids, cat);
      assert RelabelledAll(rows, labels, done)[1..] == RelabelledAll(rows[1..], labels, done);
      MoveOne(rows[0], labels, done, ids, cat);
    }
  }

  lemma {:induction false} AllDone(rows: seq<Row>, labels: map<int, string>, done: set<int>)
    requires forall id <- labels :: Named(labels, id) ==> id in done
    ensures RelabelledAll(rows, labels, done) == RelabelledAll(rows, labels, labels.Keys)
    ensures CountMoved(rows, labels, done) == CountMoved(rows, labels, labels.Keys)
  {
    if rows != [] { AllDone(rows[1..], labels, done); }
  }

  lemma {:induction false} NoneDone(rows: seq<Row>, labels: map<int, string>)
    ensures RelabelledAll(rows, labels, {}) == rows && CountMoved(rows, labels, {}) == 0
  {
    if rows != [] { NoneDone(rows[1..], labels); }
  }

  // ---------------------------------------------------------------- RelabelContent

  /** The count of `k` after a relabelling that moved the rows from `rows0` to `rows`. */
  predicate Accounts(rows0: seq<Row>, rollup0: Counts, rows: seq<Row>, rollup: Counts, cursor: int, k: Key) {
    Get(rollup, k) == Settled(Plus(Get(rollup0, k), Minus(Fold(rows, cursor, k), Fold(rows0, cursor, k))), k)
  }

  ghost predicate AllAccount(rows0: seq<Row>, rollup0: Counts, rows: seq<Row>, rollup: Counts, cursor: int) {
    forall k :: Accounts(rows0, rollup0, rows, rollup, cursor, k)
  }

  lemma PurgedSettles(rollup: Counts, k: Key)
    ensures Get(Purged(rollup), k) == Settled(Get(rollup, k), k)
  {
  }

  lemma OneAccounts(rows0: seq<Row>, rollup0: Counts, rows: seq<Row>, summed: Counts,
                    deltas0: Counts, deltas: Counts, cursor: int, k: Key)
    requires Get(deltas0, k) == ZERO
    requires Follows(deltas0, deltas, rows0, rows, cursor, k) && Summed(rollup0, summed, deltas, {}, k)
    ensures Accounts(rows0, rollup0, rows, Purged(summed), cursor, k)
  {
    PurgedSettles(summed, k);
    assert Get(deltas, k) == Minus(Fold(rows, cursor, k), Fold(rows0, cursor, k));
  }

  lemma AppliedAccounts(rows0: seq<Row>, rollup0: Counts, rows: seq<Row>, summed: Counts,
                        deltas: Counts, cursor: int)
    requires AllFollow(map[], deltas, rows0, rows, cursor) && AllSummed(rollup0, summed, deltas, {})
    ensures AllAccount(rows0, rollup0, rows, Purged(summed), cursor)
  {
    forall k ensures Accounts(rows0, rollup0, rows, Purged(summed), cursor, k) {
      OneAccounts(rows0, rollup0, rows, summed, map[], deltas, cursor, k);
    }
  }

  const CHUNK: nat := 500

  class ContentLog {
    var rows: seq<Row>
    var rollup: Counts
    var cursor: int

    constructor (rows0: seq<Row>, rollup0: Counts, cursor0: int)
      ensures rows == rows0 && rollup == rollup0 && cursor == cursor0
    {
      rows, rollup, cursor := rows0, rollup0, cursor0;
    }

    /** One chunk's two statements, with the cursor as it was read. */
    method MoveChunk(chunk: seq<int>, cat: string, seen: int, deltas0: Counts)
      returns (deltas: Counts, n: nat)
      requires cat != OTHER && Signed(deltas0)
      modifies `rows
      ensures rows == MoveRows(old(rows), chunk, cat) && n == CountPicked(old(rows), chunk)
      ensures Signed(deltas) && AllFollow(deltas0, deltas, old(rows), rows, seen)
    {
      deltas := AddGroups(rows, chunk, cat, seen, deltas0);
      n := CountPicked(rows, chunk);
      ChunkFollows(deltas0, deltas, rows, chunk, cat, seen);
      rows := MoveRows(rows, chunk, cat);
    }

    /** The ids of one category, at most 500 at a time. `stop` says how many chunks run
        before one fails, if one does. */
    method MoveCategory(all: seq<int>, cat: string, seen: int, deltas0: Counts, stop: Option<nat>)
      returns (ok: bool, deltas: Counts, n: nat, left: Option<nat>)
      requires cat != OTHER && Signed(deltas0)
      modifies `rows
      ensures ok ==> rows == MoveRows(old(rows), all, cat) && n == CountPicked(old(rows), all)
      ensures ok ==> Signed(deltas) && AllFollow(deltas0, deltas, old(rows), rows, seen)
      ensures left.None? <==> stop.None?
      ensures stop.None? ==> ok
    {
      var ids := all;
      ghost var past: seq<int> := [];
      ok, deltas, n, left := true, deltas0, 0, stop;
      NothingMoves(rows, cat);
      while |ids| > 0
        invariant past + ids == all
        invariant rows == MoveRows(old(rows), past, cat) && n == CountPicked(old(rows), past)
        invariant Signed(deltas) && AllFollow(deltas0, deltas, old(rows), rows, seen)
        invariant ok && left.None? == stop.None?
      {
        var size := if |ids| < CHUNK then |ids| else CHUNK;
        var chunk := ids[..size];
        ids := ids[size..];
        if left == Some(0) { return false, deltas, 0, left; }
        ghost var before, deltasBefore := rows, deltas;
        var moved;
        deltas, moved := MoveChunk(chunk, cat, seen, deltas);
        FollowAgain(deltas0, deltasBefore, deltas, old(rows), before, rows, seen);
        MoveTwice(old(rows), past, chunk, cat);
        CountTwice(old(rows), past, chunk, cat);
        if left.Some? { left := Some(left.value - 1); }
        n, past := n + moved, past + chunk;
      }
      assert past == all;
    }

    /** `unread`: the cursor could not be read, which passes for a cursor of 0. `stop` says
        how many chunks run before one fails, if one does, `more` how many of the closing
        statements (the upserts, the delete and the commit). */
    method RelabelContent(labels: map<int, string>, unread: bool, stop: Option<nat>, more: nat)
      returns (ok: bool, moved: nat)
      modifies `rows, `rollup
      ensures !ok ==> rows == old(rows) && rollup == old(rollup) && (more != 2 ==> moved == 0)
      ensures ok ==> rows == RelabelledAll(old(rows), labels, labels.Keys)
                     && moved == CountMoved(old(rows), labels, labels.Keys)
      ensures ok && labels == map[] ==> rollup == old(rollup)
      ensures ok && labels != map[] ==> AllAccount(old(rows), old(rollup), rows, rollup, if unread then 0 else cursor)
      ensures labels == map[] ==> ok
      ensures stop.None? && more > 2 ==> ok
    {
      NoneDone(rows, labels);
      if |labels| == 0 {
        AllDone(rows, labels, {});
        return true, 0;
      }
      var seen := if unread then 0 else cursor;
      var byCat := GroupByCategory(labels);
      var saved := rows;
      var deltas: Counts, left, steps := map[], byCat.Items, stop;
      ghost var done: set<int> := {};
      moved := 0;
      while left != {}
        invariant left <= byCat.Items && Grouped(byCat, labels, {})
        invariant forall id <- labels :: Named(labels, id) ==> id in done || (labels[id], byCat[labels[id]]) in left
        invariant rows == RelabelledAll(saved, labels, done) && moved == CountMoved(saved, labels, done)
        invariant Signed(deltas) && AllFollow(map[], deltas, saved, rows, seen)
        invariant rollup == old(rollup) && saved == old(rows) && steps.None? == stop.None?
        decreases |left|
      {
        var group :| group in left;
        left := left - {group};
        ghost var before, deltasBefore := rows, deltas;
        var n;
        ok, deltas, n, steps := MoveCategory(group.1, group.0, seen, deltas, steps);
        if !ok { rows := saved; return false, 0; }
        FollowAgain(map[], deltasBefore, deltas, saved, before, rows, seen);
        MoveAll(saved, labels, done, group.1, group.0);
        moved, done := moved + n, done + Ids(group.1);
      }
      AllDone(saved, labels, done);
      if more == 0 { rows := saved; return false, 0; }
      var summed := ApplyDeltas(rollup, deltas);
      if more == 1 { rows := saved; return false, 0; }
      if more == 2 { rows := saved; return false, moved; }
      AppliedAccounts(saved, rollup, rows, summed, deltas, seen);
      rollup := Purged(summed);
      ok := true;
    }
  }

  lemma {:induction false} NothingMoves(rows: seq<Row>, cat: string)
    ensures MoveRows(rows, [], cat) == rows && CountPicked(rows, []) == 0
  {
    if rows != [] { NothingMoves(rows[1..], cat); }
  }

  // ---------------------------------------------------------------- what a relabelling keeps

  /** What the rollup counts beyond the rows that are still there. */
  function Residue(rows: seq<Row>, rollup: Counts, cursor: int, k: Key): Count {
    Minus(Get(rollup, k), Fold(rows, cursor, k))
  }

  /** With `a` the old count, `x` and `y` the folds before and after. */
  lemma SettledKeepsIff(a: Count, x: Count, y: Count, k: Key)
    ensures var sum := Plus(Minus(a, x), y);
            Plus(a, Minus(y, x)) == sum
            && (Minus(Settled(sum, k), y) == Minus(a, x) <==> k.cat != OTHER || sum.cnt > 0 || sum == ZERO)
  {
  }

  /** The "other" count a relabelling arrives at before the purge is positive or zero. */
  predicate SettlesWell(rows0: seq<Row>, rollup0: Counts, rows: seq<Row>, cursor: int, k: Key) {
    var sum := Plus(Residue(rows0, rollup0, cursor, k), Fold(rows, cursor, k));
    k.cat != OTHER || sum.cnt > 0 || sum == ZERO
  }

  predicate Kept(rows0: seq<Row>, rollup0: Counts, rows: seq<Row>, rollup: Counts, cursor: int, k: Key) {
    Residue(rows, rollup, cursor, k) == Residue(rows0, rollup0, cursor, k)
  }

  /** With the true cursor, the difference between the rollup and the rows is kept for
      every key, but for an "other" count that is not positive: that one is dropped, which
      keeps the difference exactly when it is zero. */
  lemma DifferenceKeptIff(rows0: seq<Row>, rollup0: Counts, rows: seq<Row>, rollup: Counts,
                          cursor: int, k: Key)
    requires Accounts(rows0, rollup0, rows, rollup, cursor, k)
    ensures Kept(rows0, rollup0, rows, rollup, cursor, k) <==> SettlesWell(rows0, rollup0, rows, cursor, k)
  {
    SettledKeepsIff(Get(rollup0, k), Fold(rows0, cursor, k), Fold(rows, cursor, k), k);
  }

  // a cursor that could not be read

  /** The row moves, and the rollup holds it although the cursor as read says otherwise. */
  predicate Missed(r: Row, labels: map<int, string>, seen: int, cursor: int) {
    Relabelled(r, labels, labels.Keys) != r && seen < r.id <= cursor
  }

  predicate NoneMissed(rows: seq<Row>, labels: map<int, string>, seen: int, cursor: int) {
    forall i :: 0 <= i < |rows| ==> !Missed(rows[i], labels, seen, cursor)
  }

  /** How many of them leave the "other" rows of an hour. */
  function MissedAt(rows: seq<Row>, labels: map<int, string>, seen: int, cursor: int, h: Hour): nat {
    if rows == [] then 0
    else MissedAt(rows[1..], labels, seen, cursor, h)
         + if Missed(rows[0], labels, seen, cursor) && HourOf(rows[0]) == h then 1 else 0
  }

  lemma {:induction false} MissedIsCounted(rows: seq<Row>, labels: map<int, string>, seen: int, cursor: int, i: nat)
    requires i < |rows| && Missed(rows[i], labels, seen, cursor)
    ensures MissedAt(rows, labels, seen, cursor, HourOf(rows[i])) > 0
  {
    if i > 0 { MissedIsCounted(rows[1..], labels, seen, cursor, i - 1); }
  }

  lemma RelabelledTail(rows: seq<Row>, labels: map<int, string>, done: set<int>)
    requires rows != []
    ensures RelabelledAll(rows, labels, done)
        == [Relabelled(rows[0], labels, done)] + RelabelledAll(rows[1..], labels, done)
  {
  }

  /** By how much the fold of a key changes when one row moves. */
  function Change(r: Row, labels: map<int, string>, cursor: int, k: Key): Count {
    Minus(Share(Relabelled(r, labels, labels.Keys), cursor, k), Share(r, cursor, k))
  }

  function ChangeOfAll(rows: seq<Row>, labels: map<int, string>, cursor: int, k: Key): Count {
    Minus(Fold(RelabelledAll(rows, labels, labels.Keys), cursor, k), Fold(rows, cursor, k))
  }

  lemma ChangeCons(rows: seq<Row>, labels: map<int, string>, cursor: int, k: Key)
    requires rows != []
    ensures ChangeOfAll(rows, labels, cursor, k)
            == Plus(ChangeOfAll(rows[1..], labels, cursor, k), Change(rows[0], labels, cursor, k))
  {
    RelabelledTail(rows, labels, labels.Keys);
    FoldCons(Relabelled(rows[0], labels, labels.Keys), RelabelledAll(rows[1..], labels, labels.Keys), cursor, k);
    MinusPlus(Fold(RelabelledAll(rows[1..], labels, labels.Keys), cursor, k),
              Share(Relabelled(rows[0], labels, labels.Keys), cursor, k),
              Fold(rows[1..], cursor, k), Share(rows[0], cursor, k));
  }

  lemma OneChangesAlike(r: Row, labels: map<int, string>, seen: int, cursor: int, k: Key)
    requires seen <= cursor && !Missed(r, labels, seen, cursor)
    ensures Change(r, labels, seen, k) == Change(r, labels, cursor, k)
  {
    var m := Relabelled(r, labels, labels.Keys);
    if m == r {
      assert Change(r, labels, seen, k) == ZERO;
      assert Change(r, labels, cursor, k) == ZERO;
    } else {
      assert r.id <= seen <==> r.id <= cursor;
    }
  }

  /** Without a missed row the cursor as read does as well as the true one. */
  lemma {:induction false} NoneMissedSame(rows: seq<Row>, labels: map<int, string>, seen: int, cursor: int, k: Key)
    requires seen <= cursor && NoneMissed(rows, labels, seen, cursor)
    ensures ChangeOfAll(rows, labels, seen, k) == ChangeOfAll(rows, labels, cursor, k)
  {
    if rows == [] {
      assert RelabelledAll(rows, labels, labels.Keys) == rows;
    } else {
      NoneMissedSame(rows[1..], labels, seen, cursor, k);
      OneChangesAlike(rows[0], labels, seen, cursor, k);
      ChangeCons(rows, labels, seen, k);
      ChangeCons(rows, labels, cursor, k);
    }
  }

  lemma OneFallsShort(r: Row, labels: map<int, string>, seen: int, cursor: int, h: Hour)
    requires seen <= cursor
    ensures var k := Key(h.hour, h.node, OTHER);
            Change(r, labels, cursor, k).cnt
            == Change(r, labels, seen, k).cnt - if Missed(r, labels, seen, cursor) && HourOf(r) == h then 1 else 0
  {
    var k := Key(h.hour, h.node, OTHER);
    if !Missed(r, labels, seen, cursor) {
      OneChangesAlike(r, labels, seen, cursor, k);
    } else {
      var m := Relabelled(r, labels, labels.Keys);
      assert m.cat != OTHER && r.cat == OTHER && HourOf(m) == HourOf(r);
      ShareOf(r, cursor, h, OTHER);
      ShareOf(r, seen, h, OTHER);
      ShareOf(m, cursor, h, OTHER);
      ShareOf(m, seen, h, OTHER);
    }
  }

  /** Each missed row leaves the "other" rows of its hour, but not their count. */
  lemma {:induction false} MissedFallShort(rows: seq<Row>, labels: map<int, string>, seen: int, cursor: int, h: Hour)
    requires seen <= cursor
    ensures var k := Key(h.hour, h.node, OTHER);
            ChangeOfAll(rows, labels, cursor, k).cnt
            == ChangeOfAll(rows, labels, seen, k).cnt - MissedAt(rows, labels, seen, cursor, h)
  {
    var k := Key(h.hour, h.node, OTHER);
    if rows == [] {
      assert RelabelledAll(rows, labels, labels.Keys) == rows;
    } else {
      MissedFallShort(rows[1..], labels, seen, cursor, h);
      OneFallsShort(rows[0], labels, seen, cursor, h);
      ChangeCons(rows, labels, seen, k);
      ChangeCons(rows, labels, cursor, k);
    }
  }

  lemma NoneMissedAccounts(rows: seq<Row>, rollup0: Counts, labels: map<int, string>, rollup: Counts,
                           seen: int, cursor: int)
    requires seen <= cursor && NoneMissed(rows, labels, seen, cursor)
    requires AllAccount(rows, rollup0, RelabelledAll(rows, labels, labels.Keys), rollup, seen)
    ensures AllAccount(rows, rollup0, RelabelledAll(rows, labels, labels.Keys), rollup, cursor)
  {
    var after := RelabelledAll(rows, labels, labels.Keys);
    forall k ensures Accounts(rows, rollup0, after, rollup, cursor, k) {
      assert Accounts(rows, rollup0, after, rollup, seen, k);
      NoneMissedSame(rows, labels, seen, cursor, k);
    }
  }

  /** The "other" count of a missed row's hour cannot be right, purged or not. */
  lemma MissedIsNotKept(rows: seq<Row>, rollup0: Counts, labels: map<int, string>, rollup: Counts,
                        seen: int, cursor: int, i: nat)
    requires seen <= cursor && i < |rows| && Missed(rows[i], labels, seen, cursor)
    requires AllAccount(rows, rollup0, RelabelledAll(rows, labels, labels.Keys), rollup, seen)
    ensures var k := Key(HourOf(rows[i]).hour, HourOf(rows[i]).node, OTHER);
            !Kept(rows, rollup0, RelabelledAll(rows, labels, labels.Keys), rollup, cursor, k)
  {
    var h := HourOf(rows[i]);
    var k := Key(h.hour, h.node, OTHER);
    MissedIsCounted(rows, labels, seen, cursor, i);
    MissedFallShort(rows, labels, seen, cursor, h);
    assert Accounts(rows, rollup0, RelabelledAll(rows, labels, labels.Keys), rollup, seen, k);
  }

  /** For every key at once: the difference is kept exactly when no moved row was missed
      (the cursor could be read, or no moved row was folded in yet), and each "other" count
      settles well. */
  lemma AllDifferencesKeptIff(rows: seq<Row>, rollup0: Counts, labels: map<int, string>,
                              rollup: Counts, seen: int, cursor: int)
    requires seen <= cursor
    requires AllAccount(rows, rollup0, RelabelledAll(rows, labels, labels.Keys), rollup, seen)
    ensures var after := RelabelledAll(rows, labels, labels.Keys);
            (forall k :: Kept(rows, rollup0, after, rollup, cursor, k))
            <==> NoneMissed(rows, labels, seen, cursor) && forall k :: SettlesWell(rows, rollup0, after, cursor, k)
  {
    var after := RelabelledAll(rows, labels, labels.Keys);
    if NoneMissed(rows, labels, seen, cursor) {
      NoneMissedAccounts(rows, rollup0, labels, rollup, seen, cursor);
      forall k ensures Kept(rows, rollup0, after, rollup, cursor, k) <==> SettlesWell(rows, rollup0, after, cursor, k) {
        assert Accounts(rows, rollup0, after, rollup, cursor, k);
        DifferenceKeptIff(rows, rollup0, after, rollup, cursor, k);
      }
    } else {
      var i :| 0 <= i < |rows| && Missed(rows[i], labels, seen, cursor);
      MissedIsNotKept(rows, rollup0, labels, rollup, seen, cursor, i);
    }
  }

  lemma FoldOfOne(r: Row, cursor: int, k: Key)
    ensures Fold([r], cursor, k) == Share(r, cursor, k)
  {
    assert [r][1..] == [];
    PlusZero(Share(r, cursor, k));
  }

  lemma OneRowMoves(r: Row, cat: string, labels: map<int, string>)
    requires r.cat == OTHER && cat != OTHER && cat != "" && r.id in labels && labels[r.id] == cat
    ensures RelabelledAll([r], labels, labels.Keys) == [r.(cat := cat)] && CountMoved([r], labels, labels.Keys) == 1
  {
    assert [r][1..] == [];
  }

  lemma NotYetFolded(r: Row, cursor: int, k: Key)
    requires cursor < r.id
    ensures Fold([r], cursor, k) == ZERO
  {
    FoldOfOne(r, cursor, k);
  }

  lemma NothingSettles(c: Count, k: Key)
    requires k.cat == OTHER ==> c.cnt > 0
    ensures Settled(Plus(c, Minus(ZERO, ZERO)), k) == c
  {
  }

  /** Under a cursor of 0 the count stays. */
  lemma CountStays(r: Row, m: Row, rollup0: Counts, rollup: Counts, k: Key)
    requires AllAccount([r], rollup0, [m], rollup, 0) && 0 < r.id && 0 < m.id
    requires k.cat != OTHER || Get(rollup0, k).cnt > 0
    ensures Get(rollup, k) == Get(rollup0, k)
  {
    assert Accounts([r], rollup0, [m], rollup, 0, k);
    NotYetFolded(r, 0, k);
    NotYetFolded(m, 0, k);
    NothingSettles(Get(rollup0, k), k);
  }

  lemma FoldOfOwn(r: Row, cursor: int)
    requires r.id <= cursor
    ensures Fold([r], cursor, KeyOf(r)) == One(r)
  {
    FoldOfOne(r, cursor, KeyOf(r));
  }

  lemma FoldElsewhere(r: Row, cursor: int, k: Key)
    requires KeyOf(r) != k
    ensures Fold([r], cursor, k) == ZERO
  {
    FoldOfOne(r, cursor, k);
  }

  /** The counts after such a relabelling of one row. */
  lemma UnreadCounts(r: Row, cat: string, rollup0: Counts, rollup: Counts)
    requires r.cat == OTHER && r.id > 0 && cat != OTHER
    requires Get(rollup0, KeyOf(r)) == One(r) && Get(rollup0, KeyOf(r.(cat := cat))) == ZERO
    requires AllAccount([r], rollup0, [r.(cat := cat)], rollup, 0)
    ensures Get(rollup, KeyOf(r)) == One(r) && Get(rollup, KeyOf(r.(cat := cat))) == ZERO
    ensures Fold([r.(cat := cat)], r.id, KeyOf(r)) == ZERO
    ensures Fold([r.(cat := cat)], r.id, KeyOf(r.(cat := cat))) == One(r)
  {
    var m := r.(cat := cat);
    var k, j := KeyOf(r), KeyOf(m);
    assert One(r).cnt > 0;
    CountStays(r, m, rollup0, rollup, k);
    CountStays(r, m, rollup0, rollup, j);
    FoldOfOwn(m, r.id);
    FoldElsewhere(m, r.id, k);
  }

  lemma OneCount(r: Row, cat: string)
    requires r.cat != cat
    ensures var rollup := map[KeyOf(r) := One(r)];
            Get(rollup, KeyOf(r)) == One(r) && Get(rollup, KeyOf(r.(cat := cat))) == ZERO
  {
    assert KeyOf(r.(cat := cat)).cat != KeyOf(r).cat;
  }

  /** Such relabellings: any one row already folded in, a cursor that cannot be read, and
      the commit goes through. The row is in its new category, the rollup still counts it
      as "other". */
  method UnreadCursorMovesRowsOnly(r: Row, cat: string) returns (log: ContentLog, ok: bool, moved: nat)
    requires r.cat == OTHER && r.id > 0 && cat != OTHER && cat != ""
    ensures ok && moved == 1 && log.cursor == r.id && log.rows == [r.(cat := cat)]
    ensures Get(log.rollup, KeyOf(r)) == One(r) && Get(log.rollup, KeyOf(r.(cat := cat))) == ZERO
  {
    var rollup: Counts := map[KeyOf(r) := One(r)];
    var labels: map<int, string> := map[r.id := cat];
    assert r.id in labels;
    OneCount(r, cat);
    OneRowMoves(r, cat, labels);
    log := new ContentLog([r], rollup, r.id);
    ok, moved := log.RelabelContent(labels, true, None, 3);
    UnreadCounts(r, cat, rollup, log.rollup);
  }

  /** The rollup counts every row it folded in, and maybe rows deleted since. */
  predicate Sound(rows: seq<Row>, rollup: Counts, cursor: int, k: Key) {
    var r := Residue(rows, rollup, cursor, k);
    0 <= r.blocked <= r.cnt
  }

  lemma {:induction false} FoldBounds(rows: seq<Row>, cursor: int, k: Key)
    ensures 0 <= Fold(rows, cursor, k).blocked <= Fold(rows, cursor, k).cnt
  {
    if rows != [] { FoldBounds(rows[1..], cursor, k); }
  }

  /** On a sound rollup the difference is kept for every key: the closing delete only
      removes zero counts. */
  lemma SoundIsKept(rows0: seq<Row>, rollup0: Counts, rows: seq<Row>, rollup: Counts, cursor: int, k: Key)
    requires Accounts(rows0, rollup0, rows, rollup, cursor, k) && Sound(rows0, rollup0, cursor, k)
    ensures Residue(rows, rollup, cursor, k) == Residue(rows0, rollup0, cursor, k) && Sound(rows, rollup, cursor, k)
  {
    FoldBounds(rows, cursor, k);
    DifferenceKeptIff(rows0, rollup0, rows, rollup, cursor, k);
  }

  // totals per hour and node

  predicate Distinct(cats: seq<string>) { forall i, j :: 0 <= i < j < |cats| ==> cats[i] != cats[j] }

  function Total(rollup: Counts, h: Hour, cats: seq<string>): Count {
    if cats == [] then ZERO else Plus(Total(rollup, h, cats[1..]), Get(rollup, Key(h.hour, h.node, cats[0])))
  }

  function TotalFold(rows: seq<Row>, cursor: int, h: Hour, cats: seq<string>): Count {
    if cats == [] then ZERO
        else Plus(TotalFold(rows, cursor, h, cats[1..]), Fold(rows, cursor, Key(h.hour, h.node, cats[0])))
  }

  function RowTotal(r: Row, cursor: int, h: Hour, cats: seq<string>): Count {
    if r.id <= cursor && HourOf(r) == h && r.cat in cats then One(r) else ZERO
  }

  lemma DistinctTail(cats: seq<string>)
    requires cats != [] && Distinct(cats)
    ensures Distinct(cats[1..]) && cats[0] !in cats[1..]
  {
  }

  lemma InCons(cats: seq<string>, c: string)
    requires cats != []
    ensures c in cats <==> c == cats[0] || c in cats[1..]
  {
    assert cats == [cats[0]] + cats[1..];
  }

  lemma ShareOf(r: Row, cursor: int, h: Hour, cat: string)
    ensures Share(r, cursor, Key(h.hour, h.node, cat)) == if r.id <= cursor && HourOf(r) == h && r.cat == cat
        then One(r) else ZERO
  {
  }

  lemma RowTotalCons(r: Row, cursor: int, h: Hour, cats: seq<string>)
    requires cats != [] && cats[0] !in cats[1..]
    ensures Plus(RowTotal(r, cursor, h, cats[1..]), Share(r, cursor, Key(h.hour, h.node, cats[0])))
        == RowTotal(r, cursor, h, cats)
  {
    InCons(cats, r.cat);
    ShareOf(r, cursor, h, cats[0]);
    var rest, share, all := RowTotal(r, cursor, h, cats[1..]), Share(r, cursor, Key(h.hour, h.node, cats[0])),
        RowTotal(r, cursor, h, cats);
    assert (rest == ZERO && share == all) || (share == ZERO && rest == all);
    PlusZero(all);
  }

  lemma PlusZero(c: Count)
    ensures Plus(c, ZERO) == c && Plus(ZERO, c) == c
  {
  }

  lemma TotalFoldUnrolled(rows: seq<Row>, cursor: int, h: Hour, cats: seq<string>)
    requires cats != []
    ensures TotalFold(rows, cursor, h, cats)
            == Plus(TotalFold(rows, cursor, h, cats[1..]), Fold(rows, cursor, Key(h.hour, h.node, cats[0])))
  {
  }

  lemma {:induction false} TotalFoldCons(r: Row, rows: seq<Row>, cursor: int, h: Hour, cats: seq<string>)
    requires Distinct(cats)
    ensures TotalFold([r] + rows, cursor, h, cats)
        == Plus(TotalFold(rows, cursor, h, cats), RowTotal(r, cursor, h, cats))
  {
    if cats == [] {
      assert TotalFold([r] + rows, cursor, h, cats) == TotalFold(rows, cursor, h, cats)
          == RowTotal(r, cursor, h, cats) == ZERO;
      PlusZero(ZERO);
    } else {
      var all, k, rest := [r] + rows, Key(h.hour, h.node, cats[0]), cats[1..];
      DistinctTail(cats);
      TotalFoldCons(r, rows, cursor, h, rest);
      var t, f, rt, s := TotalFold(rows, cursor, h, rest), Fold(rows, cursor, k), RowTotal(r, cursor, h, rest),
          Share(r, cursor, k);
      calc {
        TotalFold(all, cursor, h, cats);
        { TotalFoldUnrolled(all, cursor, h, cats); }
        Plus(TotalFold(all, cursor, h, rest), Fold(all, cursor, k));
        { FoldCons(r, rows, cursor, k); }
        Plus(Plus(t, rt), Plus(f, s));
        { PlusPlus(t, rt, f, s); }
        Plus(Plus(t, f), Plus(rt, s));
        { RowTotalCons(r, cursor, h, cats); }
        Plus(Plus(t, f), RowTotal(r, cursor, h, cats));
        { TotalFoldUnrolled(rows, cursor, h, cats); }
        Plus(TotalFold(rows, cursor, h, cats), RowTotal(r, cursor, h, cats));
      }
    }
  }

  /** The categories that take part. */
  predicate Covers(cats: seq<string>, labels: map<int, string>) {
    Distinct(cats) && OTHER in cats && forall id <- labels :: Named(labels, id) ==> labels[id] in cats
  }

  lemma {:induction false} TotalFoldKept(rows: seq<Row>, labels: map<int, string>, done: set<int>, cursor: int,
                                         h: Hour, cats: seq<string>)
    requires Covers(cats, labels)
    ensures TotalFold(RelabelledAll(rows, labels, done), cursor, h, cats) == TotalFold(rows, cursor, h, cats)
  {
    if rows == [] {
      assert RelabelledAll(rows, labels, done) == rows;
    } else {
      var r := rows[0];
      TotalFoldKept(rows[1..], labels, done, cursor, h, cats);
      assert rows == [r] + rows[1..];
      assert RelabelledAll(rows, labels, done)
          == [Relabelled(r, labels, done)] + RelabelledAll(rows[1..], labels, done);
      TotalFoldCons(r, rows[1..], cursor, h, cats);
      TotalFoldCons(Relabelled(r, labels, done), RelabelledAll(rows[1..], labels, done), cursor, h, cats);
      assert HourOf(Relabelled(r, labels, done)) == HourOf(r);
    }
  }

  lemma {:induction false} TotalsFollow(rows0: seq<Row>, rollup0: Counts, rows: seq<Row>, rollup: Counts, cursor: int,
                                        h: Hour, cats: seq<string>)
    requires AllAccount(rows0, rollup0, rows, rollup, cursor)
    requires forall k :: Sound(rows0, rollup0, cursor, k)
    ensures Minus(Total(rollup, h, cats), TotalFold(rows, cursor, h, cats))
            == Minus(Total(rollup0, h, cats), TotalFold(rows0, cursor, h, cats))
  {
    if cats != [] {
      TotalsFollow(rows0, rollup0, rows, rollup, cursor, h, cats[1..]);
      var k := Key(h.hour, h.node, cats[0]);
      assert Accounts(rows0, rollup0, rows, rollup, cursor, k) && Sound(rows0, rollup0, cursor, k);
      SoundIsKept(rows0, rollup0, rows, rollup, cursor, k);
      MinusPlus(Total(rollup, h, cats[1..]), Get(rollup, k), TotalFold(rows, cursor, h, cats[1..]),
          Fold(rows, cursor, k));
      MinusPlus(Total(rollup0, h, cats[1..]), Get(rollup0, k), TotalFold(rows0, cursor, h, cats[1..]),
          Fold(rows0, cursor, k));
    }
  }

  lemma MinusPlus(a: Count, b: Count, x: Count, y: Count)
    ensures Minus(Plus(a, b), Plus(x, y)) == Plus(Minus(a, x), Minus(b, y))
  {
  }

  /** What a relabelling moves between categories, it moves within one hour and node: their
      total over the categories is unchanged. */
  lemma TotalsAreKept(rows0: seq<Row>, rollup0: Counts, rollup: Counts, labels: map<int, string>, cursor: int,
                      h: Hour, cats: seq<string>)
    requires AllAccount(rows0, rollup0, RelabelledAll(rows0, labels, labels.Keys), rollup, cursor)
    requires forall k :: Sound(rows0, rollup0, cursor, k)
    requires Covers(cats, labels)
    ensures Total(rollup, h, cats) == Total(rollup0, h, cats)
  {
    TotalsFollow(rows0, rollup0, RelabelledAll(rows0, labels, labels.Keys), rollup, cursor, h, cats);
    TotalFoldKept(rows0, labels, labels.Keys, cursor, h, cats);
  }
}
