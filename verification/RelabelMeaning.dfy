/** What the hourly rollup counts (lines 259-272 of internal/store/categories.go), as numbers
    of rows. */
module RelabelMeaning {
  import opened Relabelling

  /** The hour holds the timestamp: whole hours since 1970, or before it the other way. */
  predicate InHour(ts: int, hour: int) {
    if ts >= 0 then hour * 3600000 <= ts < (hour + 1) * 3600000 else (hour - 1) * 3600000 < ts <= hour * 3600000
  }

  /** The rows that count for `k`. */
  ghost function CountedIn(rows: seq<Row>, cursor: int, k: Key): set<nat> {
    set i: nat | i < |rows| && CountsFor(rows[i], cursor, k)
  }

  ghost function BlockedAmong(rows: seq<Row>, some: set<nat>): set<nat> {
    set i | i in some && i < |rows| && rows[i].action == "blocked"
  }

  lemma HourIs(r: Row, hour: int)
    ensures HourOf(r).hour == hour <==> InHour(r.ts, hour)
  {
  }

  predicate CountsFor(r: Row, cursor: int, k: Key) {
    r.id <= cursor && r.node == k.node && r.cat == k.cat && InHour(r.ts, k.hour)
  }

  lemma ShareIs(r: Row, cursor: int, k: Key)
    ensures Share(r, cursor, k) ==
            if CountsFor(r, cursor, k) then Count(1, if r.action == "blocked" then 1 else 0) else Count(0, 0)
  {
    HourIs(r, k.hour);
  }

  lemma {:induction false} FoldLast(rows: seq<Row>, r: Row, cursor: int, k: Key)
    ensures Fold(rows + [r], cursor, k) == Plus(Fold(rows, cursor, k), Share(r, cursor, k))
  {
    if rows == [] {
      assert rows + [r] == [r] + [];
      FoldCons(r, [], cursor, k);
    } else {
      var rest := rows[1..];
      FoldLast(rest, r, cursor, k);
      assert rows + [r] == [rows[0]] + (rest + [r]) && rows == [rows[0]] + rest;
      FoldCons(rows[0], rest + [r], cursor, k);
      FoldCons(rows[0], rest, cursor, k);
      Swap(Fold(rest, cursor, k), Share(r, cursor, k), Share(rows[0], cursor, k));
    }
  }

  lemma Swap(a: Count, b: Count, c: Count)
    ensures Plus(Plus(a, b), c) == Plus(Plus(a, c), b)
  {
  }

  lemma CountedLast(rows: seq<Row>, r: Row, cursor: int, k: Key)
    ensures var n := |rows|;
            var counts := CountsFor(r, cursor, k);
            var some, all := CountedIn(rows, cursor, k), CountedIn(rows + [r], cursor, k);
            && all == some + (if counts then {n} else {}) && n !in some
            && n !in BlockedAmong(rows, some)
            && BlockedAmong(rows + [r], all)
               == BlockedAmong(rows, some) + (if counts && r.action == "blocked" then {n} else {})
  {
  }

  lemma OneMoreMember(some: set<nat>, n: nat, more: bool)
    requires n !in some
    ensures |some + (if more then {n} else {})| == |some| + if more then 1 else 0
  {
  }

  ghost function Numbers(rows: seq<Row>, cursor: int, k: Key): Count {
    Count(|CountedIn(rows, cursor, k)|, |BlockedAmong(rows, CountedIn(rows, cursor, k))|)
  }

  lemma NumbersLast(rows: seq<Row>, r: Row, cursor: int, k: Key)
    ensures Numbers(rows + [r], cursor, k) == Plus(Numbers(rows, cursor, k), Share(r, cursor, k))
  {
    var some := CountedIn(rows, cursor, k);
    var counts := CountsFor(r, cursor, k);
    CountedLast(rows, r, cursor, k);
    OneMoreMember(some, |rows|, counts);
    OneMoreMember(BlockedAmong(rows, some), |rows|, counts && r.action == "blocked");
    ShareIs(r, cursor, k);
  }

  /** The rollup's count of the rows up to the cursor is their number, and the number of the
      blocked ones among them. */
  lemma {:induction false} FoldCounts(rows: seq<Row>, cursor: int, k: Key)
    ensures Fold(rows, cursor, k)
            == Count(|CountedIn(rows, cursor, k)|, |BlockedAmong(rows, CountedIn(rows, cursor, k))|)
  {
    if rows == [] {
      assert CountedIn(rows, cursor, k) == {} && BlockedAmong(rows, {}) == {};
    } else {
      var rest, r := rows[..|rows| - 1], rows[|rows| - 1];
      assert rows == rest + [r];
      FoldCounts(rest, cursor, k);
      FoldLast(rest, r, cursor, k);
      NumbersLast(rest, r, cursor, k);
    }
  }
}
