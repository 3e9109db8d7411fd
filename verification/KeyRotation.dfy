/** Node-key rotation on the snapshot poll: the control plane's row and state machine
    (`NodeByAnyKeyHash`, `RotateNodeKey`, `ConfirmKeyRotation` in
    internal/store/cluster.go, `maybeRotateNodeKey` in internal/api/api.go) and the
    agent's adoption of a rotated key (internal/cluster/agent.go).

    Keys stand for their hashes and are numbered as they are generated, so a new key is
    one never issued before. Times are unix seconds. */
module KeyRotation {
  import opened Wrappers

  type Key = nat

  datatype Row = Row(cur: Key, prev: Option<Key>, prevExpires: int, issuedAt: int)

  datatype Policy = Policy(maxAge: int, grace: int)

  /** Which of the writes (and the key generation) of one poll fail. */
  datatype Faults = Faults(confirm: bool, token: bool, rotate: bool)

  datatype Via = Current | Grace

  function Authenticate(r: Row, k: Key, now: int): Option<Via> {
    if k == r.cur then Some(Current)
    else if r.prev == Some(k) && r.prevExpires > now then Some(Grace)
    else None
  }

  /** The row after an authenticated poll, and the key handed back. */
  function MaybeRotate(r: Row, via: Via, now: int, p: Policy, f: Faults, newKey: Key): (Row, Option<Key>) {
    match via
    case Current =>
      var kept := if r.prev.Some? && !f.confirm then r.(prev := None, prevExpires := 0) else r;
      if p.maxAge <= 0 || now - r.issuedAt < p.maxAge || f.token || f.rotate then (kept, None)
      else (Row(newKey, Some(r.cur), now + p.grace, now), Some(newKey))
    case Grace =>
      if f.token || f.rotate then (r, None)
      else (Row(newKey, r.prev, r.prevExpires, now), Some(newKey))
  }

  /** The node row and the statements on it. */
  class NodeRow {
    var cur: Key
    var prev: Option<Key>
    var prevExpires: int
    var issuedAt: int

    ghost function State(): Row
      reads this
    {
      Row(cur, prev, prevExpires, issuedAt)
    }

    constructor (key: Key, now: int)
      ensures State() == Row(key, None, 0, now)
    {
      cur, prev, prevExpires, issuedAt := key, None, 0, now;
    }

    method ByAnyKey(k: Key, now: int) returns (via: Option<Via>)
      ensures via == Authenticate(State(), k, now)
    {
      if k == cur { return Some(Current); }
      if prev == Some(k) && prevExpires > now { return Some(Grace); }
      return None;
    }

    method ConfirmKeyRotation(fails: bool)
      modifies this
      ensures State() == if fails then old(State()) else old(State()).(prev := None, prevExpires := 0)
    {
      if fails { return; }
      prev, prevExpires := None, 0;
    }

    method RotateNodeKey(key: Key, prevKey: Option<Key>, expires: int, now: int, fails: bool) returns (ok: bool)
      modifies this
      ensures ok == !fails
      ensures State() == if fails then old(State()) else Row(key, prevKey, expires, now)
    {
      if fails { return false; }
      cur, prev, prevExpires, issuedAt := key, prevKey, expires, now;
      return true;
    }

    method MaybeRotateNodeKey(via: Via, now: int, p: Policy, f: Faults, newKey: Key) returns (reply: Option<Key>)
      modifies this
      ensures (State(), reply) == MaybeRotate(old(State()), via, now, p, f, newKey)
    {
      if via == Current {
        var key := cur;
        if prev.Some? { ConfirmKeyRotation(f.confirm); }
        if p.maxAge <= 0 || now - issuedAt < p.maxAge { return None; }
        if f.token { return None; }
        var ok := RotateNodeKey(newKey, Some(key), now + p.grace, now, f.rotate);
        return if ok then Some(newKey) else None;
      }
      if f.token { return None; }
      var ok := RotateNodeKey(newKey, prev, prevExpires, now, f.rotate);
      return if ok then Some(newKey) else None;
    }
  }

  // ---------------------------------------------------------------- runs of polls

  /** `mem` is the key the agent uses, `disk` the one it persisted; `used` every key it
      polled with; `since` when the present overlap of two keys began. */
  datatype World = World(row: Row, mem: Key, disk: Key, now: int, nextKey: Key, used: set<Key>, since: int)

  datatype Step =
    | Poll(f: Faults, replyLost: bool)   // the agent polls; the control plane acts; the reply may be lost
    | Save                               // the adopted key reaches the disk
    | Crash                              // the process restarts from the disk
    | Tick(to: int)

  function Enroll(k: Key, now: int): World { World(Row(k, None, 0, now), k, k, now, k + 1, {}, now) }

  /** The agent persists an adopted key before its next poll, unless it crashes first. */
  predicate Enabled(w: World, s: Step) {
    match s
    case Poll(_, _) => w.mem == w.disk
    case Save => true
    case Crash => true
    case Tick(to) => w.now <= to
  }

  function Adopt(w: World, reply: Option<Key>): World {
    if reply.Some? && reply.value != w.mem then w.(mem := reply.value) else w
  }

  function Serve(w: World, k: Key, p: Policy, f: Faults): (World, Option<Key>) {
    var via := Authenticate(w.row, k, w.now);
    if via.None? then (w, None)
    else
      var r := MaybeRotate(w.row, via.value, w.now, p, f, w.nextKey);
      (w.(row := r.0,
          nextKey := w.nextKey + 1,
          since := if via.value == Current && r.1.Some? then w.now else w.since),
       r.1)
  }

  function Next(w: World, s: Step, p: Policy): World {
    match s
    case Poll(f, replyLost) =>
      var r := Serve(w.(used := w.used + {w.mem}), w.mem, p, f);
      if replyLost then r.0 else Adopt(r.0, r.1)
    case Save => w.(disk := w.mem)
    case Crash => w.(mem := w.disk)
    case Tick(to) => w.(now := to)
  }

  predicate Possible(w: World, run: seq<Step>, p: Policy)
    decreases |run|
  {
    run == [] || (Enabled(w, run[0]) && Possible(Next(w, run[0], p), run[1..], p))
  }

  function After(w: World, run: seq<Step>, p: Policy): World
    decreases |run|
  {
    if run == [] then w else After(Next(w, run[0], p), run[1..], p)
  }

  predicate Lists(r: Row, k: Key) { r.cur == k || r.prev == Some(k) }

  /** Every key the agent may use next is in the row. */
  predicate Held(w: World) { Lists(w.row, w.mem) && Lists(w.row, w.disk) }

  predicate Inv(w: World, p: Policy) {
    && Held(w)
    && (w.mem != w.disk ==> w.mem == w.row.cur && w.row.prev == Some(w.disk))
    && (w.row.prev.Some? ==> w.row.prev.value != w.row.cur && w.row.prev.value < w.nextKey
                             && w.row.prevExpires == w.since + p.grace)
    && w.row.cur < w.nextKey
    && (forall k <- w.used :: k < w.nextKey)
    && (w.row.cur in w.used ==> w.mem == w.disk == w.row.cur)
  }

  lemma StepKeepsInv(w: World, s: Step, p: Policy)
    requires Inv(w, p) && Enabled(w, s)
    ensures Inv(Next(w, s, p), p)
  {
  }

  lemma {:induction false} RunKeepsInv(w: World, run: seq<Step>, p: Policy)
    requires Inv(w, p) && Possible(w, run, p)
    ensures Inv(After(w, run, p), p)
    decreases |run|
  {
    if run != [] {
      StepKeepsInv(w, run[0], p);
      RunKeepsInv(Next(w, run[0], p), run[1..], p);
    }
  }

  /** Rotation by polling never locks a node out before the grace deadline: whatever
      replies and writes are lost and wherever the agent crashes, its stored key
      authenticates, or is the previous key with `grace` seconds gone since it was
      replaced. */
  lemma NeverLockedOut(k: Key, begin: int, run: seq<Step>, p: Policy)
    requires Possible(Enroll(k, begin), run, p)
    ensures var w := After(Enroll(k, begin), run, p);
            Authenticate(w.row, w.disk, w.now).Some? || (w.row.prev == Some(w.disk) && w.since + p.grace <= w.now)
  {
    RunKeepsInv(Enroll(k, begin), run, p);
  }

  // ---------------------------------------------------------------- what a poll does

  /** A poll with the current key retires the previous one, unless that write fails, and is
      handed a new key exactly if keys rotate, its own is old enough and nothing fails; its
      own then stays good for the grace time. A poll with the previous key is handed a new
      one unless something fails, and the end of the grace time stays. */
  lemma PollIssuesIff(w: World, p: Policy, f: Faults)
    requires Inv(w, p) && Accepted(w, w.mem)
    ensures var v := Next(w, Poll(f, false), p);
            var current := w.mem == w.row.cur;
            var issued := !f.token && !f.rotate && (current ==> p.maxAge > 0 && w.row.issuedAt + p.maxAge <= w.now);
            if issued then
              && v.row.cur == v.mem == w.nextKey && v.row.issuedAt == w.now
              && v.row.prev == Some(w.mem)
              && v.row.prevExpires == if current then w.now + p.grace else w.row.prevExpires
            else
              && v.mem == w.mem && v.row.cur == w.row.cur && v.row.issuedAt == w.row.issuedAt
              && (if current && !f.confirm then v.row.prev == None else v.row.prev == w.row.prev)
              && (v.row.prev.Some? ==> v.row.prevExpires == w.row.prevExpires)
  {
  }

  const NO_FAULT: Faults := Faults(false, false, false)

  /** Without failures an old key is replaced, and gone with the first poll under the new one:
      only the new key is left. */
  lemma RotationCompletes(w: World, p: Policy)
    requires Inv(w, p) && w.mem == w.disk == w.row.cur && p.maxAge > 0 && w.row.issuedAt + p.maxAge <= w.now
    ensures var run := [Poll(NO_FAULT, false), Save, Poll(NO_FAULT, false)];
            && Possible(w, run, p)
            && var v := After(w, run, p);
               v.mem == v.disk == v.row.cur == w.nextKey && v.row.prev == None && !Accepted(v, w.mem)
  {
    var a := Next(w, Poll(NO_FAULT, false), p);
    PollIssuesIff(w, p, NO_FAULT);
    StepKeepsInv(w, Poll(NO_FAULT, false), p);
    var b := Next(a, Save, p);
    StepKeepsInv(a, Save, p);
    PollIssuesIff(b, p, NO_FAULT);
    var run := [Poll(NO_FAULT, false), Save, Poll(NO_FAULT, false)];
    assert run[1..] == [Save, Poll(NO_FAULT, false)] && run[1..][1..] == [Poll(NO_FAULT, false)];
    assert Possible(b, [Poll(NO_FAULT, false)], p);
    assert After(b, [Poll(NO_FAULT, false)], p) == Next(b, Poll(NO_FAULT, false), p);
  }

  // ---------------------------------------------------------------- retirement

  predicate Accepted(w: World, k: Key) { Authenticate(w.row, k, w.now).Some? }

  /** A key is accepted exactly if it is the current one, or the previous one and the grace time
      is not over; which of the two it is decides what the poll does. */
  lemma AcceptedIff(r: Row, k: Key, now: int)
    ensures Authenticate(r, k, now) == Some(Current) <==> k == r.cur
    ensures Authenticate(r, k, now) == Some(Grace) <==> k != r.cur && r.prev == Some(k) && now < r.prevExpires
  {
  }

  /** At most two keys authenticate at once. */
  lemma AtMostTwo(w: World, a: Key, b: Key, c: Key)
    requires Accepted(w, a) && Accepted(w, b) && Accepted(w, c)
    ensures a == b || b == c || a == c
  {
  }

  lemma StepAcceptsNoOldKey(w: World, s: Step, p: Policy, k: Key)
    requires Enabled(w, s) && k < w.nextKey && !Accepted(w, k)
    ensures !Accepted(Next(w, s, p), k) && k < Next(w, s, p).nextKey
  {
  }

  /** A key that stopped authenticating never authenticates again. */
  lemma {:induction false} RetiredForGood(w: World, run: seq<Step>, p: Policy, k: Key)
    requires Possible(w, run, p) && k < w.nextKey && !Accepted(w, k)
    ensures !Accepted(After(w, run, p), k)
    decreases |run|
  {
    if run != [] {
      StepAcceptsNoOldKey(w, run[0], p, k);
      RetiredForGood(Next(w, run[0], p), run[1..], p, k);
    }
  }

  // ---------------------------------------------------------------- a request served late

  /** A request the agent gave up on, whose handler authenticated it with key `k` and read
      `row`. Its statements run later, on whatever the row is by then. */
  datatype Late = Late(k: Key, row: Row, via: Via)

  function Admit(row: Row, k: Key, at: int): Option<Late> {
    var via := Authenticate(row, k, at);
    if via.Some? then Some(Late(k, row, via.value)) else None
  }

  /** The handler's age check is on the row it read. */
  predicate Rotates(l: Late, now: int, p: Policy, f: Faults) {
    && (l.via == Current ==> p.maxAge > 0 && now - l.row.issuedAt >= p.maxAge)
    && !f.token && !f.rotate
  }

  /** It retires the previous key of the row it finds, if the one it read had one. */
  predicate Clears(l: Late, f: Faults) { l.via == Current && l.row.prev.Some? && !f.confirm }

  /** The late statements: nothing they write depends on the row they find. */
  function Finish(w: World, l: Late, p: Policy, f: Faults): World {
    var r := if Clears(l, f) then w.row.(prev := None, prevExpires := 0) else w.row;
    if !Rotates(l, w.now, p, f) then w.(row := r)
    else
      w.(nextKey := w.nextKey + 1,
         row := if l.via == Current then Row(w.nextKey, Some(l.row.cur), w.now + p.grace, w.now)
                else Row(w.nextKey, l.row.prev, l.row.prevExpires, w.now))
  }

  /** With no time in between this is the poll as a run serves it. */
  lemma FinishAtOnce(w: World, k: Key, p: Policy, f: Faults)
    ensures match Admit(w.row, k, w.now)
            case None => true
            case Some(l) => Finish(w, l, p, f).row == MaybeRotate(w.row, l.via, w.now, p, f, w.nextKey).0
  {
  }

  /** Whatever row it read, a late request drops a key the agent uses exactly when it
      rotates and the agent no longer uses the request's own key, or it only retires the
      previous key and the agent still uses that one. */
  lemma LateRequestLocksOutIff(w: World, read: Row, k: Key, at: int, p: Policy, f: Faults)
    requires Inv(w, p) && Admit(read, k, at).Some?
    ensures var l := Admit(read, k, at).value;
            Held(Finish(w, l, p, f)) <==>
            if Rotates(l, w.now, p, f) then w.mem == k && w.disk == k
            else Clears(l, f) ==> w.disk == w.row.cur
  {
  }

  /** It happens with a request admitted on the grace key: key 0 is polled twice, the second
      poll is answered with key 1, and the first is served after key 1 was saved. */
  lemma LateGraceLocksOut()
    ensures var p := Policy(100, 60);
            var none := Faults(false, false, false);
            var run := [Tick(100), Poll(none, false), Save];
            && Possible(Enroll(0, 0), run, p)
            && var w := After(Enroll(0, 0), run, p);
               && 0 in w.used && w.disk == 1 && Accepted(w, 1)
               && Admit(w.row, 0, w.now) == Some(Late(0, w.row, Grace))
               && !Accepted(Finish(w, Late(0, w.row, Grace), p, none), 1)
  {
    LateRun();
  }

  /** And with one admitted on the current key: the same two polls, the first of which read
      the row before the second rotated it. */
  lemma LateCurrentLocksOut()
    ensures var p := Policy(100, 60);
            var none := Faults(false, false, false);
            var a := Next(Enroll(0, 0), Tick(100), p);
            var run := [Tick(100), Poll(none, false), Save];
            && Possible(Enroll(0, 0), run, p)
            && var w := After(Enroll(0, 0), run, p);
               && 0 in w.used && w.disk == 1 && Accepted(w, 1)
               && Admit(a.row, 0, a.now) == Some(Late(0, a.row, Current))
               && !Accepted(Finish(w, Late(0, a.row, Current), p, none), 1)
  {
    LateRun();
  }

  lemma LateRun()
    ensures var p := Policy(100, 60);
            var none := Faults(false, false, false);
            var run := [Tick(100), Poll(none, false), Save];
            && Possible(Enroll(0, 0), run, p)
            && After(Enroll(0, 0), run, p) == World(Row(1, Some(0), 160, 100), 1, 1, 100, 2, {0}, 100)
  {
    var p := Policy(100, 60);
    var none := Faults(false, false, false);
    var run := [Tick(100), Poll(none, false), Save];
    var a := Next(Enroll(0, 0), Tick(100), p);
    var b := Next(a, Poll(none, false), p);
    assert b.row == Row(1, Some(0), 160, 100) && b.mem == 1;
    var c := Next(b, Save, p);
    assert run[1..] == [Poll(none, false), Save] && run[1..][1..] == [Save] && run[1..][1..][1..] == [];
    assert Possible(b, [Save], p) && After(b, [Save], p) == c;
  }
}
