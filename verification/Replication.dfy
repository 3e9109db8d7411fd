/** Configuration replication: the agent's copy of the configuration with its persisted
    version and table fingerprint (internal/store/cluster.go), the poll
    (`syncOnce`, `fetch`, `localVersion` in internal/cluster/agent.go) and the control
    plane's "304 Not Modified" decision (`clusterSnapshot`, `agentHoldsSnapshotState` in
    internal/api/api.go).

    A hash is represented by what was hashed, so two hashes are equal exactly when the
    hashed contents are. The SettingsVersion of a payload is the payload, "none" being
    the empty one. */
module Replication {
  import opened Wrappers

  datatype Rule = Rule(action: string, domain: string, category: string, enabled: bool)
  datatype Rewrite = Rewrite(domain: string, rrtype: string, target: string, enabled: bool)
  datatype Forward = Forward(suffix: string, upstreams: seq<string>)

  /** What a config version hashes: the lines of the rules, rewrites and forwarders, in no
      order. */
  datatype Content = Content(rules: multiset<Rule>, rewrites: multiset<Rewrite>, fws: multiset<Forward>)

  // ---------------------------------------------------------------- the agent's tables

  datatype Row<T> = Row(id: nat, val: T)

  /** The replicated tables; the `next` ids are AUTOINCREMENT's, the forwarders a blob
      that starts absent. */
  datatype Tables = Tables(rules: seq<Row<Rule>>, nextRule: nat,
                           rewrites: seq<Row<Rewrite>>, nextRewrite: nat,
                           fws: Option<seq<Forward>>)

  function Values<T>(rows: seq<Row<T>>): (vs: seq<T>)
    ensures |vs| == |rows| && forall i :: 0 <= i < |rows| ==> vs[i] == rows[i].val
  {
    seq(|rows|, i requires 0 <= i < |rows| => rows[i].val)
  }

  /** SELECT MAX(id), NULL read as 0. */
  function MaxId<T>(rows: seq<Row<T>>): nat {
    if rows == [] then 0
    else
      var m := MaxId(rows[1..]);
      if m < rows[0].id then rows[0].id else m
  }

  lemma {:induction false} MaxIdIs<T>(rows: seq<Row<T>>)
    ensures forall i :: 0 <= i < |rows| ==> rows[i].id <= MaxId(rows)
    ensures if rows == [] then MaxId(rows) == 0 else exists i :: 0 <= i < |rows| && rows[i].id == MaxId(rows)
  {
    if rows != [] {
      MaxIdIs(rows[1..]);
      if MaxId(rows) != rows[0].id {
        var i :| 0 <= i < |rows[1..]| && rows[1..][i].id == MaxId(rows[1..]);
        assert rows[i + 1].id == MaxId(rows);
      }
      forall i | 0 <= i < |rows| ensures rows[i].id <= MaxId(rows) {
        if i > 0 { assert rows[1..][i - 1] == rows[i]; }
      }
    }
  }

  function Specs(fws: Option<seq<Forward>>): seq<Forward> { if fws.Some? then fws.value else [] }

  function ContentOf(t: Tables): Content {
    Content(multiset(Values(t.rules)), multiset(Values(t.rewrites)), multiset(Specs(t.fws)))
  }

  /** `localConfigFingerprint`. */
  datatype Print = Print(ruleMax: nat, rules: nat, rewriteMax: nat, rewrites: nat, fws: Option<seq<Forward>>)

  function PrintOf(t: Tables): Print {
    Print(MaxId(t.rules), |t.rules|, MaxId(t.rewrites), |t.rewrites|, t.fws)
  }

  /** The agent's database: `mark` is the fingerprint recorded with the version. `at` is
      not stored in it: it remembers the tables from which the version was computed. */
  datatype Db = Db(t: Tables, version: Option<Content>, mark: Option<Print>, settings: string, at: Tables)

  /** What fails while a version is looked up or recorded: reading the fingerprint, the
      two meta rows or the tables; `writes` of the three meta writes succeed. */
  datatype Io = Io(mark: bool, version: bool, stored: bool, tables: bool, writes: nat)

  /** `recordLocalConfigVersion`; None stands for an error. */
  function RecordAs(db: Db, io: Io): (Db, Option<Content>) {
    if io.tables || io.writes == 0 then (db, None)
    else if io.writes == 1 then (db.(mark := None), None)
    else if io.writes == 2 then (db.(mark := None, version := Some(ContentOf(db.t))), None)
    else (db.(version := Some(ContentOf(db.t)), mark := Some(PrintOf(db.t)), at := db.t), Some(ContentOf(db.t)))
  }

  function Record(db: Db, io: Io): (Db, Option<Content>) {
    if io.mark then (db, None) else RecordAs(db, io)
  }

  /** `LocalConfigVersion`. */
  function Lookup(db: Db, io: Io): (Db, Option<Content>) {
    if io.mark then (db, None)
    else if !io.version && db.version.Some? && !io.stored && db.mark == Some(PrintOf(db.t)) then (db, db.version)
    else RecordAs(db, io)
  }

  function Inserted<T>(vals: seq<T>, next: nat): (rows: seq<Row<T>>)
    ensures |rows| == |vals| && forall i :: 0 <= i < |rows| ==> rows[i] == Row(next + i, vals[i])
  {
    seq(|vals|, i requires 0 <= i < |vals| => Row(next + i, vals[i]))
  }

  function Named(r: Rule): Rule { if r.category == "" then r.(category := "custom") else r }

  function AllNamed(rules: seq<Rule>): (named: seq<Rule>)
    ensures |named| == |rules| && forall i :: 0 <= i < |rules| ==> named[i] == Named(rules[i])
  {
    seq(|rules|, i requires 0 <= i < |rules| => Named(rules[i]))
  }

  function Replaced(t: Tables, rules: seq<Rule>, rewrites: seq<Rewrite>): Tables {
    t.(rules := Inserted(AllNamed(rules), t.nextRule), nextRule := t.nextRule + |rules|,
       rewrites := Inserted(rewrites, t.nextRewrite), nextRewrite := t.nextRewrite + |rewrites|)
  }

  /** BEGIN, two DELETEs, the INSERTs and COMMIT, counted from 0. */
  predicate Commits(rules: nat, rewrites: nat, failAt: nat) { failAt >= rules + rewrites + 4 }

  function Apply(t: Tables, rules: seq<Rule>, rewrites: seq<Rewrite>, failAt: nat): Tables {
    if Commits(|rules|, |rewrites|, failAt) then Replaced(t, rules, rewrites) else t
  }

  class AgentStore {
    var rules: seq<Row<Rule>>
    var nextRule: nat
    var rewrites: seq<Row<Rewrite>>
    var nextRewrite: nat
    var fws: Option<seq<Forward>>
    var version: Option<Content>
    var mark: Option<Print>
    var settings: string
    ghost var at: Tables

    ghost function Tabled(): Tables
      reads this
    {
      Tables(rules, nextRule, rewrites, nextRewrite, fws)
    }

    ghost function State(): Db
      reads this
    {
      Db(Tabled(), version, mark, settings, at)
    }

    constructor ()
      ensures State() == EmptyDb()
    {
      rules, nextRule, rewrites, nextRewrite, fws := [], 1, [], 1, None;
      version, mark, settings, at := None, None, "", Tables([], 1, [], 1, None);
    }

    method Fingerprint() returns (fp: Print)
      ensures fp == PrintOf(Tabled())
    {
      return Print(MaxId(rules), |rules|, MaxId(rewrites), |rewrites|, fws);
    }

    method ConfigVersion() returns (v: Content)
      ensures v == ContentOf(Tabled())
    {
      return Content(multiset(Values(rules)), multiset(Values(rewrites)), multiset(Specs(fws)));
    }

    method RecordLocal(fp: Print, io: Io) returns (v: Option<Content>)
      requires fp == PrintOf(Tabled())
      modifies this
      ensures (State(), v) == RecordAs(old(State()), io)
    {
      if io.tables { return None; }
      var hash := ConfigVersion();
      if io.writes < 1 { return None; }
      mark := None;
      if io.writes < 2 { return None; }
      version := Some(hash);
      if io.writes < 3 { return None; }
      mark := Some(fp);
      at := Tabled();
      return Some(hash);
    }

    method LocalConfigVersion(io: Io) returns (v: Option<Content>)
      modifies this
      ensures (State(), v) == Lookup(old(State()), io)
    {
      if io.mark { return None; }
      var fp := Fingerprint();
      if !io.version && version.Some? {
        if !io.stored && mark == Some(fp) { return version; }
      }
      v := RecordLocal(fp, io);
    }

    method RecordLocalConfigVersion(io: Io) returns (v: Option<Content>)
      modifies this
      ensures (State(), v) == Record(old(State()), io)
    {
      if io.mark { return None; }
      var fp := Fingerprint();
      v := RecordLocal(fp, io);
    }

    method SetClusterSettings(raw: string, fails: bool) returns (ok: bool)
      modifies this
      ensures ok == !fails
      ensures State() == if fails then old(State()) else old(State()).(settings := raw)
    {
      if fails { return false; }
      settings := raw;
      return true;
    }

    method SetClusterForwarders(specs: seq<Forward>, fails: bool) returns (ok: bool)
      modifies this
      ensures ok == !fails
      ensures State() == if fails then old(State())
                         else old(State()).(t := old(Tabled()).(fws := Some(specs)))
    {
      if fails { return false; }
      fws := Some(specs);
      return true;
    }

    /** One INSERT per rule, stopping at the first that fails. */
    method InsertRules(vals: seq<Rule>, failAt: int) returns (ok: bool)
      modifies `rules, `nextRule
      ensures ok == !(0 <= failAt < |vals|)
      ensures ok ==> rules == old(rules) + Inserted(AllNamed(vals), old(nextRule))
                     && nextRule == old(nextRule) + |vals|
    {
      for i := 0 to |vals|
        invariant !(0 <= failAt < i)
        invariant rules == old(rules) + Inserted(AllNamed(vals), old(nextRule))[..i]
        invariant nextRule == old(nextRule) + i
      {
        if i == failAt { return false; }
        rules := rules + [Row(nextRule, Named(vals[i]))];
        nextRule := nextRule + 1;
      }
      assert Inserted(AllNamed(vals), old(nextRule))[..|vals|] == Inserted(AllNamed(vals), old(nextRule));
      return true;
    }

    method InsertRewrites(vals: seq<Rewrite>, failAt: int) returns (ok: bool)
      modifies `rewrites, `nextRewrite
      ensures ok == !(0 <= failAt < |vals|)
      ensures ok ==> rewrites == old(rewrites) + Inserted(vals, old(nextRewrite))
                     && nextRewrite == old(nextRewrite) + |vals|
    {
      for i := 0 to |vals|
        invariant !(0 <= failAt < i)
        invariant rewrites == old(rewrites) + Inserted(vals, old(nextRewrite))[..i]
        invariant nextRewrite == old(nextRewrite) + i
      {
        if i == failAt { return false; }
        rewrites := rewrites + [Row(nextRewrite, vals[i])];
        nextRewrite := nextRewrite + 1;
      }
      assert Inserted(vals, old(nextRewrite))[..|vals|] == Inserted(vals, old(nextRewrite));
      return true;
    }

    /** The transaction: delete and re-insert both tables, or leave everything as it was. */
    method ApplySnapshot(newRules: seq<Rule>, newRewrites: seq<Rewrite>, failAt: nat) returns (ok: bool)
      modifies this
      ensures ok == Commits(|newRules|, |newRewrites|, failAt)
      ensures State() == old(State()).(t := Apply(old(Tabled()), newRules, newRewrites, failAt))
    {
      if failAt == 0 { return false; }   // BEGIN
      var rules0, next0, rewrites0, nextRw0 := rules, nextRule, rewrites, nextRewrite;
      ok := failAt != 1;
      if ok {
        rules := [];
        ok := InsertRules(newRules, failAt - 2);
      }
      ok := ok && failAt != 2 + |newRules|;
      if ok {
        rewrites := [];
        ok := InsertRewrites(newRewrites, failAt - 3 - |newRules|);
      }
      ok := ok && failAt != 3 + |newRules| + |newRewrites|;   // COMMIT
      if !ok {
        rules, nextRule, rewrites, nextRewrite := rules0, next0, rewrites0, nextRw0;   // ROLLBACK
      }
    }
  }

  function EmptyDb(): Db { Db(Tables([], 1, [], 1, None), None, None, "", Tables([], 1, [], 1, None)) }

  // ---------------------------------------------------------------- fingerprints identify tables

  predicate IdsIn<T>(rows: seq<Row<T>>, lo: nat, hi: nat) {
    forall i :: 0 <= i < |rows| ==> lo <= rows[i].id < hi
  }

  predicate WellFormed(t: Tables) {
    && 1 <= t.nextRule && IdsIn(t.rules, 1, t.nextRule)
    && 1 <= t.nextRewrite && IdsIn(t.rewrites, 1, t.nextRewrite)
    && forall i :: 0 <= i < |t.rules| ==> t.rules[i].val.category != ""
  }

  /** Each table of `b` is that of `a`, or holds only rows inserted after `a`. */
  predicate Later(a: Tables, b: Tables) {
    && a.nextRule <= b.nextRule && a.nextRewrite <= b.nextRewrite
    && (b.rules == a.rules || IdsIn(b.rules, a.nextRule, b.nextRule))
    && (b.rewrites == a.rewrites || IdsIn(b.rewrites, a.nextRewrite, b.nextRewrite))
  }

  lemma {:induction false} MaxIdIn<T>(rows: seq<Row<T>>, lo: nat, hi: nat)
    requires IdsIn(rows, lo, hi) && rows != []
    ensures lo <= MaxId(rows) < hi
  {
    assert rows[0].id < hi;
    if |rows| > 1 { MaxIdIn(rows[1..], lo, hi); }
  }

  lemma SameRows<T>(a: seq<Row<T>>, next: nat, b: seq<Row<T>>, hi: nat)
    requires IdsIn(a, 1, next) && (b == a || IdsIn(b, next, hi))
    requires MaxId(a) == MaxId(b) && |a| == |b|
    ensures a == b
  {
    if a != [] && b != a {
      MaxIdIn(a, 1, next);
      MaxIdIn(b, next, hi);
    }
  }

  /** Equal fingerprints imply equal tables. */
  lemma PrintIdentifies(a: Tables, b: Tables)
    requires WellFormed(a) && Later(a, b) && PrintOf(a) == PrintOf(b)
    ensures a.rules == b.rules && a.rewrites == b.rewrites && a.fws == b.fws
  {
    SameRows(a.rules, a.nextRule, b.rules, b.nextRule);
    SameRows(a.rewrites, a.nextRewrite, b.rewrites, b.nextRewrite);
  }

  lemma LaterTrans(a: Tables, b: Tables, c: Tables)
    requires Later(a, b) && Later(b, c)
    ensures Later(a, c)
  {
  }

  lemma ApplyIsLater(t: Tables, rules: seq<Rule>, rewrites: seq<Rewrite>, failAt: nat)
    requires WellFormed(t)
    ensures WellFormed(Apply(t, rules, rewrites, failAt)) && Later(t, Apply(t, rules, rewrites, failAt))
  {
  }

  /** All the rows are replaced, in order and with no category left empty, if neither of the two
      DELETEs, no INSERT, BEGIN nor COMMIT fails; else none is. */
  lemma ApplyIsAtomic(t: Tables, rules: seq<Rule>, rewrites: seq<Rewrite>, failAt: nat)
    ensures var u := Apply(t, rules, rewrites, failAt);
            if failAt < |rules| + |rewrites| + 4 then u == t
            else
              && Values(u.rewrites) == rewrites && |u.rules| == |rules| && u.fws == t.fws
              && forall i :: 0 <= i < |rules| ==>
                   u.rules[i].val == Rule(rules[i].action, rules[i].domain,
                                          if rules[i].category == "" then "custom" else rules[i].category,
                                          rules[i].enabled)
  {
  }

  /** A recorded pair of version and fingerprint is that of tables the present ones come
      after. */
  predicate DbInv(db: Db) {
    && WellFormed(db.t)
    && (db.mark.Some? ==>
          && WellFormed(db.at) && Later(db.at, db.t)
          && db.mark.value == PrintOf(db.at) && db.version == Some(ContentOf(db.at)))
  }

  predicate Persisted(db: Db, version: Option<Content>) { db.version == version && db.mark == Some(PrintOf(db.t)) }

  lemma RecordAsIsHash(db: Db, io: Io)
    requires DbInv(db)
    ensures RecordAs(db, io).1.Some? ==> RecordAs(db, io).1.value == ContentOf(db.t)
    ensures DbInv(RecordAs(db, io).0) && RecordAs(db, io).0.t == db.t && RecordAs(db, io).0.settings == db.settings
  {
  }

  lemma HitIsHash(db: Db)
    requires DbInv(db) && db.mark == Some(PrintOf(db.t))
    ensures db.version == Some(ContentOf(db.t))
  {
    PrintIdentifies(db.at, db.t);
  }

  /** The persisted version still stands for the tables, and can be read. */
  predicate StillStands(db: Db, io: Io) {
    !io.mark && !io.version && !io.stored && db.version.Some? && db.mark == Some(PrintOf(db.t))
  }

  /** Whether three reads and three writes get through. */
  predicate Recomputes(io: Io) { !io.mark && !io.tables && io.writes >= 3 }

  /** `LocalConfigVersion` returns the hash of the current tables whenever it returns, which is
      when the persisted version stands for them, and else when it can be computed and
      stored; then the stored one does. */
  lemma LookupIsHash(db: Db, io: Io)
    requires DbInv(db)
    ensures Lookup(db, io).1.Some? <==> StillStands(db, io) || Recomputes(io)
    ensures StillStands(db, io) ==> Lookup(db, io).0 == db
    ensures Lookup(db, io).1.Some? ==> Persisted(Lookup(db, io).0, Lookup(db, io).1)
    ensures Lookup(db, io).1.Some? ==> Lookup(db, io).1.value == ContentOf(db.t)
    ensures DbInv(Lookup(db, io).0) && Lookup(db, io).0.t == db.t && Lookup(db, io).0.settings == db.settings
  {
    if io.mark {
    } else if !io.version && db.version.Some? && !io.stored && db.mark == Some(PrintOf(db.t)) {
      HitIsHash(db);
    } else {
      RecordAsIsHash(db, io);
    }
  }

  lemma RecordIsHash(db: Db, io: Io)
    requires DbInv(db)
    ensures Record(db, io).1.Some? <==> Recomputes(io)
    ensures Record(db, io).1.Some? ==> Persisted(Record(db, io).0, Record(db, io).1)
    ensures Record(db, io).1.Some? ==> Record(db, io).1.value == ContentOf(db.t)
    ensures DbInv(Record(db, io).0) && Record(db, io).0.t == db.t && Record(db, io).0.settings == db.settings
  {
    RecordAsIsHash(db, io);
  }

  lemma WriteKeepsDbInv(db: Db, t: Tables)
    requires DbInv(db) && WellFormed(t) && Later(db.t, t)
    ensures DbInv(db.(t := t))
  {
    if db.mark.Some? { LaterTrans(db.at, db.t, t); }
  }

  // ---------------------------------------------------------------- the agent

  /** What the control plane serves one node, and the snapshot that carries it. */
  datatype Config = Config(nodeID: string, rules: seq<Rule>, rewrites: seq<Rewrite>, fws: seq<Forward>,
                           pause: int, maint: bool, settings: string)

  function HashOf(c: Config): Content {
    Content(multiset(c.rules), multiset(c.rewrites), multiset(c.fws))
  }

  /** The agent's fields. `misread` is not one of them: the settings row existed at start
      but could not be read, and none has been written since. */
  datatype Memory = Memory(version: Option<Content>, stateApplied: bool, pause: int, maint: bool,
                           settingsVer: string, nodeID: string, misread: bool)

  /** What the node enforces ("": its local settings). `owed` is no field of the program: a
      change of the stored settings was not applied yet, or could not be read back. */
  datatype Live = Live(pause: int, maint: bool, settings: string, owed: bool)

  datatype Node = Node(db: Db, mem: Memory, live: Live)

  datatype Faults = Faults(settings: bool, lookup: Io, forwarders: bool, failAt: nat, record: Io, load: bool)

  /** The node id, the block pause and the maintenance flag, taken from every full snapshot. */
  function TakeState(n: Node, c: Config): Node {
    var id := if c.nodeID != "" && n.mem.nodeID == "" then c.nodeID else n.mem.nodeID;
    n.(mem := n.mem.(nodeID := id, stateApplied := true, pause := c.pause, maint := c.maint),
       live := n.live.(pause := c.pause, maint := c.maint))
  }

  predicate SettingsChange(n: Node, c: Config, fails: bool) { c.settings != n.mem.settingsVer && !fails }

  function TakeSettings(n: Node, c: Config, fails: bool): Node {
    if SettingsChange(n, c, fails)
    then n.(db := n.db.(settings := c.settings),
            mem := n.mem.(settingsVer := c.settings, misread := false),
            live := n.live.(owed := c.settings != n.live.settings))
    else n
  }

  /** `localVersion`. */
  function Known(n: Node, io: Io): Node {
    if n.mem.version.Some? then n
    else var r := Lookup(n.db, io); n.(db := r.0, mem := n.mem.(version := r.1))
  }

  /** The `applySettings` callback. */
  function Reapply(n: Node, fails: bool): Node {
    n.(live := n.live.(settings := if fails then "" else n.db.settings, owed := fails && n.db.settings != ""))
  }

  /** The tables after the forwarders and, if its transaction commits, the snapshot. */
  function Written(t: Tables, c: Config, failAt: nat): Tables {
    Apply(t.(fws := Some(c.fws)), c.rules, c.rewrites, failAt)
  }

  /** `RecordLocalConfigVersion` and `applySettings` after an apply. */
  function Recorded(n: Node, record: Io, load: bool): Node {
    var r := Record(n.db, record);
    Reapply(n.(db := r.0, mem := n.mem.(version := r.1)), load)
  }

  /** The second half of a sync: the config itself. */
  function TakeConfig(n: Node, c: Config, f: Faults): Node {
    var n0 := n.(mem := n.mem.(version := None));
    if f.forwarders then n0
    else
      var n1 := n0.(db := n.db.(t := Written(n.db.t, c, f.failAt)));
      if Commits(|c.rules|, |c.rewrites|, f.failAt) then Recorded(n1, f.record, f.load) else n1
  }

  /** What `syncOnce` does with a full snapshot. */
  function Sync(n: Node, c: Config, f: Faults): Node {
    var s := TakeState(n, c);
    var k := Known(TakeSettings(s, c, f.settings), f.lookup);
    if k.mem.version == Some(HashOf(c))
    then if SettingsChange(s, c, f.settings) then Reapply(k, f.load) else k
    else TakeConfig(k, c, f)
  }

  class Agent {
    const store: AgentStore
    var version: Option<Content>
    var stateApplied: bool
    var appliedPause: int
    var appliedMaint: bool
    var settingsVer: string
    var nodeID: string
    var live: Live
    ghost var misread: bool

    ghost function State(): Node
      reads this, store
    {
      Node(store.State(),
           Memory(version, stateApplied, appliedPause, appliedMaint, settingsVer, nodeID, misread),
           live)
    }

    constructor (st: AgentStore, id: string, unreadable: bool, pause: int, maint: bool, unloadable: bool)
      ensures store == st
      ensures State() == Started(st.State(), id, unreadable, pause, maint, unloadable)
    {
      store := st;
      version, stateApplied, appliedPause, appliedMaint, nodeID := None, false, 0, false, id;
      settingsVer := if unreadable then "" else st.settings;
      misread := unreadable && st.settings != "";
      live := Live(pause, maint, if unloadable then "" else st.settings, unloadable && st.settings != "");
    }

    method LocalVersion(io: Io) returns (v: Option<Content>)
      modifies this, store
      ensures State() == Known(old(State()), io) && v == version
      ensures live == old(live)
    {
      if version == None { version := store.LocalConfigVersion(io); }
      return version;
    }

    method ApplySettings(fails: bool)
      modifies `live
      ensures State() == Reapply(old(State()), fails)
    {
      live := live.(settings := if fails then "" else store.settings, owed := fails && store.settings != "");
    }

    method SyncState(c: Config)
      modifies `nodeID, `stateApplied, `appliedPause, `appliedMaint, `live
      ensures State() == TakeState(old(State()), c)
    {
      if c.nodeID != "" && nodeID == "" { nodeID := c.nodeID; }
      live := live.(pause := c.pause, maint := c.maint);
      appliedPause, appliedMaint, stateApplied := c.pause, c.maint, true;
    }

    method SyncSettings(c: Config, fails: bool) returns (changed: bool)
      modifies this, store
      ensures State() == TakeSettings(old(State()), c, fails)
      ensures changed == SettingsChange(old(State()), c, fails)
    {
      changed := false;
      if c.settings != settingsVer {
        changed := store.SetClusterSettings(c.settings, fails);
        if changed {
          settingsVer, misread := c.settings, false;
          live := live.(owed := c.settings != live.settings);
        }
      }
    }

    method SyncConfig(c: Config, f: Faults)
      modifies this, store
      ensures State() == TakeConfig(old(State()), c, f)
    {
      version := None;
      var ok := store.SetClusterForwarders(c.fws, f.forwarders);
      if !ok { return; }
      ok := store.ApplySnapshot(c.rules, c.rewrites, f.failAt);
      if !ok { return; }
      version := store.RecordLocalConfigVersion(f.record);
      ApplySettings(f.load);
    }

    method SyncOnce(c: Config, f: Faults)
      modifies this, store
      ensures State() == Sync(old(State()), c, f)
    {
      SyncState(c);
      var changed := SyncSettings(c, f.settings);
      var v := LocalVersion(f.lookup);
      if v == Some(HashOf(c)) {
        if changed { ApplySettings(f.load); }
        return;
      }
      SyncConfig(c, f);
    }
  }

  /** A start of the process on an existing database; the pause and maintenance in force
      until the first snapshot are whatever the start-up sets. */
  function Started(db: Db, id: string, unreadable: bool, pause: int, maint: bool, unloadable: bool): Node {
    Node(db,
         Memory(None, false, 0, false, if unreadable then "" else db.settings, id, unreadable && db.settings != ""),
         Live(pause, maint, if unloadable then "" else db.settings, unloadable && db.settings != ""))
  }

  // ---------------------------------------------------------------- the poll

  /** The headers of a poll; the five of 304 support are sent together or not at all. */
  datatype Offer = Offer(nodeID: string, pause: int, maint: bool, settings: Option<string>)
  datatype Headers = Headers(version: Option<Content>, offer: Option<Offer>)

  function HeadersOf(m: Memory): Headers {
    Headers(m.version,
            if m.stateApplied then Some(Offer(m.nodeID, m.pause, m.maint, Some(m.settingsVer))) else None)
  }

  datatype Reply = NotModified | Full(c: Config)

  predicate HoldsSnapshotState(h: Headers, c: Config) {
    && h.offer.Some?
    && h.version.Some?
    && h.offer.value.nodeID == c.nodeID
    && h.offer.value.pause == c.pause
    && h.offer.value.maint == c.maint
    && (h.offer.value.settings == None || h.offer.value.settings == Some(c.settings))
  }

  /** `unread`: the cached config version could not be read. */
  function Decide(h: Headers, c: Config, rotated: bool, unread: bool): Reply {
    if !rotated && HoldsSnapshotState(h, c) && !unread && h.version == Some(HashOf(c)) then NotModified
    else Full(c)
  }

  datatype Flight = Idle | Asked(h: Headers) | Answered(reply: Reply)

  /** The conditions of a 304, on headers, configuration and flags. */
  ghost predicate MayBeQuiet(h: Headers, c: Config, rotated: bool, unread: bool) {
    && !rotated && !unread
    && h.offer.Some? && h.offer.value.nodeID == c.nodeID && h.offer.value.pause == c.pause
    && h.offer.value.maint == c.maint
    && (h.offer.value.settings.Some? ==> h.offer.value.settings.value == c.settings)
    && h.version == Some(Content(multiset(c.rules), multiset(c.rewrites), multiset(c.fws)))
  }

  datatype World = World(node: Node, flight: Flight, served: Config)

  datatype Step =
    | Publish(c: Config)                        // the control plane's configuration changes
    | Ask(io: Io)                               // the agent polls
    | Serve(rotated: bool, unread: bool)        // the control plane answers
    | Lose                                      // the request or its answer is lost
    | Receive(f: Faults)                        // the answer arrives
    | Restart(id: string, unreadable: bool, pause: int, maint: bool, unloadable: bool)

  /** A crash in the middle of a sync is a `Receive` whose later writes fail, followed by a
      `Restart`. */
  function Next(w: World, s: Step): World {
    match s
    case Publish(c) => w.(served := c)
    case Ask(io) =>
      if w.flight.Idle? then var n := Known(w.node, io); w.(node := n, flight := Asked(HeadersOf(n.mem))) else w
    case Serve(rotated, unread) =>
      if w.flight.Asked? then w.(flight := Answered(Decide(w.flight.h, w.served, rotated, unread))) else w
    case Lose => w.(flight := Idle)
    case Receive(f) =>
      if w.flight.Answered?
      then w.(flight := Idle,
              node := if w.flight.reply.Full? then Sync(w.node, w.flight.reply.c, f) else w.node)
      else w
    case Restart(id, unreadable, pause, maint, unloadable) =>
      w.(node := Started(w.node.db, id, unreadable, pause, maint, unloadable), flight := Idle)
  }

  /** Serving a poll changes nothing else and gives a 304 exactly under those conditions, and
      else all of what is served, as it is. */
  lemma AnswerIsOwed(w: World, rotated: bool, unread: bool)
    requires w.flight.Asked?
    ensures var v := Next(w, Serve(rotated, unread));
            && v.node == w.node && v.served == w.served && v.flight.Answered?
            && (v.flight.reply == NotModified <==> MayBeQuiet(w.flight.h, w.served, rotated, unread))
            && (v.flight.reply != NotModified <==>
                  v.flight.reply == Full(Config(w.served.nodeID, w.served.rules, w.served.rewrites, w.served.fws,
                                                w.served.pause, w.served.maint, w.served.settings)))
  {
  }

  function After(w: World, run: seq<Step>): World
    decreases |run|
  {
    if run == [] then w else After(Next(w, run[0]), run[1..])
  }

  function Fresh(c: Config, id: string, pause: int, maint: bool): World {
    World(Started(EmptyDb(), id, false, pause, maint, false), Idle, c)
  }

  predicate NodeInv(n: Node) {
    && DbInv(n.db)
    && (n.mem.version.Some? ==> n.mem.version.value == ContentOf(n.db.t) && Persisted(n.db, n.mem.version))
    && (n.mem.stateApplied ==> n.live.pause == n.mem.pause && n.live.maint == n.mem.maint)
    && (if n.mem.misread then n.mem.settingsVer == "" && n.db.settings != "" else n.mem.settingsVer == n.db.settings)
    && (n.live.owed <==> n.live.settings != n.db.settings)
  }

  predicate Inv(w: World) {
    NodeInv(w.node) && (w.flight.Asked? ==> w.flight.h == HeadersOf(w.node.mem))
  }

  lemma KnownKeeps(n: Node, io: Io)
    requires NodeInv(n)
    ensures NodeInv(Known(n, io)) && Known(n, io).db.t == n.db.t
  {
    LookupIsHash(n.db, io);
  }

  lemma WrittenKeeps(n: Node, c: Config, failAt: nat)
    requires NodeInv(n) && n.mem.version == None
    ensures var t := Written(n.db.t, c, failAt); NodeInv(n.(db := n.db.(t := t))) && Later(n.db.t, t)
  {
    var t := n.db.t.(fws := Some(c.fws));
    ApplyIsLater(t, c.rules, c.rewrites, failAt);
    LaterTrans(n.db.t, t, Written(n.db.t, c, failAt));
    WriteKeepsDbInv(n.db, Written(n.db.t, c, failAt));
  }

  lemma RecordedKeeps(n: Node, record: Io, load: bool)
    requires NodeInv(n)
    ensures NodeInv(Recorded(n, record, load)) && Recorded(n, record, load).db.t == n.db.t
  {
    RecordIsHash(n.db, record);
  }

  lemma TakeConfigKeeps(n: Node, c: Config, f: Faults)
    requires NodeInv(n)
    ensures NodeInv(TakeConfig(n, c, f)) && Later(n.db.t, TakeConfig(n, c, f).db.t)
  {
    var n0 := n.(mem := n.mem.(version := None));
    assert NodeInv(n0);
    WrittenKeeps(n0, c, f.failAt);
    if !f.forwarders && Commits(|c.rules|, |c.rewrites|, f.failAt) {
      RecordedKeeps(n0.(db := n.db.(t := Written(n.db.t, c, f.failAt))), f.record, f.load);
    }
  }

  lemma SyncKeeps(n: Node, c: Config, f: Faults)
    requires NodeInv(n)
    ensures NodeInv(Sync(n, c, f)) && Later(n.db.t, Sync(n, c, f).db.t)
  {
    var s := TakeSettings(TakeState(n, c), c, f.settings);
    assert NodeInv(s) && s.db.t == n.db.t;
    KnownKeeps(s, f.lookup);
    TakeConfigKeeps(Known(s, f.lookup), c, f);
  }

  lemma StepKeeps(w: World, s: Step)
    requires Inv(w)
    ensures Inv(Next(w, s)) && Later(w.node.db.t, Next(w, s).node.db.t)
  {
    match s {
      case Ask(io) => KnownKeeps(w.node, io);
      case Receive(f) => if w.flight.Answered? && w.flight.reply.Full? { SyncKeeps(w.node, w.flight.reply.c, f); }
      case _ =>
    }
  }

  lemma {:induction false} RunKeeps(w: World, run: seq<Step>)
    requires Inv(w)
    ensures Inv(After(w, run)) && Later(w.node.db.t, After(w, run).node.db.t)
    decreases |run|
  {
    if run != [] {
      var n := Next(w, run[0]);
      StepKeeps(w, run[0]);
      RunKeeps(n, run[1..]);
      LaterTrans(w.node.db.t, n.node.db.t, After(n, run[1..]).node.db.t);
    }
  }

  lemma FreshInv(c: Config, id: string, pause: int, maint: bool)
    ensures Inv(Fresh(c, id, pause, maint))
  {
  }

  /** Across every run of polls, failed writes and restarts, two moments with equal
      fingerprints have equal tables. */
  lemma EqualPrintsEqualTables(c: Config, id: string, pause: int, maint: bool, before: seq<Step>, between: seq<Step>)
    ensures var a := After(Fresh(c, id, pause, maint), before);
            var b := After(a, between);
            PrintOf(a.node.db.t) == PrintOf(b.node.db.t) ==>
              a.node.db.t.rules == b.node.db.t.rules && a.node.db.t.rewrites == b.node.db.t.rewrites
              && a.node.db.t.fws == b.node.db.t.fws
  {
    FreshInv(c, id, pause, maint);
    RunKeeps(Fresh(c, id, pause, maint), before);
    var a := After(Fresh(c, id, pause, maint), before);
    RunKeeps(a, between);
    if PrintOf(a.node.db.t) == PrintOf(After(a, between).node.db.t) {
      PrintIdentifies(a.node.db.t, After(a, between).node.db.t);
    }
  }

  /** Over every run, the version the agent advertises is the hash of what its tables
      hold. */
  lemma AdvertisedIsHeld(c: Config, id: string, pause: int, maint: bool, run: seq<Step>)
    ensures var w := After(Fresh(c, id, pause, maint), run);
            w.flight.Asked? && w.flight.h.version.Some? ==> w.flight.h.version.value == ContentOf(w.node.db.t)
  {
    FreshInv(c, id, pause, maint);
    RunKeeps(Fresh(c, id, pause, maint), run);
  }

  /** The node holds all a full snapshot would carry, but for the settings. */
  predicate HoldsAllButSettings(n: Node, c: Config) {
    && ContentOf(n.db.t) == HashOf(c)
    && n.live.pause == c.pause && n.live.maint == c.maint
    && n.mem.nodeID == c.nodeID
  }

  /** Over every run, a poll answered "304 Not Modified" finds the agent holding the
      config, the pause, the maintenance flag and the node id; the stored settings too,
      exactly if its start could read them; and then these are in force exactly if none are
      owed. No key was rotated. */
  lemma NotModifiedIsSafe(c: Config, id: string, pause: int, maint: bool, run: seq<Step>, rotated: bool, unread: bool)
    ensures var w := After(Fresh(c, id, pause, maint), run);
            w.flight.Asked? && Decide(w.flight.h, w.served, rotated, unread) == NotModified ==>
              && !rotated
              && HoldsAllButSettings(w.node, w.served)
              && (w.node.db.settings == w.served.settings <==> !w.node.mem.misread)
              && (!w.node.mem.misread ==> (w.node.live.settings == w.served.settings <==> !w.node.live.owed))
  {
    FreshInv(c, id, pause, maint);
    RunKeeps(Fresh(c, id, pause, maint), run);
  }

  /** Whether a sync reaches its `applySettings`. */
  predicate Reapplies(n: Node, c: Config, f: Faults) {
    var s := TakeState(n, c);
    if Known(TakeSettings(s, c, f.settings), f.lookup).mem.version == Some(HashOf(c))
    then SettingsChange(s, c, f.settings)
    else !f.forwarders && Commits(|c.rules|, |c.rewrites|, f.failAt)
  }

  /** The settings stored once a sync is over. */
  function StoredSettings(n: Node, c: Config, f: Faults): string {
    if SettingsChange(n, c, f.settings) then c.settings else n.db.settings
  }

  /** Any sync leaves the stored settings in force exactly if it applied them and could read
      them back (or none are stored), or did not apply them and they were in force before. */
  lemma SettingsInForceIff(n: Node, c: Config, f: Faults)
    requires NodeInv(n)
    ensures Sync(n, c, f).db.settings == StoredSettings(n, c, f)
    ensures Sync(n, c, f).live.settings == StoredSettings(n, c, f) <==>
            if Reapplies(n, c, f) then !f.load || StoredSettings(n, c, f) == ""
            else n.live.settings == StoredSettings(n, c, f)
  {
    var s := TakeSettings(TakeState(n, c), c, f.settings);
    KnownSettings(s, f.lookup);
    TakeConfigSettings(Known(s, f.lookup), c, f);
  }

  lemma KnownSettings(n: Node, io: Io)
    requires DbInv(n.db)
    ensures Known(n, io).db.settings == n.db.settings && Known(n, io).live == n.live
  {
    LookupIsHash(n.db, io);
  }

  lemma TakeConfigSettings(n: Node, c: Config, f: Faults)
    ensures TakeConfig(n, c, f).db.settings == n.db.settings
    ensures TakeConfig(n, c, f).live ==
            if !f.forwarders && Commits(|c.rules|, |c.rewrites|, f.failAt)
            then n.live.(settings := if f.load then "" else n.db.settings, owed := f.load && n.db.settings != "")
            else n.live
  {
  }

  // ---------------------------------------------------------------- the two exceptions

  const NO_ERROR: Io := Io(false, false, false, false, 3)

  function NoFaults(c: Config): Faults {
    Faults(false, NO_ERROR, false, |c.rules| + |c.rewrites| + 4, NO_ERROR, false)
  }

  /** One poll: asked, answered and received. */
  function Round(w: World, f: Faults): World {
    Next(Next(Next(w, Ask(NO_ERROR)), Serve(false, false)), Receive(f))
  }

  function Plain(rules: seq<Rule>, settings: string): Config { Config("n", rules, [], [], 0, false, settings) }

  /** The first: settings "s" are delivered, the control plane drops them, and the agent
      restarts unable to read them. Its next poll but one is answered 304 while it still
      holds "s". */
  lemma StaleSettingsCanPass()
    ensures var w0 := Round(Fresh(Plain([], "s"), "n", 0, false), NoFaults(Plain([], "s")));
            var w1 := Next(Next(w0, Publish(Plain([], ""))), Restart("n", true, 0, false, false));
            var w := Next(Round(w1, NoFaults(Plain([], ""))), Ask(NO_ERROR));
            w.flight.Asked? && Decide(w.flight.h, w.served, false, false) == NotModified
            && w.served.settings == "" && w.node.db.settings == "s"
  {
  }

  /** The second: settings "b" come with a config that fails to apply, and the control
      plane takes that config back. The next poll is answered 304 while the node still
      enforces settings "a". */
  lemma OwedSettingsCanPass()
    ensures var block := [Rule("deny", "d", "ads", true)];
            var w0 := Round(Fresh(Plain([], "a"), "n", 0, false), NoFaults(Plain([], "a")));
            var w1 := Round(Next(w0, Publish(Plain(block, "b"))), NoFaults(Plain(block, "b")).(forwarders := true));
            var w := Next(Next(w1, Publish(Plain([], "b"))), Ask(NO_ERROR));
            w.flight.Asked? && Decide(w.flight.h, w.served, false, false) == NotModified
            && w.served.settings == "b" && w.node.db.settings == "b" && w.node.live.settings == "a"
  {
    var block := [Rule("deny", "d", "ads", true)];
    var w0 := Round(Fresh(Plain([], "a"), "n", 0, false), NoFaults(Plain([], "a")));
    assert w0.node.live.settings == "a" && w0.node.mem.version == Some(HashOf(Plain([], "a")));
    assert Rule("deny", "d", "ads", true) in HashOf(Plain(block, "b")).rules;
    assert HashOf(Plain(block, "b")) != HashOf(Plain([], "a"));
  }

  // ---------------------------------------------------------------- convergence

  predicate AllLabelled(rules: seq<Rule>) {
    forall i :: 0 <= i < |rules| ==> rules[i].category != ""
  }

  lemma SnapshotLines(t: Tables, c: Config)
    ensures var u := Replaced(t.(fws := Some(c.fws)), c.rules, c.rewrites);
            ContentOf(u) == Content(multiset(AllNamed(c.rules)), multiset(c.rewrites), multiset(c.fws))
  {
    var u := Replaced(t.(fws := Some(c.fws)), c.rules, c.rewrites);
    assert Values(u.rules) == AllNamed(c.rules);
    assert Values(u.rewrites) == c.rewrites;
  }

  /** The agent stores "custom" for an empty category, which changes the hash. */
  lemma NamingChangesIff(rules: seq<Rule>)
    ensures multiset(AllNamed(rules)) == multiset(rules) <==> AllLabelled(rules)
  {
    if AllLabelled(rules) {
      assert AllNamed(rules) == rules;
    } else {
      var i :| 0 <= i < |rules| && rules[i].category == "";
      assert rules[i] in multiset(rules);
      assert forall r :: r in AllNamed(rules) ==> r.category != "";
      assert rules[i] !in multiset(AllNamed(rules));
    }
  }

  /** Tables that hash like the snapshot hold no rule without a category, and so does the
      snapshot. */
  lemma EqualHashIsLabelled(t: Tables, c: Config)
    requires WellFormed(t) && ContentOf(t) == HashOf(c)
    ensures AllLabelled(c.rules)
  {
    forall i | 0 <= i < |c.rules| ensures c.rules[i].category != "" {
      assert c.rules[i] in multiset(c.rules);
      assert c.rules[i] in Values(t.rules);
    }
  }

  lemma CleanConfigConverges(k: Node, c: Config)
    ensures var m := TakeConfig(k, c, NoFaults(c));
            && m.mem == k.mem.(version := Some(ContentOf(m.db.t))) && m.live.pause == k.live.pause
            && m.live.maint == k.live.maint
            && (ContentOf(m.db.t) == HashOf(c) <==> AllLabelled(c.rules))
  {
    NamingChangesIff(c.rules);
    SnapshotLines(k.db.t, c);
  }

  lemma KnownClean(n: Node)
    requires NodeInv(n)
    ensures var k := Known(n, NO_ERROR);
            WellFormed(k.db.t) && k.mem == n.mem.(version := Some(ContentOf(k.db.t))) && k.live == n.live
  {
    KnownKeeps(n, NO_ERROR);
  }

  /** A full snapshot received without a failure makes the tables hash like it exactly when
      each of its rules has a category; the version then known is the tables'. */
  lemma CleanSyncConverges(n: Node, c: Config)
    requires NodeInv(n)
    ensures var m := Sync(n, c, NoFaults(c));
            && m.mem.version == Some(ContentOf(m.db.t))
            && (ContentOf(m.db.t) == HashOf(c) <==> AllLabelled(c.rules))
            && m.live.pause == c.pause && m.live.maint == c.maint && m.mem.settingsVer == c.settings
            && m.mem.nodeID == TakeState(n, c).mem.nodeID && m.mem.stateApplied
            && m.mem.pause == c.pause && m.mem.maint == c.maint
  {
    var s := TakeSettings(TakeState(n, c), c, false);
    assert NodeInv(s);
    KnownClean(s);
    var k := Known(s, NO_ERROR);
    if k.mem.version == Some(HashOf(c)) {
      EqualHashIsLabelled(k.db.t, c);
    } else {
      CleanConfigConverges(k, c);
    }
  }

  /** The poll after a clean sync is answered 304, if the served configuration did not
      change, exactly when each served rule has a category and the node id is the served
      one. */
  lemma SyncedAnswerIff(n: Node, c: Config, io: Io)
    requires NodeInv(n)
    ensures var m := Sync(n, c, NoFaults(c));
            (Decide(HeadersOf(Known(m, io).mem), c, false, false) == NotModified)
            <==> (AllLabelled(c.rules) && (n.mem.nodeID == "" || n.mem.nodeID == c.nodeID))
  {
    CleanSyncConverges(n, c);
  }

  /** Whatever writes a served rule gives it a category (the rule, list and classifier
      tables default to one). */
  predicate PublishesLabelled(run: seq<Step>) {
    forall i :: 0 <= i < |run| && run[i].Publish? ==> AllLabelled(run[i].c.rules)
  }

  predicate LabelledWorld(w: World) {
    AllLabelled(w.served.rules) && (w.flight.Answered? && w.flight.reply.Full? ==> AllLabelled(w.flight.reply.c.rules))
  }

  lemma {:induction false} RunKeepsLabelled(w: World, run: seq<Step>)
    requires LabelledWorld(w) && PublishesLabelled(run)
    ensures LabelledWorld(After(w, run))
    decreases |run|
  {
    if run != [] {
      assert LabelledWorld(Next(w, run[0]));
      assert PublishesLabelled(run[1..]) by {
        assert forall i :: 0 <= i < |run[1..]| ==> run[1..][i] == run[i + 1];
      }
      RunKeepsLabelled(Next(w, run[0]), run[1..]);
    }
  }

  /** Over every run: once a full snapshot is received without a failure, the tables hash
      like it. */
  lemma Converges(c: Config, id: string, pause: int, maint: bool, run: seq<Step>, snap: Config)
    requires AllLabelled(c.rules) && PublishesLabelled(run)
    requires After(Fresh(c, id, pause, maint), run).flight == Answered(Full(snap))
    ensures var v := Next(After(Fresh(c, id, pause, maint), run), Receive(NoFaults(snap)));
            ContentOf(v.node.db.t) == HashOf(snap) && v.node.mem.version == Some(HashOf(snap))
  {
    FreshInv(c, id, pause, maint);
    RunKeeps(Fresh(c, id, pause, maint), run);
    RunKeepsLabelled(Fresh(c, id, pause, maint), run);
    CleanSyncConverges(After(Fresh(c, id, pause, maint), run).node, snap);
  }

  /** The tables hash like the configuration and its pause and maintenance flag are in force;
      its settings are stored, unless it has none and the agent's start could not read those
      stored (`misread`), and they are in force exactly if none are owed. */
  ghost predicate Holds(n: Node, c: Config, misread: bool) {
    && ContentOf(n.db.t) == Content(multiset(c.rules), multiset(c.rewrites), multiset(c.fws))
    && n.live.pause == c.pause && n.live.maint == c.maint
    && (n.db.settings == c.settings <==> !(misread && c.settings == ""))
    && (n.live.settings == n.db.settings <==> !n.live.owed)
  }

  lemma FullPollHolds(n: Node, c: Config)
    requires NodeInv(n) && AllLabelled(c.rules)
    ensures Holds(Sync(n, c, NoFaults(c)), c, n.mem.misread)
  {
    SyncKeeps(n, c, NoFaults(c));
    CleanSyncConverges(n, c);
    SettingsInForceIff(n, c, NoFaults(c));
  }

  lemma QuietPollHolds(n: Node, c: Config, rotated: bool, unread: bool)
    requires NodeInv(n) && MayBeQuiet(HeadersOf(n.mem), c, rotated, unread)
    ensures Holds(n, c, n.mem.misread)
  {
  }

  /** One poll over every run of labelled rules, whatever the lookup of the version does: asked,
      served and received without a failure it leaves the agent holding what is served. */
  lemma PollConverges(c: Config, id: string, pause: int, maint: bool, run: seq<Step>, io: Io, rotated: bool,
                      unread: bool)
    requires AllLabelled(c.rules) && PublishesLabelled(run) && After(Fresh(c, id, pause, maint), run).flight.Idle?
    ensures var w := After(Fresh(c, id, pause, maint), run);
            var poll := [Ask(io), Serve(rotated, unread), Receive(NoFaults(w.served))];
            var v := After(Fresh(c, id, pause, maint), run + poll);
            v.flight.Idle? && v.served == w.served && Holds(v.node, w.served, w.node.mem.misread)
  {
    FreshInv(c, id, pause, maint);
    RunKeeps(Fresh(c, id, pause, maint), run);
    RunKeepsLabelled(Fresh(c, id, pause, maint), run);
    var w := After(Fresh(c, id, pause, maint), run);
    AskedPollHolds(w, io, rotated, unread);
    var a, b, r := Ask(io), Serve(rotated, unread), Receive(NoFaults(w.served));
    AfterLast(Fresh(c, id, pause, maint), run, a);
    AfterLast(Fresh(c, id, pause, maint), run + [a], b);
    AfterLast(Fresh(c, id, pause, maint), run + [a] + [b], r);
    assert run + [a] + [b] + [r] == run + [a, b, r];
  }

  lemma {:induction false} AfterLast(w: World, run: seq<Step>, s: Step)
    ensures After(w, run + [s]) == Next(After(w, run), s)
    decreases |run|
  {
    if run == [] {
      assert ([] + [s])[1..] == [];
    } else {
      AfterLast(Next(w, run[0]), run[1..], s);
      assert (run + [s])[1..] == run[1..] + [s];
    }
  }

  lemma AskedPollHolds(w: World, io: Io, rotated: bool, unread: bool)
    requires Inv(w) && AllLabelled(w.served.rules) && w.flight.Idle?
    ensures var v := Next(Next(Next(w, Ask(io)), Serve(rotated, unread)), Receive(NoFaults(w.served)));
            v.flight.Idle? && v.served == w.served && Holds(v.node, w.served, w.node.mem.misread)
  {
    var a := Next(w, Ask(io));
    StepKeeps(w, Ask(io));
    AnswerIsOwed(a, rotated, unread);
    if MayBeQuiet(a.flight.h, a.served, rotated, unread) {
      QuietPollHolds(a.node, w.served, rotated, unread);
    } else {
      FullPollHolds(a.node, w.served);
    }
  }

  /** Over every run: and if that is still what is served, the next poll is answered 304
      exactly when the agent had no node id or the served one. */
  lemma NextPollIsQuietIff(c: Config, id: string, pause: int, maint: bool, run: seq<Step>, io: Io)
    requires AllLabelled(c.rules) && PublishesLabelled(run)
    requires var w := After(Fresh(c, id, pause, maint), run); w.flight == Answered(Full(w.served))
    ensures var w := After(Fresh(c, id, pause, maint), run);
            var v := Next(w, Receive(NoFaults(w.served)));
            (Next(Next(v, Ask(io)), Serve(false, false)).flight == Answered(NotModified))
            <==> (w.node.mem.nodeID == "" || w.node.mem.nodeID == w.served.nodeID)
  {
    FreshInv(c, id, pause, maint);
    RunKeeps(Fresh(c, id, pause, maint), run);
    RunKeepsLabelled(Fresh(c, id, pause, maint), run);
    var w := After(Fresh(c, id, pause, maint), run);
    SyncedAnswerIff(w.node, w.served, io);
  }

  /** An agent that re-enrolled under a new id keeps the old one in memory until it
      restarts: it holds the snapshot and is sent it again. */
  lemma ForeignIdIsNotQuiet()
    ensures var c := Plain([], "s");
            var v := Round(Fresh(c, "old", 0, false), NoFaults(c));
            && v.node.mem.version == Some(HashOf(c)) && v.node.mem.nodeID == "old"
            && Next(Next(v, Ask(NO_ERROR)), Serve(false, false)).flight == Answered(Full(c))
  {
  }
}
