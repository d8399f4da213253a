/** The ledger of applied plugin migrations: what is pending against it, and the executors that fill it. */
module Ledger {
  import opened Prelude
  import opened Ordering
  import opened SchemaPlan

  type Key = (string, int)

  /** What a fingerprint hashes: the migration and the plugin's planned tables. The hash is taken as injective. */
  datatype Fingerprint = Fingerprint(migration: PlannedMigration, tables: seq<PlannedTable>)

  datatype Mark = Mark(name: string, fingerprint: Fingerprint)

  type Records = map<Key, Mark>

  function KeyOf(m: PlannedMigration): Key { (m.pluginId, m.version) }

  function OwnTables(tables: seq<PlannedTable>, pluginId: string): seq<PlannedTable> {
    if tables == [] then []
    else (if tables[0].pluginId == pluginId then [tables[0]] else []) + OwnTables(tables[1..], pluginId)
  }

  function MarkOf(plan: Plan, m: PlannedMigration): Mark {
    Mark(m.name, Fingerprint(m, OwnTables(plan.tables, m.pluginId)))
  }

  /** A plan's validator lets no two migrations share a plugin and version. */
  ghost predicate ValidPlan(plan: Plan) {
    forall i, j :: 0 <= i < j < |plan.migrations| ==> KeyOf(plan.migrations[i]) != KeyOf(plan.migrations[j])
  }

  function Keys(ms: seq<PlannedMigration>): set<Key> { set m | m in ms :: KeyOf(m) }

  // ----- Pending migrations -----

  datatype Pending = Diverged(unknown: Key) | Mismatch(culprit: Key) | Pending(migrations: seq<PlannedMigration>)

  /** The migration of the plugin's highest version. */
  predicate IsLatest(ms: seq<PlannedMigration>, m: PlannedMigration) {
    m in ms && forall o :: o in ms && o.pluginId == m.pluginId ==> o.version <= m.version
  }

  predicate Matches(plan: Plan, records: Records, m: PlannedMigration) {
    KeyOf(m) in records ==> records[KeyOf(m)] == MarkOf(plan, m)
  }

  function Unrecorded(ms: seq<PlannedMigration>, records: Records): seq<PlannedMigration>
    decreases |ms|
  {
    if ms == [] then []
    else
      Unrecorded(ms[..|ms| - 1], records) + if KeyOf(ms[|ms| - 1]) in records then [] else [ms[|ms| - 1]]
  }

  lemma {:induction false} UnrecordedMembers(ms: seq<PlannedMigration>, records: Records)
    ensures forall m :: m in Unrecorded(ms, records) <==> m in ms && KeyOf(m) !in records
    decreases |ms|
  {
    if ms == [] {
    } else {
      UnrecordedMembers(ms[..|ms| - 1], records);
      assert ms == ms[..|ms| - 1] + [ms[|ms| - 1]];
    }
  }

  ghost predicate LatestMatch(plan: Plan, records: Records) {
    forall m :: IsLatest(plan.migrations, m) ==> Matches(plan, records, m)
  }

  /** Unknown records first, then changed latest migrations; only the latest of each plugin is compared. */
  ghost predicate IsPending(plan: Plan, records: Records, p: Pending) {
    if records.Keys <= Keys(plan.migrations) then
      if LatestMatch(plan, records) then p == Pending(Unrecorded(plan.migrations, records))
      else p.Mismatch? && IsFirstMismatch(plan, records, p.culprit)
    else
      && p.Diverged? && p.unknown in records && p.unknown !in Keys(plan.migrations)
      && forall k :: k in records && k !in Keys(plan.migrations) ==> KeyAtMost(p.unknown, k)
  }

  /** Keys sort by plugin, then by version. */
  predicate KeyAtMost(a: Key, b: Key) { if a.0 != b.0 then TextAtMost(a.0, b.0) else a.1 <= b.1 }

  /** A record the plan does not know is always reported: the least of them by plugin id, then by version. */
  lemma UnknownIsReported(plan: Plan, records: Records, p: Pending, k: Key)
    requires IsPending(plan, records, p) && k in records && forall m :: m in plan.migrations ==> KeyOf(m) != k
    ensures p.Diverged? && p.unknown in records && forall m :: m in plan.migrations ==> KeyOf(m) != p.unknown
    ensures k == p.unknown || TextLess(p.unknown.0, k.0) || (p.unknown.0 == k.0 && p.unknown.1 < k.1)
  {
    assert k !in Keys(plan.migrations);
    TextTotal(p.unknown.0, k.0);
  }

  /** The latest migration of the plugin that entry `i` belongs to. */
  ghost function LatestLike(ms: seq<PlannedMigration>, i: nat): PlannedMigration
    requires i < |ms|
  {
    LatestExists(ms, ms[i].pluginId, i);
    var m :| IsLatest(ms, m) && m.pluginId == ms[i].pluginId;
    m
  }

  lemma {:induction false} LatestExists(ms: seq<PlannedMigration>, p: string, i: nat)
    requires i < |ms| && ms[i].pluginId == p
    ensures exists m :: IsLatest(ms, m) && m.pluginId == p
    decreases |ms|
  {
    var pre, last := ms[..|ms| - 1], ms[|ms| - 1];
    assert ms == pre + [last];
    if j :| 0 <= j < |pre| && pre[j].pluginId == p {
      LatestExists(pre, p, j);
      var m :| IsLatest(pre, m) && m.pluginId == p;
      assert IsLatest(ms, if last.pluginId == p && last.version > m.version then last else m);
    } else {
      assert last.pluginId == p && IsLatest(ms, last);
    }
  }

  /** Plugins are compared in the order in which the plan first names them. */
  ghost predicate FirstMismatch(plan: Plan, records: Records, i: int) {
    && 0 <= i < |plan.migrations| && !Matches(plan, records, LatestLike(plan.migrations, i))
    && forall j :: 0 <= j < i ==> Matches(plan, records, LatestLike(plan.migrations, j))
  }

  ghost predicate IsFirstMismatch(plan: Plan, records: Records, k: Key) {
    exists i :: FirstMismatch(plan, records, i) && KeyOf(LatestLike(plan.migrations, i)) == k
  }

  method LatestByPlugin(ms: seq<PlannedMigration>) returns (latest: map<string, PlannedMigration>)
    ensures forall p :: p in latest <==> exists m :: m in ms && m.pluginId == p
    ensures forall p :: p in latest ==> latest[p].pluginId == p && IsLatest(ms, latest[p])
  {
    latest := map[];
    for i := 0 to |ms|
      invariant forall p :: p in latest <==> exists m :: m in ms[..i] && m.pluginId == p
      invariant forall p :: p in latest ==> latest[p].pluginId == p && IsLatest(ms[..i], latest[p])
    {
      var m := ms[i];
      assert ms[..i + 1] == ms[..i] + [m];
      if m.pluginId !in latest || latest[m.pluginId].version < m.version { latest := latest[m.pluginId := m]; }
    }
    assert ms[..|ms|] == ms;
  }

  method PendingMigrations(plan: Plan, records: Records) returns (p: Pending)
    requires ValidPlan(plan)
    ensures IsPending(plan, records, p)
  {
    var unknown := records.Keys - Keys(plan.migrations);
    if unknown != {} {
      var least := LeastKey(unknown);
      return Diverged(least);
    }
    forall k | k in records.Keys ensures k in Keys(plan.migrations) { assert k !in unknown; }
    var culprit := ChangedLatest(plan, records);
    if culprit.Some? { return Mismatch(culprit.value); }
    var pending := NotRecorded(plan.migrations, records);
    return Pending(pending);
  }

  method NotRecorded(ms: seq<PlannedMigration>, records: Records) returns (pending: seq<PlannedMigration>)
    ensures pending == Unrecorded(ms, records)
  {
    pending := [];
    for i := 0 to |ms|
      invariant pending == Unrecorded(ms[..i], records)
    {
      assert ms[..i + 1][..i] == ms[..i];
      if KeyOf(ms[i]) !in records { pending := pending + [ms[i]]; }
    }
    assert ms[..|ms|] == ms;
  }

  method LeastKey(ks: set<Key>) returns (least: Key)
    requires ks != {}
    ensures least in ks && forall k :: k in ks ==> KeyAtMost(least, k)
  {
    TextAtMostOrders();
    least :| least in ks;
    var todo := ks - {least};
    while todo != {}
      invariant todo <= ks && least in ks
      invariant forall k :: k in ks && k !in todo ==> KeyAtMost(least, k)
      decreases |todo|
    {
      var k :| k in todo;
      if !KeyAtMost(least, k) { least := k; }
      todo := todo - {k};
    }
  }

  method ChangedLatest(plan: Plan, records: Records) returns (culprit: Option<Key>)
    requires ValidPlan(plan)
    ensures culprit.None? <==> LatestMatch(plan, records)
    ensures culprit.Some? ==> IsFirstMismatch(plan, records, culprit.value)
  {
    var ms := plan.migrations;
    var latest := LatestByPlugin(ms);
    for i := 0 to |ms|
      invariant forall j :: 0 <= j < i ==> Matches(plan, records, LatestLike(ms, j))
    {
      var m := latest[ms[i].pluginId];
      LatestIsUnique(plan, m, LatestLike(ms, i));
      if !Matches(plan, records, m) {
        MismatchShows(plan, records, i);
        return Some(KeyOf(m));
      }
    }
    forall m | IsLatest(ms, m) ensures Matches(plan, records, m) {
      var i :| 0 <= i < |ms| && ms[i] == m;
      LatestIsUnique(plan, m, LatestLike(ms, i));
    }
    return None;
  }

  lemma MismatchShows(plan: Plan, records: Records, i: nat)
    requires i < |plan.migrations| && !Matches(plan, records, LatestLike(plan.migrations, i))
    ensures !LatestMatch(plan, records)
  {
    assert IsLatest(plan.migrations, LatestLike(plan.migrations, i));
  }

  lemma LatestIsUnique(plan: Plan, a: PlannedMigration, b: PlannedMigration)
    requires ValidPlan(plan) && IsLatest(plan.migrations, a) && IsLatest(plan.migrations, b) && a.pluginId == b.pluginId
    ensures a == b
  {
    SameKeySame(plan, a, b);
  }

  // ----- Only the latest fingerprint of a plugin is compared -----

  const FIRST := PlannedMigration("audit", "initial", 1, None)

  const SECOND := PlannedMigration("audit", "widen", 2, None)

  const TWO_VERSIONS := Plan([], [FIRST, SECOND])

  /** A ledger whose older record was made from another description, and bears another name. */
  const CHANGED_OLDER: Records :=
    map[("audit", 1) := Mark("draft", Fingerprint(FIRST.(description := Some("draft")), [])),
        ("audit", 2) := MarkOf(TWO_VERSIONS, SECOND)]

  /** The older record does not match the plan, and still nothing is pending and nothing is reported. */
  lemma OlderChangeIsAccepted()
    ensures ValidPlan(TWO_VERSIONS) && !Matches(TWO_VERSIONS, CHANGED_OLDER, FIRST)
    ensures IsPending(TWO_VERSIONS, CHANGED_OLDER, Pending([]))
  {
    var ms := TWO_VERSIONS.migrations;
    assert ms == [FIRST, SECOND] && FIRST in ms && SECOND in ms;
    forall k | k in CHANGED_OLDER ensures k in Keys(ms) { assert k == KeyOf(FIRST) || k == KeyOf(SECOND); }
    forall m | IsLatest(ms, m) ensures m == SECOND { assert SECOND.version <= m.version; }
    AllRecorded(ms, CHANGED_OLDER);
  }

  // ----- A plugin's tables are part of its fingerprint -----

  lemma {:induction false} OwnTablesMembers(tables: seq<PlannedTable>, pluginId: string)
    ensures forall t :: t in OwnTables(tables, pluginId) <==> t in tables && t.pluginId == pluginId
  {
    if tables == [] {
    } else {
      OwnTablesMembers(tables[1..], pluginId);
      assert tables == [tables[0]] + tables[1..];
    }
  }

  /**
   A ledger written under one plan is reported as changed under another with the same migrations, as soon as a table
   of some plugin with a migration was added, removed or altered.
   */
  lemma TableChangeIsReported(was: Plan, plan: Plan, latest: PlannedMigration, t: PlannedTable, p: Pending)
    requires ValidPlan(was) && was.migrations == plan.migrations && IsLatest(plan.migrations, latest)
    requires t.pluginId == latest.pluginId && (t in was.tables <==> t !in plan.tables)
    requires IsPending(plan, Completed(was, map[]), p)
    ensures p.Mismatch?
  {
    OwnTablesMembers(was.tables, latest.pluginId);
    OwnTablesMembers(plan.tables, latest.pluginId);
    MarkIsUnique(was, map[], latest);
    assert !Matches(plan, Completed(was, map[]), latest);
    assert Completed(was, map[]).Keys == Keys(plan.migrations);
  }

  /** A change to the tables of other plugins leaves a migration's mark as it was. */
  lemma {:induction false} OtherTablesDoNotCount(xs: seq<PlannedTable>, t: PlannedTable, ys: seq<PlannedTable>,
                                                 pluginId: string)
    requires t.pluginId != pluginId
    ensures OwnTables(xs + [t] + ys, pluginId) == OwnTables(xs + ys, pluginId)
  {
    if xs == [] {
      assert [] + [t] + ys == [t] + ys && [] + ys == ys;
    } else {
      assert (xs + [t] + ys)[1..] == xs[1..] + [t] + ys && (xs + ys)[1..] == xs[1..] + ys;
      OtherTablesDoNotCount(xs[1..], t, ys, pluginId);
    }
  }

  // ----- The finished ledger -----

  /** What was recorded stays as it was; everything else in the plan is recorded with its mark. */
  ghost function Completed(plan: Plan, records: Records): Records {
    map k | k in records.Keys + Keys(plan.migrations) ::
      if k in records then records[k]
      else var m :| m in plan.migrations && KeyOf(m) == k; MarkOf(plan, m)
  }

  ghost predicate Compatible(plan: Plan, records: Records) {
    records.Keys <= Keys(plan.migrations) && LatestMatch(plan, records)
  }

  /** A finished ledger has exactly the plan's keys, and nothing is pending against it: a check passes. */
  lemma CompletedIsFinal(plan: Plan, records: Records, p: Pending)
    requires ValidPlan(plan) && Compatible(plan, records) && IsPending(plan, Completed(plan, records), p)
    ensures Completed(plan, records).Keys == Keys(plan.migrations) && p == Pending([])
  {
    var done := Completed(plan, records);
    forall m | IsLatest(plan.migrations, m) ensures Matches(plan, done, m) {
      if KeyOf(m) !in records { MarkIsUnique(plan, records, m); }
    }
    AllRecorded(plan.migrations, done);
  }

  lemma {:induction false} AllRecorded(ms: seq<PlannedMigration>, records: Records)
    requires forall m :: m in ms ==> KeyOf(m) in records
    ensures Unrecorded(ms, records) == []
    decreases |ms|
  {
    if ms == [] {
    } else {
      AllRecorded(ms[..|ms| - 1], records);
    }
  }

  lemma MarkIsUnique(plan: Plan, records: Records, m: PlannedMigration)
    requires ValidPlan(plan) && m in plan.migrations && KeyOf(m) !in records
    ensures KeyOf(m) in Completed(plan, records) && Completed(plan, records)[KeyOf(m)] == MarkOf(plan, m)
  {
    forall o | o in plan.migrations && KeyOf(o) == KeyOf(m) ensures o == m {
      var i :| 0 <= i < |plan.migrations| && plan.migrations[i] == m;
      var j :| 0 <= j < |plan.migrations| && plan.migrations[j] == o;
    }
  }

  // ----- The locked executor -----

  datatype Mode = Disabled | Check | Apply

  datatype Outcome =
    | Applied(migrations: seq<PlannedMigration>)
    | InvalidPlan
    | LedgerDiverged(unknown: Key)
    | FingerprintMismatch(culprit: Key)
    | StillPending(migrations: seq<PlannedMigration>)

  function Refusal(p: Pending): Outcome
    requires !p.Pending?
  {
    if p.Diverged? then LedgerDiverged(p.unknown) else FingerprintMismatch(p.culprit)
  }

  class PostgresLedger {
    var created: bool
    var records: Records

    ghost predicate Valid()
      reads this
    {
      !created ==> records == map[]
    }

    constructor ()
      ensures Valid() && !created
    {
      created, records := false, map[];
    }

    /** One transaction under the migration lock. */
    method Execute(plan: Plan, mode: Mode) returns (r: Outcome)
      requires ValidPlan(plan) && Valid()
      modifies this
      ensures Valid()
      ensures mode.Disabled? ==> r == Applied([]) && records == old(records)
      ensures !mode.Disabled? && plan.tables != [] && plan.migrations == [] ==>
              r.InvalidPlan? && records == old(records)
      ensures !mode.Disabled? && !(plan.tables != [] && plan.migrations == []) ==>
                exists p :: IsPending(plan, old(records), p) && (
                  if !p.Pending? then r == Refusal(p) && records == old(records)
                  else if mode.Check? && p.migrations != []
                  then r == StillPending(p.migrations) && records == old(records)
                  else r == Applied(p.migrations) && records == Completed(plan, old(records)))
    {
      if mode.Disabled? { return Applied([]); }
      if plan.tables != [] && plan.migrations == [] { return InvalidPlan; }
      var loaded := if created then records else map[];
      var p := PendingMigrations(plan, loaded);
      if !p.Pending? { return Refusal(p); }
      if p.migrations == [] { NothingPending(plan, records); return Applied([]); }
      if mode.Check? { return StillPending(p.migrations); }
      created := true;
      for i := 0 to |p.migrations|
        invariant created && records == Recorded(plan, loaded, p.migrations[..i])
      {
        assert p.migrations[..i + 1][..i] == p.migrations[..i];
        records := records[KeyOf(p.migrations[i]) := MarkOf(plan, p.migrations[i])];
      }
      assert p.migrations[..|p.migrations|] == p.migrations;
      RecordedCompletes(plan, loaded);
      return Applied(p.migrations);
    }
  }

  function Recorded(plan: Plan, records: Records, ms: seq<PlannedMigration>): Records
    decreases |ms|
  {
    if ms == [] then records
    else Recorded(plan, records, ms[..|ms| - 1])[KeyOf(ms[|ms| - 1]) := MarkOf(plan, ms[|ms| - 1])]
  }

  lemma NothingPending(plan: Plan, records: Records)
    requires Unrecorded(plan.migrations, records) == []
    ensures Completed(plan, records) == records
  {
    UnrecordedMembers(plan.migrations, records);
    forall m | m in plan.migrations ensures KeyOf(m) in records {
      assert m !in Unrecorded(plan.migrations, records);
    }
  }

  lemma {:induction false} RecordedKeys(plan: Plan, records: Records, ms: seq<PlannedMigration>)
    ensures Recorded(plan, records, ms).Keys == records.Keys + Keys(ms)
    ensures forall k :: k in records && k !in Keys(ms) ==> Recorded(plan, records, ms)[k] == records[k]
    decreases |ms|
  {
    if ms == [] {
    } else {
      RecordedKeys(plan, records, ms[..|ms| - 1]);
      assert ms == ms[..|ms| - 1] + [ms[|ms| - 1]];
      assert Keys(ms) == Keys(ms[..|ms| - 1]) + {KeyOf(ms[|ms| - 1])};
    }
  }

  lemma {:induction false} RecordedMark(plan: Plan, records: Records, ms: seq<PlannedMigration>, m: PlannedMigration)
    requires m in ms && forall o :: o in ms && KeyOf(m) == KeyOf(o) ==> m == o
    ensures KeyOf(m) in Recorded(plan, records, ms) && Recorded(plan, records, ms)[KeyOf(m)] == MarkOf(plan, m)
    decreases |ms|
  {
    var pre, last := ms[..|ms| - 1], ms[|ms| - 1];
    if KeyOf(last) != KeyOf(m) {
      assert ms == pre + [last];
      RecordedMark(plan, records, pre, m);
    }
  }

  lemma RecordedCompletes(plan: Plan, records: Records)
    requires ValidPlan(plan) && records.Keys <= Keys(plan.migrations)
    ensures Recorded(plan, records, Unrecorded(plan.migrations, records)) == Completed(plan, records)
  {
    var pending := Unrecorded(plan.migrations, records);
    var done := Recorded(plan, records, pending);
    RecordedKeys(plan, records, pending);
    PendingKeys(plan, records);
    forall m | m in plan.migrations && KeyOf(m) !in records
      ensures KeyOf(m) in done && done[KeyOf(m)] == MarkOf(plan, m)
    {
      RecordedPending(plan, records, m);
    }
    IsCompleted(plan, records, done);
  }

  lemma PendingKeys(plan: Plan, records: Records)
    ensures Keys(Unrecorded(plan.migrations, records)) == Keys(plan.migrations) - records.Keys
  {
    UnrecordedMembers(plan.migrations, records);
    forall k | k in Keys(plan.migrations) && k !in records ensures k in Keys(Unrecorded(plan.migrations, records)) {
      var m :| m in plan.migrations && KeyOf(m) == k;
      assert m in Unrecorded(plan.migrations, records);
    }
  }

  lemma IsCompleted(plan: Plan, records: Records, done: Records)
    requires ValidPlan(plan)
    requires done.Keys == records.Keys + Keys(plan.migrations)
    requires forall k :: k in records ==> done[k] == records[k]
    requires forall m :: m in plan.migrations && KeyOf(m) !in records ==>
             KeyOf(m) in done && done[KeyOf(m)] == MarkOf(plan, m)
    ensures done == Completed(plan, records)
  {
    forall k | k in done ensures done[k] == Completed(plan, records)[k] {
      if k !in records {
        var m :| m in plan.migrations && KeyOf(m) == k;
        MarkIsUnique(plan, records, m);
      }
    }
  }

  lemma RecordedPending(plan: Plan, records: Records, m: PlannedMigration)
    requires ValidPlan(plan) && m in plan.migrations && KeyOf(m) !in records
    ensures var done := Recorded(plan, records, Unrecorded(plan.migrations, records));
      KeyOf(m) in done && done[KeyOf(m)] == MarkOf(plan, m)
  {
    var pending := Unrecorded(plan.migrations, records);
    UnrecordedMembers(plan.migrations, records);
    forall o | o in pending && KeyOf(m) == KeyOf(o) ensures m == o { SameKeySame(plan, m, o); }
    RecordedMark(plan, records, pending, m);
  }

  lemma SameKeySame(plan: Plan, m: PlannedMigration, o: PlannedMigration)
    requires ValidPlan(plan) && m in plan.migrations && o in plan.migrations && KeyOf(m) == KeyOf(o)
    ensures m == o
  {
    var i :| 0 <= i < |plan.migrations| && plan.migrations[i] == m;
    var j :| 0 <= j < |plan.migrations| && plan.migrations[j] == o;
  }

  // ----- The Mongo executor -----

  /** Records other executors insert before each of this one's inserts. */
  type Rivals = seq<seq<(Key, Mark)>>

  ghost predicate Honest(plan: Plan, rs: seq<(Key, Mark)>) {
    forall r :: r in rs ==> exists m :: m in plan.migrations && r == (KeyOf(m), MarkOf(plan, m))
  }

  /** The records only grow, within the plan, and with the plan's marks. */
  ghost predicate Grown(plan: Plan, was: Records, records: Records) {
    && was.Keys <= records.Keys <= Keys(plan.migrations)
    && (forall k :: k in was ==> records[k] == was[k])
    && (forall m :: m in plan.migrations && KeyOf(m) in records && KeyOf(m) !in was ==>
         records[KeyOf(m)] == MarkOf(plan, m))
  }

  lemma GrownByOne(plan: Plan, was: Records, records: Records, m: PlannedMigration)
    requires ValidPlan(plan) && Grown(plan, was, records) && m in plan.migrations && KeyOf(m) !in records
    ensures Grown(plan, was, records[KeyOf(m) := MarkOf(plan, m)])
  {
    forall o | o in plan.migrations && KeyOf(o) == KeyOf(m) ensures o == m { SameKeySame(plan, o, m); }
  }

  class MongoLedger {
    var records: Records

    constructor ()
      ensures records == map[]
    {
      records := map[];
    }

    /** insert_one under the unique index on (plugin, version). */
    method InsertOne(k: Key, mark: Mark) returns (inserted: bool)
      modifies this
      ensures inserted <==> k !in old(records)
      ensures records == if inserted then old(records)[k := mark] else old(records)
    {
      inserted := k !in records;
      if inserted { records := records[k := mark]; }
    }

    method InsertRivals(plan: Plan, rs: seq<(Key, Mark)>, ghost was: Records)
      requires ValidPlan(plan)
      modifies this
      ensures rs == [] ==> records == old(records)
      ensures old(records).Keys <= records.Keys
      ensures Grown(plan, was, old(records)) && Honest(plan, rs) ==> Grown(plan, was, records)
    {
      for i := 0 to |rs|
        invariant rs == [] ==> records == old(records)
        invariant old(records).Keys <= records.Keys
        invariant Grown(plan, was, old(records)) && Honest(plan, rs) ==> Grown(plan, was, records)
      {
        ghost var before := records;
        var landed := InsertOne(rs[i].0, rs[i].1);
        if landed && Grown(plan, was, old(records)) && Honest(plan, rs) {
          assert rs[i] in rs;
          ghost var m :| m in plan.migrations && rs[i] == (KeyOf(m), MarkOf(plan, m));
          GrownByOne(plan, was, before, m);
        }
      }
    }

    /** One migration; a record that is already there must be the same. */
    method InsertMigration(plan: Plan, m: PlannedMigration, rs: seq<(Key, Mark)>,
                           ghost was: Records) returns (inserted: bool, clash: bool)
      requires ValidPlan(plan) && m in plan.migrations && KeyOf(m) !in was
      modifies this
      ensures old(records).Keys <= records.Keys && KeyOf(m) in records
      ensures Grown(plan, was, old(records)) && Honest(plan, rs) ==> Grown(plan, was, records) && !clash
    {
      InsertRivals(plan, rs, was);
      if Grown(plan, was, records) && KeyOf(m) !in records { GrownByOne(plan, was, records, m); }
      inserted := InsertOne(KeyOf(m), MarkOf(plan, m));
      clash := !inserted && records[KeyOf(m)] != MarkOf(plan, m);
    }

    /** Inserts what is pending. Rivals that apply the same plan leave the ledger complete all the same. */
    method InsertPending(plan: Plan, pending: seq<PlannedMigration>, rivals: Rivals) returns (r: Outcome)
      requires ValidPlan(plan) && |rivals| == |pending|
      requires pending == Unrecorded(plan.migrations, records) && records.Keys <= Keys(plan.migrations)
      modifies this
      ensures (forall rs :: rs in rivals ==> Honest(plan, rs)) ==>
                r.Applied? && records == Completed(plan, old(records)) && forall m :: m in r.migrations ==> m in pending
    {
      ghost var was := records;
      ghost var honest := forall rs :: rs in rivals ==> Honest(plan, rs);
      UnrecordedMembers(plan.migrations, was);
      var applied: seq<PlannedMigration> := [];
      for i := 0 to |pending|
        invariant forall j :: 0 <= j < i ==> KeyOf(pending[j]) in records
        invariant honest ==> Grown(plan, was, records)
        invariant forall m :: m in applied ==> m in pending
      {
        assert pending[i] in pending && rivals[i] in rivals;
        var inserted, clash := InsertMigration(plan, pending[i], rivals[i], was);
        if clash { return FingerprintMismatch(KeyOf(pending[i])); }
        if inserted { applied := applied + [pending[i]]; }
      }
      if honest { GrownCompletes(plan, was, records); }
      return Applied(applied);
    }
  }

  lemma GrownCompletes(plan: Plan, was: Records, records: Records)
    requires ValidPlan(plan) && Grown(plan, was, records)
    requires forall j :: 0 <= j < |Unrecorded(plan.migrations, was)| ==>
             KeyOf(Unrecorded(plan.migrations, was)[j]) in records
    ensures records == Completed(plan, was)
  {
    UnrecordedMembers(plan.migrations, was);
    forall m | m in plan.migrations ensures KeyOf(m) in records {
      if KeyOf(m) !in was { assert m in Unrecorded(plan.migrations, was); }
    }
    IsCompleted(plan, was, records);
  }
}
