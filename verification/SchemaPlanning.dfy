/** Building the plan, and why it does not depend on the order of any declaration. */
module SchemaPlanning {
  import opened Prelude
  import opened Ordering
  import opened SchemaPlan

  function NameKey(m: PlannedMigration): (string, string) { (m.pluginId, m.name) }

  function VersionKey(m: PlannedMigration): (string, int) { (m.pluginId, m.version) }

  predicate IndexesDeclared(t: PlannedTable) {
    forall x :: x in t.indexes ==> forall f :: f in x.fields ==> exists d :: d in t.fields && d.name == f
  }

  ghost predicate TablesDistinct(schemas: seq<PluginSchema>) { DistinctKeys(TableName, AllTables(schemas)) }

  ghost predicate MigrationsDistinct(ms: seq<PlannedMigration>) {
    DistinctKeys(NameKey, ms) && DistinctKeys(VersionKey, ms)
  }

  ghost predicate AllIndexesDeclared(ts: seq<PlannedTable>) { forall t :: t in ts ==> IndexesDeclared(t) }

  ghost predicate Plannable(schemas: seq<PluginSchema>) {
    TablesDistinct(schemas) && AllIndexesDeclared(AllTables(schemas)) && MigrationsDistinct(AllMigrations(schemas))
  }

  function PlanFor(schemas: seq<PluginSchema>): Plan {
    Plan(Sort(PlannedTableOrder, AllTables(schemas)), Sort(PlannedMigrationOrder, AllMigrations(schemas)))
  }

  // ----- Order does not matter to lists of distinct entries -----

  lemma SortTablesEither(xs: seq<PlannedTable>, ys: seq<PlannedTable>)
    requires multiset(xs) == multiset(ys) && DistinctKeys(TableName, xs)
    ensures Sort(PlannedTableOrder, xs) == Sort(PlannedTableOrder, ys)
  {
    PlannedOrdersAreTotal();
    TextAtMostOrders();
    forall i, j | 0 <= i < |xs| && 0 <= j < |xs| && PlannedTableOrder(xs[i], xs[j]) && PlannedTableOrder(xs[j], xs[i])
      ensures xs[i] == xs[j]
    {
      assert TableName(xs[i]) == TableName(xs[j]);
    }
    SortIgnoresOrder(PlannedTableOrder, xs, ys);
  }

  lemma SortMigrationsEither(xs: seq<PlannedMigration>, ys: seq<PlannedMigration>)
    requires multiset(xs) == multiset(ys) && DistinctKeys(NameKey, xs)
    ensures Sort(PlannedMigrationOrder, xs) == Sort(PlannedMigrationOrder, ys)
  {
    PlannedOrdersAreTotal();
    TextAtMostOrders();
    forall i, j | 0 <= i < |xs| && 0 <= j < |xs| && PlannedMigrationOrder(xs[i], xs[j]) &&
        PlannedMigrationOrder(xs[j], xs[i])
      ensures xs[i] == xs[j]
    {
      assert NameKey(xs[i]) == NameKey(xs[j]);
    }
    SortIgnoresOrder(PlannedMigrationOrder, xs, ys);
  }

  lemma MigrationsDistinctEither(xs: seq<PlannedMigration>, ys: seq<PlannedMigration>)
    requires multiset(xs) == multiset(ys)
    ensures MigrationsDistinct(xs) <==> MigrationsDistinct(ys)
  {
    if MigrationsDistinct(xs) { DistinctIgnoresOrder(NameKey, xs, ys); DistinctIgnoresOrder(VersionKey, xs, ys); }
    if MigrationsDistinct(ys) { DistinctIgnoresOrder(NameKey, ys, xs); DistinctIgnoresOrder(VersionKey, ys, xs); }
  }

  lemma IndexesDeclaredEither(xs: seq<PlannedTable>, ys: seq<PlannedTable>)
    requires multiset(xs) == multiset(ys)
    ensures AllIndexesDeclared(xs) <==> AllIndexesDeclared(ys)
  {
    forall t: PlannedTable ensures t in xs <==> t in ys { assert t in xs <==> t in multiset(xs); }
  }

  // ----- Building -----

  /** The plan's own validator. */
  method UniqueEntries(plan: Plan) returns (ok: bool)
    ensures ok <==> DistinctKeys(TableName, plan.tables) && MigrationsDistinct(plan.migrations)
  {
    var tables: set<string> := {};
    for i := 0 to |plan.tables|
      invariant DistinctKeys(TableName, plan.tables[..i])
      invariant forall k :: k in tables <==> exists j :: 0 <= j < i && TableName(plan.tables[j]) == k
    {
      if plan.tables[i].name in tables { return false; }
      tables := tables + {plan.tables[i].name};
    }
    assert plan.tables[..|plan.tables|] == plan.tables;
    ok := UniqueMigrations(plan.migrations);
  }

  method UniqueMigrations(ms: seq<PlannedMigration>) returns (ok: bool)
    ensures ok <==> MigrationsDistinct(ms)
  {
    var names: set<(string, string)>, versions: set<(string, int)> := {}, {};
    for i := 0 to |ms|
      invariant MigrationsDistinct(ms[..i])
      invariant forall k :: k in names <==> exists j :: 0 <= j < i && NameKey(ms[j]) == k
      invariant forall k :: k in versions <==> exists j :: 0 <= j < i && VersionKey(ms[j]) == k
    {
      if (ms[i].pluginId, ms[i].name) in names { return false; }
      names := names + {(ms[i].pluginId, ms[i].name)};
      if (ms[i].pluginId, ms[i].version) in versions { return false; }
      versions := versions + {(ms[i].pluginId, ms[i].version)};
    }
    assert ms[..|ms|] == ms;
    return true;
  }

  /** The tables of one schema, checked as they are planned. */
  method PlanTables(schema: PluginSchema) returns (tables: Option<seq<PlannedTable>>)
    ensures tables == if forall t :: t in SortedTablesOf(schema) ==> IndexesDeclared(t)
                      then Some(SortedTablesOf(schema)) else None
  {
    var planned: seq<PlannedTable> := [];
    var ordered := Sort(TableOrder, schema.tables);
    for i := 0 to |ordered|
      invariant planned == Flatten(PlanTable(schema.pluginId), ordered[..i])
      invariant AllIndexesDeclared(planned)
    {
      var t := PlanTable(schema.pluginId)(ordered[i])[0];
      FlattenNext(PlanTable(schema.pluginId), ordered, i);
      if !IndexesDeclared(t) {
        Included(PlanTable(schema.pluginId), ordered, i, t);
        return None;
      }
      planned := planned + [t];
    }
    assert ordered[..|ordered|] == ordered;
    return Some(planned);
  }

  lemma Included<T, U>(f: T -> seq<U>, xs: seq<T>, i: nat, u: U)
    requires i < |xs| && u in f(xs[i])
    ensures u in Flatten(f, xs)
  {
    assert xs == xs[..i] + [xs[i]] + xs[i + 1..];
    FlattenAround(f, xs[..i], xs[i], xs[i + 1..]);
  }

  /** The walk over all schemas, in plugin order. */
  method WalkSchemas(schemas: seq<PluginSchema>) returns (plan: Option<Plan>)
    ensures plan == if AllIndexesDeclared(WalkedTables(schemas))
                    then Some(Plan(WalkedTables(schemas), WalkedMigrations(schemas))) else None
  {
    var tables: seq<PlannedTable>, migrations: seq<PlannedMigration> := [], [];
    var ordered := Sort(SchemaOrder, schemas);
    for i := 0 to |ordered|
      invariant tables == Flatten(SortedTablesOf, ordered[..i])
      invariant migrations == Flatten(SortedMigrationsOf, ordered[..i])
      invariant AllIndexesDeclared(tables)
    {
      var more := PlanTables(ordered[i]);
      if more.None? {
        var t :| t in SortedTablesOf(ordered[i]) && !IndexesDeclared(t);
        Included(SortedTablesOf, ordered, i, t);
        return None;
      }
      FlattenNext(SortedTablesOf, ordered, i);
      FlattenNext(SortedMigrationsOf, ordered, i);
      tables := tables + more.value;
      migrations := migrations + SortedMigrationsOf(ordered[i]);
    }
    assert ordered[..|ordered|] == ordered;
    return Some(Plan(tables, migrations));
  }

  method BuildSchemaPlan(schemas: seq<PluginSchema>) returns (r: PlanResult)
    ensures r.Conflicting? <==> !TablesDistinct(schemas)
    ensures r.Conflicting? ==> r.conflicts == Conflicts(WalkedTables(schemas))
    ensures r.Planned? <==> Plannable(schemas)
    ensures r.Planned? ==> r.plan == PlanFor(schemas)
  {
    var conflicts := FindSchemaConflicts(schemas);
    if conflicts != [] { return Conflicting(conflicts); }
    WalkedTablesAreAll(schemas);
    WalkedMigrationsAreAll(schemas);
    IndexesDeclaredEither(WalkedTables(schemas), AllTables(schemas));
    var walked := WalkSchemas(schemas);
    if walked.None? { return Invalid; }
    var plan := Plan(Sort(PlannedTableOrder, walked.value.tables),
        Sort(PlannedMigrationOrder, walked.value.migrations));
    Finished(schemas);
    var ok := UniqueEntries(plan);
    return if ok then Planned(plan) else Invalid;
  }

  lemma Finished(schemas: seq<PluginSchema>)
    requires TablesDistinct(schemas)
    ensures var plan := Plan(Sort(PlannedTableOrder, WalkedTables(schemas)),
            Sort(PlannedMigrationOrder, WalkedMigrations(schemas)));
      && plan.tables == PlanFor(schemas).tables && DistinctKeys(TableName, plan.tables)
      && (MigrationsDistinct(plan.migrations) <==> MigrationsDistinct(AllMigrations(schemas)))
      && (MigrationsDistinct(plan.migrations) ==> plan.migrations == PlanFor(schemas).migrations)
  {
    WalkedTablesAreAll(schemas);
    WalkedMigrationsAreAll(schemas);
    PlannedOrdersAreTotal();
    SortIsSorted(PlannedTableOrder, WalkedTables(schemas));
    SortIsSorted(PlannedMigrationOrder, WalkedMigrations(schemas));
    SortTablesEither(AllTables(schemas), WalkedTables(schemas));
    DistinctEither(AllTables(schemas), Sort(PlannedTableOrder, WalkedTables(schemas)));
    MigrationsDistinctEither(Sort(PlannedMigrationOrder, WalkedMigrations(schemas)), AllMigrations(schemas));
    if MigrationsDistinct(AllMigrations(schemas)) {
      SortMigrationsEither(AllMigrations(schemas), WalkedMigrations(schemas));
    }
  }

  // ----- Reordered declarations -----

  /** The same table, with its fields and its indexes declared in any order. */
  ghost predicate SameTable(a: TableSpec, b: TableSpec) {
    a.name == b.name && multiset(a.fields) == multiset(b.fields) && multiset(a.indexes) == multiset(b.indexes)
  }

  ghost predicate SameTables(xs: seq<TableSpec>, ys: seq<TableSpec>) {
    |xs| == |ys| && forall i :: 0 <= i < |xs| ==> SameTable(xs[i], ys[i])
  }

  /** The same schema, with tables, their parts and migrations in any order. */
  ghost predicate SameSchema(a: PluginSchema, b: PluginSchema) {
    && a.pluginId == b.pluginId && multiset(a.migrations) == multiset(b.migrations)
    && exists ts :: SameTables(a.tables, ts) && multiset(ts) == multiset(b.tables)
  }

  ghost predicate Alike(xs: seq<PluginSchema>, ys: seq<PluginSchema>) {
    |xs| == |ys| && forall i :: 0 <= i < |xs| ==> SameSchema(xs[i], ys[i])
  }

  /** The same schemas, everything in any order. */
  ghost predicate SameSchemas(xs: seq<PluginSchema>, ys: seq<PluginSchema>) {
    exists mid :: Alike(xs, mid) && multiset(mid) == multiset(ys)
  }

  lemma SameTablePlansSame(id: string, a: TableSpec, b: TableSpec)
    requires SameTable(a, b) && WellFormedTable(a)
    ensures PlanTable(id)(a) == PlanTable(id)(b)
  {
    OrdersAreTotal();
    TextAtMostOrders();
    forall i, j | 0 <= i < |a.fields| && 0 <= j < |a.fields| && FieldOrder(a.fields[i], a.fields[j]) &&
        FieldOrder(a.fields[j], a.fields[i])
      ensures a.fields[i] == a.fields[j]
    {
      assert FieldName(a.fields[i]) == FieldName(a.fields[j]);
    }
    SortIgnoresOrder(FieldOrder, a.fields, b.fields);
    forall i, j | 0 <= i < |a.indexes| && 0 <= j < |a.indexes| && IndexOrder(a.indexes[i], a.indexes[j]) &&
        IndexOrder(a.indexes[j], a.indexes[i])
      ensures a.indexes[i] == a.indexes[j]
    {
      assert IndexName(a.indexes[i]) == IndexName(a.indexes[j]);
    }
    SortIgnoresOrder(IndexOrder, a.indexes, b.indexes);
  }

  lemma SameSchemaPlansSame(a: PluginSchema, b: PluginSchema)
    requires SameSchema(a, b) && forall t :: t in a.tables ==> WellFormedTable(t)
    ensures multiset(TablesOf(a)) == multiset(TablesOf(b)) && multiset(MigrationsOf(a)) == multiset(MigrationsOf(b))
  {
    var ts :| SameTables(a.tables, ts) && multiset(ts) == multiset(b.tables);
    forall i | 0 <= i < |ts| ensures PlanTable(a.pluginId)(a.tables[i]) == PlanTable(a.pluginId)(ts[i]) {
      SameTablePlansSame(a.pluginId, a.tables[i], ts[i]);
    }
    FlattenPointwise(PlanTable(a.pluginId), a.tables, PlanTable(a.pluginId), ts);
    FlattenIgnoresOrder(PlanTable(a.pluginId), ts, b.tables);
    FlattenIgnoresOrder(PlanMigration(a.pluginId), a.migrations, b.migrations);
  }

  lemma SameSchemasPlanSame(xs: seq<PluginSchema>, ys: seq<PluginSchema>)
    requires SameSchemas(xs, ys) && WellFormed(xs)
    ensures multiset(AllTables(xs)) == multiset(AllTables(ys)) &&
            multiset(AllMigrations(xs)) == multiset(AllMigrations(ys))
  {
    var mid :| Alike(xs, mid) && multiset(mid) == multiset(ys);
    forall i | 0 <= i < |xs|
      ensures multiset(TablesOf(xs[i])) == multiset(TablesOf(mid[i])) &&
              multiset(MigrationsOf(xs[i])) == multiset(MigrationsOf(mid[i]))
    {
      SameSchemaPlansSame(xs[i], mid[i]);
    }
    FlattenPointwise(TablesOf, xs, TablesOf, mid);
    FlattenPointwise(MigrationsOf, xs, MigrationsOf, mid);
    FlattenIgnoresOrder(TablesOf, mid, ys);
    FlattenIgnoresOrder(MigrationsOf, mid, ys);
  }

  /** Planning is canonical: reordering declarations changes neither whether there is a plan nor the plan. */
  lemma PlanningIsCanonical(xs: seq<PluginSchema>, ys: seq<PluginSchema>)
    requires SameSchemas(xs, ys) && WellFormed(xs)
    ensures TablesDistinct(xs) <==> TablesDistinct(ys)
    ensures Plannable(xs) <==> Plannable(ys)
    ensures Plannable(xs) ==> PlanFor(xs) == PlanFor(ys)
  {
    SameSchemasPlanSame(xs, ys);
    DistinctEither(AllTables(xs), AllTables(ys));
    IndexesDeclaredEither(AllTables(xs), AllTables(ys));
    MigrationsDistinctEither(AllMigrations(xs), AllMigrations(ys));
    if Plannable(xs) {
      SortTablesEither(AllTables(xs), AllTables(ys));
      SortMigrationsEither(AllMigrations(xs), AllMigrations(ys));
    }
  }

  // ----- The order of a plan -----

  /**
   A plan's tables are in the order of their names, and its migrations plugin by plugin, each plugin's by version;
   every table's fields and indexes are in the order of their names.
   */
  lemma PlanIsOrdered(schemas: seq<PluginSchema>, i: nat, j: nat)
    requires Plannable(schemas) && i < j
    ensures var plan := PlanFor(schemas);
            && (j < |plan.tables| ==> TextLess(plan.tables[i].name, plan.tables[j].name))
            && (j < |plan.migrations| && plan.migrations[i].pluginId == plan.migrations[j].pluginId ==>
                  plan.migrations[i].version < plan.migrations[j].version)
            && (j < |plan.migrations| && plan.migrations[i].pluginId != plan.migrations[j].pluginId ==>
                  TextLess(plan.migrations[i].pluginId, plan.migrations[j].pluginId))
  {
    var plan := PlanFor(schemas);
    PlannedOrdersAreTotal();
    SortIsSorted(PlannedTableOrder, AllTables(schemas));
    SortIsSorted(PlannedMigrationOrder, AllMigrations(schemas));
    DistinctIgnoresOrder(TableName, AllTables(schemas), plan.tables);
    DistinctIgnoresOrder(VersionKey, AllMigrations(schemas), plan.migrations);
    if j < |plan.tables| {
      assert TableName(plan.tables[i]) != TableName(plan.tables[j]);
      TextTotal(plan.tables[i].name, plan.tables[j].name);
    }
    if j < |plan.migrations| {
      assert VersionKey(plan.migrations[i]) != VersionKey(plan.migrations[j]);
      TextTotal(plan.migrations[i].pluginId, plan.migrations[j].pluginId);
    }
  }

  lemma PlannedTableIsOrdered(id: string, t: TableSpec, i: nat, j: nat)
    requires WellFormedTable(t) && i < j
    ensures var planned := PlanTable(id)(t)[0];
            && (j < |planned.fields| ==> TextLess(planned.fields[i].name, planned.fields[j].name))
            && (j < |planned.indexes| ==> TextLess(planned.indexes[i].name, planned.indexes[j].name))
            && multiset(planned.fields) == multiset(t.fields) && multiset(planned.indexes) == multiset(t.indexes)
  {
    var planned := PlanTable(id)(t)[0];
    OrdersAreTotal();
    SortIsSorted(FieldOrder, t.fields);
    SortIsSorted(IndexOrder, t.indexes);
    DistinctIgnoresOrder(FieldName, t.fields, planned.fields);
    DistinctIgnoresOrder(IndexName, t.indexes, planned.indexes);
    if j < |planned.fields| {
      assert FieldName(planned.fields[i]) != FieldName(planned.fields[j]);
      TextTotal(planned.fields[i].name, planned.fields[j].name);
    }
    if j < |planned.indexes| {
      assert IndexName(planned.indexes[i]) != IndexName(planned.indexes[j]);
      TextTotal(planned.indexes[i].name, planned.indexes[j].name);
    }
  }

  /** A plan holds the planned form of every declared table, and no other table. */
  lemma PlanHoldsTables(schemas: seq<PluginSchema>, t: PlannedTable)
    requires Plannable(schemas)
    ensures t in PlanFor(schemas).tables <==>
              exists s, d :: s in schemas && d in s.tables && t in PlanTable(s.pluginId)(d)
  {
    PlannedOrdersAreTotal();
    SortIsSorted(PlannedTableOrder, AllTables(schemas));
    assert t in PlanFor(schemas).tables <==> t in multiset(PlanFor(schemas).tables);
    FlattenMembers(TablesOf, schemas, t);
    if s :| s in schemas && t in TablesOf(s) {
      FlattenMembers(PlanTable(s.pluginId), s.tables, t);
    }
    if s, d :| s in schemas && d in s.tables && t in PlanTable(s.pluginId)(d) {
      FlattenMembers(PlanTable(s.pluginId), s.tables, t);
    }
  }

  lemma PlannedTableKeeps(id: string, d: TableSpec, t: PlannedTable)
    requires t in PlanTable(id)(d)
    ensures t.pluginId == id && t.name == d.name
    ensures multiset(t.fields) == multiset(d.fields) && multiset(t.indexes) == multiset(d.indexes)
  {
    OrdersAreTotal();
    SortIsSorted(FieldOrder, d.fields);
    SortIsSorted(IndexOrder, d.indexes);
  }

  predicate Declares(s: PluginSchema, d: MigrationSpec, m: PlannedMigration) {
    m.pluginId == s.pluginId && m.name == d.name && m.version == d.version && m.description == d.description
  }

  /** And a migration for every declared one, under its plugin's id, and no other. */
  lemma PlanHoldsMigrations(schemas: seq<PluginSchema>, m: PlannedMigration)
    requires Plannable(schemas)
    ensures m in PlanFor(schemas).migrations <==>
              exists s, d :: s in schemas && d in s.migrations && Declares(s, d, m)
  {
    PlannedOrdersAreTotal();
    SortIsSorted(PlannedMigrationOrder, AllMigrations(schemas));
    assert m in PlanFor(schemas).migrations <==> m in multiset(PlanFor(schemas).migrations);
    FlattenMembers(MigrationsOf, schemas, m);
    if s :| s in schemas && m in MigrationsOf(s) {
      FlattenMembers(PlanMigration(s.pluginId), s.migrations, m);
      var d :| d in s.migrations && m in PlanMigration(s.pluginId)(d);
      assert Declares(s, d, m);
    }
    if s, d :| s in schemas && d in s.migrations && Declares(s, d, m) {
      assert m in PlanMigration(s.pluginId)(d);
      FlattenMembers(PlanMigration(s.pluginId), s.migrations, m);
    }
  }

  /** An index over a field its table does not declare makes the declarations unplannable. */
  lemma UndeclaredIndexFieldIsRefused(schemas: seq<PluginSchema>, s: PluginSchema, d: TableSpec, x: IndexSpec,
                                      f: string)
    requires s in schemas && d in s.tables && x in d.indexes && f in x.fields
    requires forall field :: field in d.fields ==> field.name != f
    ensures !Plannable(schemas)
  {
    var t := PlanTable(s.pluginId)(d)[0];
    FlattenMembers(PlanTable(s.pluginId), s.tables, t);
    FlattenMembers(TablesOf, schemas, t);
    PlannedTableKeeps(s.pluginId, d, t);
    assert x in multiset(t.indexes);
    assert forall field :: field in t.fields ==> field in multiset(d.fields);
    assert t in AllTables(schemas) && !IndexesDeclared(t);
  }
}
