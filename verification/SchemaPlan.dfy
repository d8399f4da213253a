/** Plugin schema declarations, their conflicts, and the plan built from them. */
module SchemaPlan {
  import opened Prelude
  import opened Ordering

  datatype FieldSpec = FieldSpec(
    name: string,
    pythonType: string,
    nullable: bool,
    unique: bool,
    initial: Option<string>,
    maxLength: Option<int>,
    indexed: bool,
    references: Option<string>,
    inputAllowed: bool,
    outputAllowed: bool)

  datatype IndexSpec = IndexSpec(name: string, fields: seq<string>, unique: bool)

  datatype MigrationSpec = MigrationSpec(name: string, version: int, description: Option<string>)

  datatype TableSpec = TableSpec(name: string, fields: seq<FieldSpec>, indexes: seq<IndexSpec>)

  datatype PluginSchema = PluginSchema(pluginId: string, tables: seq<TableSpec>, migrations: seq<MigrationSpec>)

  datatype PlannedTable = PlannedTable(pluginId: string, name: string, fields: seq<FieldSpec>, indexes: seq<IndexSpec>)

  datatype PlannedMigration = PlannedMigration(
    pluginId: string,
    name: string,
    version: int,
    description: Option<string>)

  datatype Plan = Plan(tables: seq<PlannedTable>, migrations: seq<PlannedMigration>)

  datatype Conflict =
    | DuplicateTable(table: string, plugins: set<string>)
    | FieldConflict(table: string, field: string, plugins: set<string>)

  datatype PlanResult = Planned(plan: Plan) | Conflicting(conflicts: seq<Conflict>) | Invalid

  // ----- What the declaration models already guarantee -----

  function FieldName(f: FieldSpec): string { f.name }

  function IndexName(i: IndexSpec): string { i.name }

  ghost predicate WellFormedTable(t: TableSpec) {
    DistinctKeys(FieldName, t.fields) && DistinctKeys(IndexName, t.indexes)
  }

  ghost predicate WellFormed(schemas: seq<PluginSchema>) {
    forall s :: s in schemas ==> forall t :: t in s.tables ==> WellFormedTable(t)
  }

  // ----- Sort keys -----

  predicate FieldOrder(a: FieldSpec, b: FieldSpec) { TextAtMost(a.name, b.name) }

  predicate IndexOrder(a: IndexSpec, b: IndexSpec) { TextAtMost(a.name, b.name) }

  predicate TableOrder(a: TableSpec, b: TableSpec) { TextAtMost(a.name, b.name) }

  predicate SchemaOrder(a: PluginSchema, b: PluginSchema) { TextAtMost(a.pluginId, b.pluginId) }

  predicate MigrationOrder(a: MigrationSpec, b: MigrationSpec) {
    a.version < b.version || (a.version == b.version && TextAtMost(a.name, b.name))
  }

  predicate PlannedTableOrder(a: PlannedTable, b: PlannedTable) {
    if a.name != b.name then TextAtMost(a.name, b.name) else TextAtMost(a.pluginId, b.pluginId)
  }

  predicate PlannedMigrationOrder(a: PlannedMigration, b: PlannedMigration) {
    if a.pluginId != b.pluginId then TextAtMost(a.pluginId, b.pluginId)
    else a.version < b.version || (a.version == b.version && TextAtMost(a.name, b.name))
  }

  lemma OrdersAreTotal()
    ensures TotalOrder(FieldOrder) && TotalOrder(IndexOrder) && TotalOrder(TableOrder) && TotalOrder(SchemaOrder)
    ensures TotalOrder(MigrationOrder)
  {
    TextAtMostOrders();
  }

  lemma PlannedOrdersAreTotal()
    ensures TotalOrder(PlannedTableOrder) && TotalOrder(PlannedMigrationOrder)
  {
    TextAtMostOrders();
  }

  // ----- The planned entries of a list of schemas -----

  function PlanTable(pluginId: string): TableSpec -> seq<PlannedTable> {
    (t: TableSpec) => [PlannedTable(pluginId, t.name, Sort(FieldOrder, t.fields), Sort(IndexOrder, t.indexes))]
  }

  function PlanMigration(pluginId: string): MigrationSpec -> seq<PlannedMigration> {
    (m: MigrationSpec) => [PlannedMigration(pluginId, m.name, m.version, m.description)]
  }

  function TablesOf(s: PluginSchema): seq<PlannedTable> { Flatten(PlanTable(s.pluginId), s.tables) }

  function MigrationsOf(s: PluginSchema): seq<PlannedMigration> { Flatten(PlanMigration(s.pluginId), s.migrations) }

  /** The same, as the planner walks them. */
  function SortedTablesOf(s: PluginSchema): seq<PlannedTable> {
    Flatten(PlanTable(s.pluginId), Sort(TableOrder, s.tables))
  }

  function SortedMigrationsOf(s: PluginSchema): seq<PlannedMigration> {
    Flatten(PlanMigration(s.pluginId), Sort(MigrationOrder, s.migrations))
  }

  function AllTables(schemas: seq<PluginSchema>): seq<PlannedTable> { Flatten(TablesOf, schemas) }

  function AllMigrations(schemas: seq<PluginSchema>): seq<PlannedMigration> { Flatten(MigrationsOf, schemas) }

  function WalkedTables(schemas: seq<PluginSchema>): seq<PlannedTable> {
    Flatten(SortedTablesOf, Sort(SchemaOrder, schemas))
  }

  function WalkedMigrations(schemas: seq<PluginSchema>): seq<PlannedMigration> {
    Flatten(SortedMigrationsOf, Sort(SchemaOrder, schemas))
  }

  lemma WalkedTablesAreAll(schemas: seq<PluginSchema>)
    ensures multiset(WalkedTables(schemas)) == multiset(AllTables(schemas))
  {
    OrdersAreTotal();
    SortIsSorted(SchemaOrder, schemas);
    FlattenIgnoresOrder(SortedTablesOf, Sort(SchemaOrder, schemas), schemas);
    forall i | 0 <= i < |schemas| ensures multiset(SortedTablesOf(schemas[i])) == multiset(TablesOf(schemas[i])) {
      SortIsSorted(TableOrder, schemas[i].tables);
      FlattenIgnoresOrder(PlanTable(schemas[i].pluginId), Sort(TableOrder, schemas[i].tables), schemas[i].tables);
    }
    FlattenPointwise(SortedTablesOf, schemas, TablesOf, schemas);
  }

  lemma WalkedMigrationsAreAll(schemas: seq<PluginSchema>)
    ensures multiset(WalkedMigrations(schemas)) == multiset(AllMigrations(schemas))
  {
    OrdersAreTotal();
    SortIsSorted(SchemaOrder, schemas);
    FlattenIgnoresOrder(SortedMigrationsOf, Sort(SchemaOrder, schemas), schemas);
    forall i | 0 <= i < |schemas|
      ensures multiset(SortedMigrationsOf(schemas[i])) == multiset(MigrationsOf(schemas[i]))
    {
      SortIsSorted(MigrationOrder, schemas[i].migrations);
      FlattenIgnoresOrder(PlanMigration(schemas[i].pluginId), Sort(MigrationOrder, schemas[i].migrations),
        schemas[i].migrations);
    }
    FlattenPointwise(SortedMigrationsOf, schemas, MigrationsOf, schemas);
  }

  // ----- Conflicts -----

  function TableName(t: PlannedTable): string { t.name }

  /** The first table of that name. */
  function FirstNamed(ts: seq<PlannedTable>, name: string): Option<PlannedTable>
    decreases |ts|
  {
    if ts == [] then None
    else
      var earlier := FirstNamed(ts[..|ts| - 1], name);
      if earlier.Some? then earlier else if ts[|ts| - 1].name == name then Some(ts[|ts| - 1]) else None
  }

  /** A field that both tables declare, differently. */
  function FieldClash(existing: PlannedTable, t: PlannedTable): FieldSpec -> seq<Conflict> {
    (f: FieldSpec) => if exists e :: e in existing.fields && e.name == f.name && e != f
         then [FieldConflict(t.name, f.name, {existing.pluginId, t.pluginId})] else []
  }

  function Clash(existing: PlannedTable, t: PlannedTable): seq<Conflict> {
    [DuplicateTable(t.name, {existing.pluginId, t.pluginId})] + Flatten(FieldClash(existing, t), t.fields)
  }

  function Conflicts(ts: seq<PlannedTable>): seq<Conflict>
    decreases |ts|
  {
    if ts == [] then []
    else
      var first := FirstNamed(ts[..|ts| - 1], ts[|ts| - 1].name);
      Conflicts(ts[..|ts| - 1]) + if first.Some? then Clash(first.value, ts[|ts| - 1]) else []
  }

  lemma {:induction false} FirstNamedFinds(ts: seq<PlannedTable>, name: string)
    ensures FirstNamed(ts, name).Some? <==> exists i :: 0 <= i < |ts| && ts[i].name == name
    decreases |ts|
  {
    if ts == [] {
    } else {
      FirstNamedFinds(ts[..|ts| - 1], name);
      if ts[|ts| - 1].name != name && exists i :: 0 <= i < |ts| && ts[i].name == name {
        var i :| 0 <= i < |ts| && ts[i].name == name;
        assert ts[..|ts| - 1][i].name == name;
      }
    }
  }

  lemma {:induction false} ConflictsMeanDuplicates(ts: seq<PlannedTable>)
    ensures Conflicts(ts) == [] <==> DistinctKeys(TableName, ts)
    decreases |ts|
  {
    if ts == [] {
    } else {
      var pre, t := ts[..|ts| - 1], ts[|ts| - 1];
      ConflictsMeanDuplicates(pre);
      FirstNamedFinds(pre, t.name);
      DistinctLast(pre, t);
      assert ts == pre + [t];
    }
  }

  lemma DistinctLast(pre: seq<PlannedTable>, t: PlannedTable)
    ensures DistinctKeys(TableName, pre + [t]) <==>
            DistinctKeys(TableName, pre) && !exists i :: 0 <= i < |pre| && pre[i].name == t.name
  {
    if DistinctKeys(TableName, pre + [t]) {
      forall i, j | 0 <= i < j < |pre| ensures TableName(pre[i]) != TableName(pre[j]) {
        assert (pre + [t])[i] == pre[i] && (pre + [t])[j] == pre[j];
      }
      forall i | 0 <= i < |pre| ensures pre[i].name != t.name {
        assert TableName((pre + [t])[i]) != TableName((pre + [t])[|pre|]);
      }
    }
  }

  // ----- What is reported -----

  ghost predicate FirstAt(ts: seq<PlannedTable>, i: int, name: string) {
    0 <= i < |ts| && ts[i].name == name && forall h :: 0 <= h < i ==> ts[h].name != name
  }

  lemma {:induction false} FirstNamedIs(ts: seq<PlannedTable>, name: string, i: int)
    requires FirstAt(ts, i, name)
    ensures FirstNamed(ts, name) == Some(ts[i])
    decreases |ts|
  {
    FirstNamedFinds(ts[..|ts| - 1], name);
    if i == |ts| - 1 {
      assert forall h :: 0 <= h < i ==> ts[..i][h] == ts[h];
    } else {
      assert FirstAt(ts[..|ts| - 1], i, name);
      FirstNamedIs(ts[..|ts| - 1], name, i);
    }
  }

  lemma FirstExists(ts: seq<PlannedTable>, name: string, j: nat)
    requires j < |ts| && ts[j].name == name
    ensures exists i :: FirstAt(ts, i, name) && i <= j
    decreases j
  {
    if h :| 0 <= h < j && ts[h].name == name {
      FirstExists(ts, name, h);
    } else {
      assert FirstAt(ts, j, name);
    }
  }

  /** The table at `j` repeats the name first declared at `i`: the repetition, or a field both declare differently. */
  ghost predicate ClashAt(ts: seq<PlannedTable>, i: int, j: int, c: Conflict) {
    && 0 <= i < j < |ts| && FirstAt(ts, i, ts[j].name)
    && c.table == ts[j].name && c.plugins == {ts[i].pluginId, ts[j].pluginId}
    && (c.FieldConflict? ==>
          exists e, f :: e in ts[i].fields && f in ts[j].fields && e.name == c.field && f.name == c.field && e != f)
  }

  lemma ClashMembers(existing: PlannedTable, t: PlannedTable, c: Conflict)
    ensures c in Clash(existing, t) <==>
              && c.table == t.name && c.plugins == {existing.pluginId, t.pluginId}
              && (c.FieldConflict? ==>
                    exists e, f ::
                      e in existing.fields && f in t.fields && e.name == c.field && f.name == c.field && e != f)
  {
    FlattenMembers(FieldClash(existing, t), t.fields, c);
  }

  /** Exactly the repeated names and the differing fields are reported, with the plugins of the first and this table. */
  lemma {:induction false} ConflictsExactly(ts: seq<PlannedTable>, c: Conflict)
    ensures c in Conflicts(ts) <==> exists i, j :: ClashAt(ts, i, j, c)
    decreases |ts|
  {
    if ts == [] {
    } else {
      var n := |ts| - 1;
      ConflictsExactly(ts[..n], c);
      LastClash(ts, c);
      EarlierClashes(ts, c);
      if i, j :| ClashAt(ts[..n], i, j, c) { assert ClashAt(ts, i, j, c); }
      if i, j :| ClashAt(ts, i, j, c) { assert j == n || ClashAt(ts[..n], i, j, c); }
    }
  }

  lemma EarlierClashes(ts: seq<PlannedTable>, c: Conflict)
    requires ts != []
    ensures forall i, j :: j < |ts| - 1 ==> (ClashAt(ts[..|ts| - 1], i, j, c) <==> ClashAt(ts, i, j, c))
  {
    var pre := ts[..|ts| - 1];
    forall i, j | j < |pre| ensures ClashAt(pre, i, j, c) <==> ClashAt(ts, i, j, c) {
      if 0 <= i < j { assert FirstAt(pre, i, ts[j].name) <==> FirstAt(ts, i, ts[j].name); }
    }
  }

  lemma LastClash(ts: seq<PlannedTable>, c: Conflict)
    requires ts != []
    ensures var n := |ts| - 1; var first := FirstNamed(ts[..n], ts[n].name);
      (first.Some? && c in Clash(first.value, ts[n])) <==> exists i :: ClashAt(ts, i, n, c)
  {
    var n := |ts| - 1;
    var name := ts[n].name;
    FirstNamedFinds(ts[..n], name);
    if FirstNamed(ts[..n], name).Some? {
      var h :| 0 <= h < n && ts[..n][h].name == name;
      FirstExists(ts[..n], name, h);
      var i :| FirstAt(ts[..n], i, name);
      FirstNamedIs(ts[..n], name, i);
      ClashMembers(ts[i], ts[n], c);
      assert FirstAt(ts, i, name);
      forall k | FirstAt(ts, k, name) ensures k == i { assert k < i || i < k || k == i; }
      assert c in Clash(ts[i], ts[n]) <==> ClashAt(ts, i, n, c);
    } else {
      forall i | 0 <= i < n ensures ts[i].name != name { assert ts[..n][i] == ts[i]; }
    }
  }

  /** The dictionary of the tables seen so far. */
  ghost predicate Tabulates(byName: map<string, PlannedTable>, walked: seq<PlannedTable>) {
    forall name :: FirstNamed(walked, name) == if name in byName then Some(byName[name]) else None
  }

  method FindInTable(table: PlannedTable, byName: map<string, PlannedTable>, conflicts: seq<Conflict>,
                     ghost walked: seq<PlannedTable>)
    returns (newByName: map<string, PlannedTable>, newConflicts: seq<Conflict>)
    requires Tabulates(byName, walked) && conflicts == Conflicts(walked)
    ensures Tabulates(newByName, walked + [table]) && newConflicts == Conflicts(walked + [table])
  {
    assert (walked + [table])[..|walked|] == walked;
    if table.name !in byName {
      return byName[table.name := table], conflicts;
    }
    return byName, conflicts + Clash(byName[table.name], table);
  }

  method FindInSchema(schema: PluginSchema, byName: map<string, PlannedTable>, conflicts: seq<Conflict>,
                      ghost walked: seq<PlannedTable>)
    returns (newByName: map<string, PlannedTable>, newConflicts: seq<Conflict>)
    requires Tabulates(byName, walked) && conflicts == Conflicts(walked)
    ensures Tabulates(newByName, walked + SortedTablesOf(schema)) &&
            newConflicts == Conflicts(walked + SortedTablesOf(schema))
  {
    newByName, newConflicts := byName, conflicts;
    var tables := Sort(TableOrder, schema.tables);
    ghost var seen := walked;
    for j := 0 to |tables|
      invariant seen == walked + Flatten(PlanTable(schema.pluginId), tables[..j])
      invariant Tabulates(newByName, seen) && newConflicts == Conflicts(seen)
    {
      var table := PlanTable(schema.pluginId)(tables[j])[0];
      newByName, newConflicts := FindInTable(table, newByName, newConflicts, seen);
      FlattenNext(PlanTable(schema.pluginId), tables, j);
      seen := seen + [table];
    }
    assert tables[..|tables|] == tables;
  }

  /** There is no conflict exactly when all table names are distinct across all schemas. */
  method FindSchemaConflicts(schemas: seq<PluginSchema>) returns (conflicts: seq<Conflict>)
    ensures conflicts == Conflicts(WalkedTables(schemas))
    ensures conflicts == [] <==> DistinctKeys(TableName, AllTables(schemas))
  {
    conflicts := [];
    var byName: map<string, PlannedTable> := map[];
    var ordered := Sort(SchemaOrder, schemas);
    for i := 0 to |ordered|
      invariant Tabulates(byName, Flatten(SortedTablesOf, ordered[..i]))
      invariant conflicts == Conflicts(Flatten(SortedTablesOf, ordered[..i]))
    {
      byName, conflicts := FindInSchema(ordered[i], byName, conflicts, Flatten(SortedTablesOf, ordered[..i]));
      FlattenNext(SortedTablesOf, ordered, i);
    }
    assert ordered[..|ordered|] == ordered;
    ConflictsMeanDuplicates(WalkedTables(schemas));
    WalkedTablesAreAll(schemas);
    DistinctEither(WalkedTables(schemas), AllTables(schemas));
  }

  lemma DistinctEither(xs: seq<PlannedTable>, ys: seq<PlannedTable>)
    requires multiset(xs) == multiset(ys)
    ensures DistinctKeys(TableName, xs) <==> DistinctKeys(TableName, ys)
  {
    if DistinctKeys(TableName, xs) { DistinctIgnoresOrder(TableName, xs, ys); }
    if DistinctKeys(TableName, ys) { DistinctIgnoresOrder(TableName, ys, xs); }
  }
}
