/** Mongo executors of one plan, any number of them, interleaved database call by database call. */
module LedgerRuns {
  import opened SchemaPlan
  import opened Ledger

  datatype Executor =
    | Idle
    | Looked(existed: bool)
    | Preparing(pending: seq<PlannedMigration>)
    | Inserting(pending: seq<PlannedMigration>, next: nat, applied: seq<PlannedMigration>)
    | Clashed(pending: seq<PlannedMigration>, next: nat, applied: seq<PlannedMigration>)
    | Finished(applied: seq<PlannedMigration>)
    | Failed

  /** `owner` is history: which executor inserted each record. */
  datatype State = State(created: bool, records: Records, executors: map<nat, Executor>, owner: map<Key, nat>)

  function At(s: State, p: nat): Executor { if p in s.executors then s.executors[p] else Idle }

  function Becomes(s: State, p: nat, x: Executor): State { s.(executors := s.executors[p := x]) }

  // ----- One call of one executor -----

  function Look(s: State, p: nat): State { Becomes(s, p, Looked(s.created)) }

  ghost function Load(plan: Plan, s: State, p: nat): State
    requires At(s, p).Looked?
  {
    var loaded := if At(s, p).existed then s.records else map[];
    var pending := Unrecorded(plan.migrations, loaded);
    var x := if !Compatible(plan, loaded) then Failed else if pending == [] then Finished([]) else Preparing(pending);
    Becomes(s, p, x)
  }

  /** Creates the ledger, its unique index and the plugin collections, where they are missing. */
  function Prepare(s: State, p: nat): State
    requires At(s, p).Preparing?
  {
    Becomes(s, p, Inserting(At(s, p).pending, 0, [])).(created := true)
  }

  /** The unique index lets one insert of a key through. */
  function Insert(plan: Plan, s: State, p: nat): State
    requires At(s, p).Inserting?
  {
    var x := At(s, p);
    if x.next >= |x.pending| then Becomes(s, p, Finished(x.applied))
    else
      var m := x.pending[x.next];
      if KeyOf(m) in s.records then Becomes(s, p, Clashed(x.pending, x.next, x.applied))
      else
        Becomes(s, p, Inserting(x.pending, x.next + 1, x.applied + [m]))
          .(records := s.records[KeyOf(m) := MarkOf(plan, m)], owner := s.owner[KeyOf(m) := p])
  }

  /** After a duplicate key: another executor's record must be the same. */
  function Compare(plan: Plan, s: State, p: nat): State
    requires At(s, p).Clashed?
  {
    var x := At(s, p);
    if x.next < |x.pending| && KeyOf(x.pending[x.next]) in s.records &&
        s.records[KeyOf(x.pending[x.next])] == MarkOf(plan, x.pending[x.next])
    then Becomes(s, p, Inserting(x.pending, x.next + 1, x.applied))
    else Becomes(s, p, Failed)
  }

  ghost function Next(plan: Plan, s: State, p: nat): State {
    if At(s, p).Idle? then Look(s, p)
    else if At(s, p).Looked? then Load(plan, s, p)
    else if At(s, p).Preparing? then Prepare(s, p)
    else if At(s, p).Inserting? then Insert(plan, s, p)
    else if At(s, p).Clashed? then Compare(plan, s, p)
    else s
  }

  ghost function Exec(plan: Plan, s: State, ps: seq<nat>): State
    decreases |ps|
  {
    if ps == [] then s else Next(plan, Exec(plan, s, ps[..|ps| - 1]), ps[|ps| - 1])
  }

  // ----- What every step keeps -----

  function AppliedBy(x: Executor): seq<PlannedMigration> {
    if x.Inserting? then x.applied else if x.Clashed? then x.applied else if x.Finished? then x.applied else []
  }

  ghost predicate Todo(plan: Plan, was: Records, records: Records, pending: seq<PlannedMigration>, next: nat) {
    && next <= |pending|
    && (forall m :: m in pending ==> m in plan.migrations && KeyOf(m) !in was)
    && (forall m :: m in plan.migrations ==> KeyOf(m) in records || m in pending)
    && (forall i :: 0 <= i < next ==> KeyOf(pending[i]) in records)
  }

  ghost predicate Sound(plan: Plan, was: Records, records: Records, x: Executor) {
    if x.Looked? then x.existed || was == map[]
    else if x.Preparing? then Todo(plan, was, records, x.pending, 0)
    else if x.Inserting? then Todo(plan, was, records, x.pending, x.next)
    else if x.Clashed? then
      Todo(plan, was, records, x.pending, x.next) && x.next < |x.pending| && KeyOf(x.pending[x.next]) in records
    else if x.Finished? then Keys(plan.migrations) <= records.Keys
    else x.Idle?
  }

  ghost predicate Owned(was: Records, s: State) {
    && s.owner.Keys == s.records.Keys - was.Keys
    && (forall p :: forall m :: m in AppliedBy(At(s, p)) ==> KeyOf(m) in s.owner && s.owner[KeyOf(m)] == p)
    && (forall k :: k in s.owner ==> k in Keys(AppliedBy(At(s, s.owner[k]))))
  }

  /** Only an executor that has prepared the database writes to it. */
  predicate Writes(x: Executor) { x.Inserting? || x.Clashed? }

  ghost predicate Inv(plan: Plan, was: Records, s: State) {
    && (!s.created ==> s.records == map[] && forall p :: !Writes(At(s, p)))
    && Grown(plan, was, s.records)
    && (forall p :: Sound(plan, was, s.records, At(s, p)))
    && Owned(was, s)
  }

  /** A step that writes no record and answers with none keeps the invariant if it leaves its executor sound. */
  lemma QuietKeeps(plan: Plan, was: Records, s: State, t: State, p: nat)
    requires Inv(plan, was, s)
    requires t.records == s.records && t.owner == s.owner && (s.created ==> t.created) &&
             (Writes(At(t, p)) ==> t.created)
    requires forall q :: q != p ==> At(t, q) == At(s, q)
    requires AppliedBy(At(t, p)) == AppliedBy(At(s, p)) && Sound(plan, was, s.records, At(t, p))
    ensures Inv(plan, was, t)
  {
    assert forall q :: AppliedBy(At(t, q)) == AppliedBy(At(s, q));
  }

  lemma LoadedCompatible(plan: Plan, was: Records, s: State, existed: bool)
    requires ValidPlan(plan) && Compatible(plan, was) && Inv(plan, was, s) && (existed || was == map[])
    ensures Compatible(plan, if existed then s.records else map[])
  {
    forall m | IsLatest(plan.migrations, m) && existed ensures Matches(plan, s.records, m) {
      assert Matches(plan, was, m);
    }
  }

  lemma LoadSound(plan: Plan, was: Records, records: Records, loaded: Records)
    requires was.Keys <= loaded.Keys <= records.Keys
    ensures Todo(plan, was, records, Unrecorded(plan.migrations, loaded), 0)
    ensures Unrecorded(plan.migrations, loaded) == [] ==> Keys(plan.migrations) <= records.Keys
  {
    UnrecordedMembers(plan.migrations, loaded);
  }

  lemma LoadKeeps(plan: Plan, was: Records, s: State, p: nat)
    requires ValidPlan(plan) && Compatible(plan, was) && Inv(plan, was, s) && At(s, p).Looked?
    ensures Inv(plan, was, Load(plan, s, p)) && !At(Load(plan, s, p), p).Failed?
  {
    assert Sound(plan, was, s.records, At(s, p));
    var loaded := if At(s, p).existed then s.records else map[];
    LoadedCompatible(plan, was, s, At(s, p).existed);
    LoadSound(plan, was, s.records, loaded);
    QuietKeeps(plan, was, s, Load(plan, s, p), p);
  }

  lemma InsertKeeps(plan: Plan, was: Records, s: State, p: nat)
    requires ValidPlan(plan) && Inv(plan, was, s) && At(s, p).Inserting?
    ensures Inv(plan, was, Insert(plan, s, p))
  {
    var x, t := At(s, p), Insert(plan, s, p);
    assert Sound(plan, was, s.records, x);
    if x.next >= |x.pending| {
      AllInserted(plan, was, s.records, x.pending);
      QuietKeeps(plan, was, s, t, p);
    } else if KeyOf(x.pending[x.next]) in s.records {
      QuietKeeps(plan, was, s, t, p);
    } else {
      InsertNewKeeps(plan, was, s, p);
    }
  }

  lemma InsertNewKeeps(plan: Plan, was: Records, s: State, p: nat)
    requires ValidPlan(plan) && Inv(plan, was, s) && At(s, p).Inserting? && At(s, p).next < |At(s, p).pending|
    requires KeyOf(At(s, p).pending[At(s, p).next]) !in s.records
    ensures Inv(plan, was, Insert(plan, s, p))
  {
    var x, t := At(s, p), Insert(plan, s, p);
    var m := x.pending[x.next];
    assert Sound(plan, was, s.records, x) && m in x.pending;
    InsertShape(plan, s, p);
    InsertGrows(plan, was, s, m);
    InsertOwned(was, s, t, p, m);
    InsertSound(plan, was, s, t, p);
    assert Writes(x);
  }

  lemma InsertShape(plan: Plan, s: State, p: nat)
    requires At(s, p).Inserting? && At(s, p).next < |At(s, p).pending|
    requires KeyOf(At(s, p).pending[At(s, p).next]) !in s.records
    ensures var x, t := At(s, p), Insert(plan, s, p); var m := x.pending[x.next];
      && At(t, p) == Inserting(x.pending, x.next + 1, x.applied + [m])
      && (forall q :: q != p ==> At(t, q) == At(s, q))
      && t.records == s.records[KeyOf(m) := MarkOf(plan, m)]
      && t.owner == s.owner[KeyOf(m) := p] && t.created == s.created
  {
  }

  lemma AllInserted(plan: Plan, was: Records, records: Records, pending: seq<PlannedMigration>)
    requires Todo(plan, was, records, pending, |pending|)
    ensures Keys(plan.migrations) <= records.Keys
  {
    forall m | m in plan.migrations ensures KeyOf(m) in records {
      assert m in pending ==> exists i :: 0 <= i < |pending| && pending[i] == m;
    }
  }

  lemma InsertSound(plan: Plan, was: Records, s: State, t: State, p: nat)
    requires At(s, p).Inserting? && At(s, p).next < |At(s, p).pending|
    requires forall q :: Sound(plan, was, s.records, At(s, q))
    requires forall q :: q != p ==> At(t, q) == At(s, q)
    requires t.records.Keys == s.records.Keys + {KeyOf(At(s, p).pending[At(s, p).next])}
    requires var x := At(s, p); At(t, p) == Inserting(x.pending, x.next + 1, x.applied + [x.pending[x.next]])
    ensures forall q :: Sound(plan, was, t.records, At(t, q))
  {
    forall q ensures Sound(plan, was, t.records, At(t, q)) {
      assert Sound(plan, was, s.records, At(s, q));
      SoundGrows(plan, was, s.records, t.records, At(s, q));
    }
  }

  lemma SoundGrows(plan: Plan, was: Records, records: Records, more: Records, x: Executor)
    requires Sound(plan, was, records, x) && records.Keys <= more.Keys
    ensures Sound(plan, was, more, x)
  {
  }

  lemma InsertGrows(plan: Plan, was: Records, s: State, m: PlannedMigration)
    requires ValidPlan(plan) && Inv(plan, was, s) && m in plan.migrations && KeyOf(m) !in s.records
    ensures Grown(plan, was, s.records[KeyOf(m) := MarkOf(plan, m)])
  {
    forall o | o in plan.migrations && KeyOf(o) == KeyOf(m) ensures o == m { SameKeySame(plan, o, m); }
  }

  lemma InsertOwned(was: Records, s: State, t: State, p: nat, m: PlannedMigration)
    requires Owned(was, s) && KeyOf(m) !in s.records && KeyOf(m) !in was
    requires t.records.Keys == s.records.Keys + {KeyOf(m)} && t.owner == s.owner[KeyOf(m) := p]
    requires forall q :: q != p ==> At(t, q) == At(s, q)
    requires AppliedBy(At(t, p)) == AppliedBy(At(s, p)) + [m]
    ensures Owned(was, t)
  {
    assert KeyOf(m) !in s.owner;
    forall q, o | o in AppliedBy(At(t, q)) ensures KeyOf(o) in t.owner && t.owner[KeyOf(o)] == q {
      assert o in AppliedBy(At(s, q)) || (q == p && o == m);
    }
    forall k | k in t.owner ensures k in Keys(AppliedBy(At(t, t.owner[k]))) {
      if k == KeyOf(m) {
        assert m in AppliedBy(At(t, p));
      } else {
        var o :| o in AppliedBy(At(s, s.owner[k])) && KeyOf(o) == k;
        assert o in AppliedBy(At(t, s.owner[k]));
      }
    }
  }

  /** The clashing record is not one the ledger began with, so it bears the plan's own mark. */
  lemma ClashAgrees(plan: Plan, was: Records, s: State, p: nat)
    requires Inv(plan, was, s) && At(s, p).Clashed?
    ensures var x := At(s, p);
      Compare(plan, s, p) == Becomes(s, p, Inserting(x.pending, x.next + 1, x.applied))
      && Todo(plan, was, s.records, x.pending, x.next + 1)
  {
    var x := At(s, p);
    assert Sound(plan, was, s.records, x);
    assert x.pending[x.next] in x.pending;
  }

  lemma CompareKeeps(plan: Plan, was: Records, s: State, p: nat)
    requires Inv(plan, was, s) && At(s, p).Clashed?
    ensures Inv(plan, was, Compare(plan, s, p))
  {
    ClashAgrees(plan, was, s, p);
    var t := Compare(plan, s, p);
    assert forall q :: q != p ==> At(t, q) == At(s, q);
    QuietKeeps(plan, was, s, t, p);
  }

  lemma NextKeeps(plan: Plan, was: Records, s: State, p: nat)
    requires ValidPlan(plan) && Compatible(plan, was) && Inv(plan, was, s)
    ensures Inv(plan, was, Next(plan, s, p))
  {
    assert Sound(plan, was, s.records, At(s, p));
    if At(s, p).Looked? { LoadKeeps(plan, was, s, p); }
    else if At(s, p).Inserting? { InsertKeeps(plan, was, s, p); }
    else if At(s, p).Clashed? { CompareKeeps(plan, was, s, p); }
    else { QuietKeeps(plan, was, s, Next(plan, s, p), p); }
  }

  /** Executors start on a ledger that the plan explains, or on none at all. */
  ghost predicate Init(plan: Plan, s: State) {
    Compatible(plan, s.records) && (!s.created ==> s.records == map[]) && s.executors == map[] && s.owner == map[]
  }

  lemma {:induction false} RunKeeps(plan: Plan, s: State, ps: seq<nat>)
    requires ValidPlan(plan) && Init(plan, s)
    ensures Inv(plan, s.records, Exec(plan, s, ps))
    decreases |ps|
  {
    if ps == [] {
    } else {
      RunKeeps(plan, s, ps[..|ps| - 1]);
      NextKeeps(plan, s.records, Exec(plan, s, ps[..|ps| - 1]), ps[|ps| - 1]);
    }
  }

  // ----- What any interleaving ends in -----

  /**
   No executor ever fails. As soon as one of them is finished the ledger is complete, with exactly the plan's keys,
   and equal to what the locked executor would have written.
   */
  lemma ConcurrentExecutorsComplete(plan: Plan, s: State, ps: seq<nat>, p: nat)
    requires ValidPlan(plan) && Init(plan, s)
    ensures var t := Exec(plan, s, ps);
      && !At(t, p).Failed?
      && (At(t, p).Finished? ==> t.records == Completed(plan, s.records) && t.records.Keys == Keys(plan.migrations))
  {
    RunKeeps(plan, s, ps);
    var t := Exec(plan, s, ps);
    if At(t, p).Finished? { IsCompleted(plan, s.records, t.records); }
  }

  /** Every record the run added is in the answer of exactly one executor, and nothing else is in any. */
  lemma EachRecordHasOneExecutor(plan: Plan, s: State, ps: seq<nat>, k: Key)
    requires ValidPlan(plan) && Init(plan, s)
    ensures var t := Exec(plan, s, ps);
      && (k in t.records && k !in s.records <==> exists p :: k in Keys(AppliedBy(At(t, p))))
      && (forall p, q :: k in Keys(AppliedBy(At(t, p))) && k in Keys(AppliedBy(At(t, q))) ==> p == q)
  {
    RunKeeps(plan, s, ps);
    var t := Exec(plan, s, ps);
    if k in t.records && k !in s.records { assert k in Keys(AppliedBy(At(t, t.owner[k]))); }
  }

  /** On a complete ledger a further executor finishes in two calls, having written nothing. */
  lemma FurtherExecutorWritesNothing(plan: Plan, s: State, ps: seq<nat>, done: nat, p: nat)
    requires ValidPlan(plan) && Init(plan, s)
    requires var t := Exec(plan, s, ps); At(t, done).Finished? && At(t, p).Idle?
    ensures var t := Exec(plan, s, ps); var u := Next(plan, Next(plan, t, p), p);
      At(u, p) == Finished([]) && u.records == t.records && u.created == t.created
  {
    ConcurrentExecutorsComplete(plan, s, ps, done);
    RunKeeps(plan, s, ps);
    var t := Exec(plan, s, ps);
    var u := Next(plan, t, p);
    var loaded := if t.created then t.records else map[];
    assert loaded == t.records;
    NextKeeps(plan, s.records, t, p);
    LoadKeeps(plan, s.records, u, p);
    forall m | m in plan.migrations ensures KeyOf(m) in loaded { assert KeyOf(m) in Keys(plan.migrations); }
    AllRecorded(plan.migrations, loaded);
  }

  // ----- An executor left alone finishes -----

  /** A bound on the calls an executor still has to make. */
  function Work(plan: Plan, x: Executor): nat {
    var n := |plan.migrations|;
    match x
    case Idle => 2 * n + 4
    case Looked(_) => 2 * n + 3
    case Preparing(pending) => 2 * |pending| + 2
    case Inserting(pending, next, _) => if next <= |pending| then 2 * (|pending| - next) + 1 else 1
    case Clashed(pending, next, _) => if next <= |pending| then 2 * (|pending| - next) else 0
    case Finished(_) => 0
    case Failed => 0
  }

  lemma {:induction false} UnrecordedIsNoLonger(ms: seq<PlannedMigration>, records: Records)
    ensures |Unrecorded(ms, records)| <= |ms|
    decreases |ms|
  {
    if ms == [] {
    } else {
      UnrecordedIsNoLonger(ms[..|ms| - 1], records);
    }
  }

  lemma WorkShrinks(plan: Plan, was: Records, s: State, p: nat)
    requires Inv(plan, was, s) && !At(s, p).Finished? && !At(s, p).Failed?
    ensures Work(plan, At(Next(plan, s, p), p)) < Work(plan, At(s, p))
  {
    assert Sound(plan, was, s.records, At(s, p));
    var loaded := if At(s, p).Looked? && At(s, p).existed then s.records else map[];
    UnrecordedIsNoLonger(plan.migrations, loaded);
    CallShrinks(plan, s, p, loaded);
  }

  lemma CallShrinks(plan: Plan, s: State, p: nat, loaded: Records)
    requires !At(s, p).Finished? && !At(s, p).Failed? && |Unrecorded(plan.migrations, loaded)| <= |plan.migrations|
    requires At(s, p).Looked? ==> loaded == if At(s, p).existed then s.records else map[]
    requires At(s, p).Inserting? ==> At(s, p).next <= |At(s, p).pending|
    requires At(s, p).Clashed? ==> At(s, p).next < |At(s, p).pending|
    ensures Work(plan, At(Next(plan, s, p), p)) < Work(plan, At(s, p))
  {
  }

  ghost function Alone(p: nat, n: nat): seq<nat> { seq(n, _ => p) }

  lemma {:induction false} AloneStep(plan: Plan, s: State, p: nat, n: nat)
    ensures Exec(plan, s, Alone(p, n + 1)) == Exec(plan, Next(plan, s, p), Alone(p, n))
    decreases n
  {
    assert Alone(p, n + 1)[..n] == Alone(p, n);
    if n == 0 {
      assert Alone(p, 0) == [];
    } else {
      AloneStep(plan, s, p, n - 1);
      assert Alone(p, n)[..n - 1] == Alone(p, n - 1);
    }
  }

  lemma {:induction false} FinishesWithin(plan: Plan, was: Records, s: State, p: nat, n: nat)
    requires ValidPlan(plan) && Compatible(plan, was) && Inv(plan, was, s) && Work(plan, At(s, p)) <= n
    ensures At(Exec(plan, s, Alone(p, n)), p).Finished?
    decreases n
  {
    assert Sound(plan, was, s.records, At(s, p));
    if n == 0 {
      assert Alone(p, 0) == [];
    } else {
      NextKeeps(plan, was, s, p);
      AloneStep(plan, s, p, n - 1);
      if At(s, p).Finished? {
        assert Next(plan, s, p) == s;
      } else {
        WorkShrinks(plan, was, s, p);
      }
      FinishesWithin(plan, was, Next(plan, s, p), p, n - 1);
    }
  }

  /** In every run, an executor that is left alone finishes, in at most two calls for each migration and four more. */
  lemma LoneExecutorFinishes(plan: Plan, s: State, ps: seq<nat>, p: nat)
    requires ValidPlan(plan) && Init(plan, s)
    requires At(Exec(plan, s, ps), p).Idle?
    ensures At(Exec(plan, Exec(plan, s, ps), Alone(p, 2 * |plan.migrations| + 4)), p).Finished?
  {
    RunKeeps(plan, s, ps);
    FinishesWithin(plan, s.records, Exec(plan, s, ps), p, 2 * |plan.migrations| + 4);
  }
}
