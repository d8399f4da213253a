/**
 Moving a Mongo rate-limit bucket to another key: a retry loop that other processes' increments interleave with,
 database call by database call.
 */
module MongoRekey {
  import opened Prelude
  import opened RateLimits

  /** A document of the collection; `key` is a unique index. */
  datatype Doc = Doc(id: nat, bucket: Bucket)

  datatype Move = Move(from: string, into: string, window: int, now: int)

  /** Where the rekeying process stands, and in which of its eight tries. */
  datatype PC =
    | Ready(tries: nat)
    | Found(tries: nat, source: Option<Doc>)
    | Merged(tries: nat, source: Option<Doc>, empty: bool)
    | Purged(tries: nat, source: Option<Doc>)
    | Done
    | Failed

  datatype State = State(docs: map<string, Doc>, nextId: nat, pc: PC)

  datatype Event = Step | Increment(key: string, at: int)

  function Threshold(m: Move): int { m.now - m.window }

  function View(docs: map<string, Doc>): Buckets { map k | k in docs :: docs[k].bucket }

  function BucketOf(d: Option<Doc>): Option<Bucket> { if d.Some? then Some(d.value.bucket) else None }

  function Put(s: State, key: string, b: Bucket): State {
    if key in s.docs then s.(docs := s.docs[key := s.docs[key].(bucket := b)])
    else s.(docs := s.docs[key := Doc(s.nextId, b)], nextId := s.nextId + 1)
  }

  /** What the merge pipeline leaves at the destination. */
  function MergeResult(m: Move, source: Option<Bucket>, dest: Option<Bucket>): Bucket {
    var s := if source.Some? && Active(source.value, m.window, m.now) then source.value else Bucket(0, Threshold(m));
    var d := if dest.Some? && Active(dest.value, m.window, m.now) then dest.value else Bucket(0, Threshold(m));
    if s.count > d.count || (s.count == d.count && s.start > d.start) then s else d
  }

  // ----- One database call at a time -----

  function FindSource(m: Move, s: State): State
    requires s.pc.Ready?
  {
    s.(pc := Found(s.pc.tries, Find(s.docs, m.from)))
  }

  function MergeIntoTarget(m: Move, s: State): State
    requires s.pc.Found?
  {
    var b := MergeResult(m, BucketOf(s.pc.source), BucketOf(Find(s.docs, m.into)));
    Put(s, m.into, b).(pc := Merged(s.pc.tries, s.pc.source, b.count == 0))
  }

  predicate IsPlaceholder(m: Move, docs: map<string, Doc>) {
    m.into in docs && docs[m.into].bucket == Bucket(0, Threshold(m))
  }

  /** Removes the destination if the merge left it empty and nobody has used it since; without a source that is all. */
  function PurgePlaceholder(m: Move, s: State): State
    requires s.pc.Merged?
  {
    var docs := if s.pc.empty && IsPlaceholder(m, s.docs) then s.docs - {m.into} else s.docs;
    s.(docs := docs, pc := if s.pc.source.None? then Done else Purged(s.pc.tries, s.pc.source))
  }

  /** Removes the source if it is still as it was found. */
  function DeleteSource(m: Move, s: State): State
    requires s.pc.Purged?
  {
    if s.pc.source.Some? && Find(s.docs, m.from) == s.pc.source then s.(docs := s.docs - {m.from}, pc := Done)
    else s.(pc := if s.pc.tries + 1 == 8 then Failed else Ready(s.pc.tries + 1))
  }

  function Next(m: Move, s: State, e: Event): State {
    if e.Increment? then Put(s, e.key, Hit(BucketOf(Find(s.docs, e.key)), m.window, e.at))
    else if s.pc.Ready? then FindSource(m, s)
    else if s.pc.Found? then MergeIntoTarget(m, s)
    else if s.pc.Merged? then PurgePlaceholder(m, s)
    else if s.pc.Purged? then DeleteSource(m, s)
    else s
  }

  function Exec(m: Move, s: State, es: seq<Event>): State
    decreases |es|
  {
    if es == [] then s else Next(m, Exec(m, s, es[..|es| - 1]), es[|es| - 1])
  }

  lemma ExecAppend(m: Move, s: State, es: seq<Event>, e: Event)
    ensures Exec(m, s, es + [e]) == Next(m, Exec(m, s, es), e)
  {
    assert (es + [e])[..|es|] == es;
  }

  // ----- Interference -----

  function Target(m: Move, s: State): Option<Bucket> { Open(BucketOf(Find(s.docs, m.into)), m.window, m.now) }

  /**
   The one event that can weaken an open destination: an increment after its window has closed starts a new count.
   A destination with a single hit loses nothing by it.
   */
  predicate Lapses(m: Move, s: State, e: Event) {
    && e.Increment? && e.key == m.into
    && Target(m, s).Some? && !Active(Target(m, s).value, m.window, e.at) && Target(m, s).value.count > 1
  }

  /**
   In any state, with no more asked than a count that is not negative, a step weakens an open destination exactly when
   it is such an increment.
   */
  lemma WeakensExactly(m: Move, s: State, e: Event)
    requires m.from != m.into && m.window > 0 && Target(m, s).Some? && Target(m, s).value.count >= 0
    ensures !(Target(m, Next(m, s, e)).Some? && AtLeast(Target(m, Next(m, s, e)).value, Target(m, s).value))
            <==> Lapses(m, s, e)
  {
  }

  /** No increment of the destination lapses. Increments of the source, and clock readings, are not restricted. */
  ghost predicate TameRun(m: Move, s: State, es: seq<Event>)
    decreases |es|
  {
    es == [] || (TameRun(m, s, es[..|es| - 1]) && !Lapses(m, Exec(m, s, es[..|es| - 1]), es[|es| - 1]))
  }

  predicate Covers(m: Move, s: State, b: Bucket) {
    Active(b, m.window, m.now) ==> Target(m, s).Some? && AtLeast(Target(m, s).value, b)
  }

  /** Only the placeholder a merge just left has no hits. */
  ghost predicate HitsOk(m: Move, s: State) {
    && (forall k :: k in s.docs ==>
          s.docs[k].bucket.count >= 1 || (k == m.into && s.pc.Merged? && s.pc.empty && IsPlaceholder(m, s.docs)))
    && (s.pc.Found? && s.pc.source.Some? ==> s.pc.source.value.bucket.count >= 1)
  }

  /** And a merged source stays covered. */
  ghost predicate Inv(m: Move, s: State) {
    && HitsOk(m, s)
    && (s.pc.Merged? && s.pc.source.Some? ==> Covers(m, s, s.pc.source.value.bucket))
    && (s.pc.Purged? && s.pc.source.Some? ==> Covers(m, s, s.pc.source.value.bucket))
    && (s.pc.Merged? && s.pc.source.Some? ==> s.pc.source.value.bucket.count >= 1)
  }

  lemma IncrementKeeps(m: Move, s: State, e: Event)
    requires Inv(m, s) && !Lapses(m, s, e) && e.Increment? && m.window > 0
    ensures Inv(m, Next(m, s, e))
  {
  }

  lemma StepKeeps(m: Move, s: State)
    requires Inv(m, s) && m.from != m.into && m.window > 0
    ensures Inv(m, Next(m, s, Step))
  {
  }

  lemma {:induction false} RunKeeps(m: Move, s: State, es: seq<Event>)
    requires Inv(m, s) && m.from != m.into && m.window > 0 && TameRun(m, s, es)
    ensures Inv(m, Exec(m, s, es))
    decreases |es|
  {
    if es == [] {
    } else {
      var pre, e := es[..|es| - 1], es[|es| - 1];
      RunKeeps(m, s, pre);
      if e.Increment? { IncrementKeeps(m, Exec(m, s, pre), e); } else { StepKeeps(m, Exec(m, s, pre)); }
    }
  }

  /** An open destination never gets weaker unless an increment of it lapses. */
  lemma {:induction false} TargetNeverDrops(m: Move, s: State, es: seq<Event>)
    requires m.from != m.into && m.window > 0 && TameRun(m, s, es)
    requires Target(m, s).Some? && Target(m, s).value.count >= 0
    ensures Target(m, Exec(m, s, es)).Some? && AtLeast(Target(m, Exec(m, s, es)).value, Target(m, s).value)
    decreases |es|
  {
    if es == [] {
    } else {
      var pre, e := es[..|es| - 1], es[|es| - 1];
      TargetNeverDrops(m, s, pre);
      WeakensExactly(m, Exec(m, s, pre), e);
    }
  }

  /** The document of the source key disappears only when the destination is at least as strict. */
  lemma DeletionIsCovered(m: Move, s: State, es: seq<Event>, e: Event)
    requires Inv(m, s) && m.from != m.into && m.window > 0 && TameRun(m, s, es)
    requires var at := Exec(m, s, es); m.from in at.docs && m.from !in Next(m, at, e).docs
    ensures var at := Exec(m, s, es); var o := at.docs[m.from].bucket;
      && Next(m, at, e).pc.Done?
      && (Active(o, m.window, m.now) ==> Target(m, Next(m, at, e)).Some? && AtLeast(Target(m, Next(m, at, e)).value, o))
  {
    RunKeeps(m, s, es);
  }

  lemma {:induction false} HitsKept(m: Move, s: State, es: seq<Event>)
    requires HitsOk(m, s) && m.window > 0
    ensures HitsOk(m, Exec(m, s, es))
    decreases |es|
  {
    if es == [] {
    } else {
      HitsKept(m, s, es[..|es| - 1]);
      HitsStep(m, Exec(m, s, es[..|es| - 1]), es[|es| - 1]);
    }
  }

  lemma HitsStep(m: Move, s: State, e: Event)
    requires HitsOk(m, s) && m.window > 0
    ensures HitsOk(m, Next(m, s, e))
  {
    if e.Step? && s.pc.Merged? {
      var t := PurgePlaceholder(m, s);
      assert HitsOk(m, t);
    }
  }

  /** Whatever is incremented, and whenever: when the call is over no placeholder is left behind. */
  lemma NoPlaceholderLeft(m: Move, s: State, es: seq<Event>)
    requires HitsOk(m, s) && m.window > 0
    requires Exec(m, s, es).pc.Done? || Exec(m, s, es).pc.Failed?
    ensures forall k :: k in Exec(m, s, es).docs ==> Exec(m, s, es).docs[k].bucket.count >= 1
  {
    HitsKept(m, s, es);
  }

  // ----- Giving up -----

  function SourceHits(m: Move, es: seq<Event>): nat
    decreases |es|
  {
    if es == [] then 0
    else SourceHits(m, es[..|es| - 1]) + if es[|es| - 1].Increment? && es[|es| - 1].key == m.from then 1 else 0
  }

  predicate TriesPaid(m: Move, s: State, hits: nat) {
    && (s.pc.Ready? ==> hits >= s.pc.tries)
    && ((s.pc.Found? || s.pc.Merged? || s.pc.Purged?) ==>
          hits >= s.pc.tries && (s.pc.source.Some? ==> Find(s.docs, m.from) == s.pc.source || hits > s.pc.tries))
    && (s.pc.Purged? ==> s.pc.source.Some?)
    && (s.pc.Failed? ==> hits >= 8)
  }

  /** The call gives up only after at least eight increments of the source, one in each try. */
  lemma {:induction false} GivingUpTakesEightHits(m: Move, s: State, es: seq<Event>)
    requires m.from != m.into && s.pc == Ready(0)
    ensures TriesPaid(m, Exec(m, s, es), SourceHits(m, es))
    ensures Exec(m, s, es).pc.Failed? ==> SourceHits(m, es) >= 8
    decreases |es|
  {
    if es == [] {
    } else {
      GivingUpTakesEightHits(m, s, es[..|es| - 1]);
    }
  }

  // ----- Undisturbed -----

  predicate Undisturbed(es: seq<Event>) { forall i :: 0 <= i < |es| ==> es[i].Step? }

  predicate Counted(docs: map<string, Doc>) { forall k :: k in docs ==> docs[k].bucket.count >= 1 }

  ghost predicate OnCourse(m: Move, was: State, s: State) {
    var source := Find(was.docs, m.from);
    if s.pc.Ready? then s == was
    else if s.pc.Found? then s == was.(pc := Found(0, source))
    else if s.pc.Merged? then s == MergeIntoTarget(m, was.(pc := Found(0, source)))
    else if s.pc.Purged? then source.Some? && s == PurgePlaceholder(m, MergeIntoTarget(m, was.(pc := Found(0, source))))
    else s.pc.Done? && View(s.docs) == Rekeyed(View(was.docs), m.from, m.into, m.window, m.now)
  }

  lemma MergeAgrees(m: Move, was: State)
    requires m.from != m.into && m.window > 0 && Counted(was.docs)
    ensures var source := Find(was.docs, m.from);
      var purged := PurgePlaceholder(m, MergeIntoTarget(m, was.(pc := Found(0, source))));
      && Find(purged.docs, m.from) == source
      && View(purged.docs) - {m.from} == Rekeyed(View(was.docs), m.from, m.into, m.window, m.now)
  {
  }

  lemma {:induction false} UndisturbedOnCourse(m: Move, was: State, es: seq<Event>)
    requires m.from != m.into && m.window > 0 && was.pc == Ready(0) && Counted(was.docs) && Undisturbed(es)
    ensures OnCourse(m, was, Exec(m, was, es))
    decreases |es|
  {
    if es == [] {
    } else {
      UndisturbedOnCourse(m, was, es[..|es| - 1]);
      MergeAgrees(m, was);
    }
  }

  lemma TwoCalls(m: Move, s: State)
    ensures Exec(m, s, [Step, Step]) == Next(m, Next(m, s, Step), Step)
  {
    assert [Step, Step][..1] == [Step] && [Step][..0] == [];
    assert Exec(m, s, [Step]) == Next(m, Exec(m, s, []), Step);
  }

  lemma FourCalls(m: Move, s: State)
    ensures Exec(m, s, [Step, Step, Step, Step]) == Next(m, Next(m, Next(m, Next(m, s, Step), Step), Step), Step)
  {
    TwoCalls(m, s);
    var three := [Step, Step, Step];
    assert three[..2] == [Step, Step];
    assert Exec(m, s, three) == Next(m, Exec(m, s, [Step, Step]), Step);
    assert [Step, Step, Step, Step][..3] == three;
  }

  /** A try that nobody disturbs is the last. */
  lemma UndisturbedTryEnds(m: Move, s: State)
    requires m.from != m.into && s.pc.Ready?
    ensures Exec(m, s, [Step, Step, Step, Step]).pc.Done?
  {
    FourCalls(m, s);
    var found := FindSource(m, s);
    var merged := MergeIntoTarget(m, found);
    var purged := PurgePlaceholder(m, merged);
    assert Find(purged.docs, m.from) == Find(s.docs, m.from);
  }

  /** Without interference one try is enough, and its outcome is that of the locked rekey. */
  lemma UndisturbedIsLocked(m: Move, was: State, es: seq<Event>)
    requires m.from != m.into && m.window > 0 && was.pc == Ready(0) && Counted(was.docs) && Undisturbed(es)

    ensures !Exec(m, was, es).pc.Failed?
    ensures Exec(m, was, es).pc.Done? ==>
              View(Exec(m, was, es).docs) == Rekeyed(View(was.docs), m.from, m.into, m.window, m.now)
  {
    UndisturbedOnCourse(m, was, es);

  }
}
