/**
 Mongo's rate-limit updates are aggregation pipelines; they compute exactly the bucket arithmetic of the other stores.
 */
module MongoCounters {
  import opened Prelude
  import opened RateLimits
  import opened MongoExpr
  import opened MongoRekey

  predicate Readable(d: Document) {
    (Read(d, "count").Num? && Read(d, "last_request_ms").Num?) ||
      (Read(d, "count").Missing? && Read(d, "last_request_ms").Missing?)
  }

  /** An upsert starts from a document that has only its key. */
  function Decode(d: Document): Option<Bucket>
    requires Readable(d)
  {
    if Read(d, "count").Num? then Some(Bucket(Read(d, "count").n, Read(d, "last_request_ms").n)) else None
  }

  function Number(n: int): Expr { Literal(Num(n)) }

  function IncrementStage(key: string, window: int, now: int): Stage {
    var expired := Lte(IfNull(Field("last_request_ms"), Number(now - window)), Number(now - window));
    Set(map[
      "key" := Literal(Str(key)),
      "count" := Cond(expired, Number(1), Add(IfNull(Field("count"), Number(0)), Number(1))),
      "last_request_ms" := Cond(expired, Number(now), Field("last_request_ms"))])
  }

  /** The increment's pipeline computes the next hit. */
  lemma IncrementPipelineMatches(d: Document, key: string, window: int, now: int)
    requires Readable(d)
    ensures var after := Update([IncrementStage(key, window, now)], d);
      Readable(after) && Decode(after) == Some(Hit(Decode(d), window, now))
  {
    var stage := IncrementStage(key, window, now);
    OneStage(stage, d);
    var start := IfNull(Field("last_request_ms"), Number(now - window));
    var expired := Lte(start, Number(now - window));
    var count := IfNull(Field("count"), Number(0));
    IfNullMeans("last_request_ms", now - window, d);
    IfNullMeans("count", 0, d);
    assert Eval(expired, d) == Bool(Eval(start, d).n <= now - window);
    assert Eval(Add(count, Number(1)), d) == Num(Eval(count, d).n + 1);
    SetReads(stage.fields, d, "count");
    SetReads(stage.fields, d, "last_request_ms");
    assert Eval(stage.fields["count"], d) == if Truthy(Eval(expired, d)) then Num(1) else Num(Eval(count, d).n + 1);
    assert Eval(stage.fields["last_request_ms"], d)
        == if Truthy(Eval(expired, d)) then Num(now) else Read(d, "last_request_ms");
  }

  lemma IfNullMeans(name: string, n: int, d: Document)
    ensures Eval(IfNull(Field(name), Number(n)), d)
         == if Read(d, name).Missing? || Read(d, name).Null? then Num(n) else Read(d, name)
  {
    assert Eval(Field(name), d) == Read(d, name) && Eval(Number(n), d) == Num(n);
  }

  const DESTINATION_COUNT := "_fastauth_destination_count"
  const DESTINATION_START := "_fastauth_destination_start"

  function DestinationActive(m: Move): Expr {
    Gt(Add(IfNull(Field("last_request_ms"), Number(Threshold(m))), Number(m.window)), Number(m.now))
  }

  function SourceIsStricter(b: Bucket): Expr {
    Or([Gt(Number(b.count), Field(DESTINATION_COUNT)),
        And([Eq(Number(b.count), Field(DESTINATION_COUNT)), Gt(Number(b.start), Field(DESTINATION_START))])])
  }

  function MergeStages(m: Move, b: Bucket): seq<Stage> {
    [ReadDestination(m), WriteStricter(m, b), Unset({DESTINATION_COUNT, DESTINATION_START})]
  }

  function ReadDestination(m: Move): Stage {
    Set(map[
      DESTINATION_COUNT := Cond(DestinationActive(m), IfNull(Field("count"), Number(0)), Number(0)),
      DESTINATION_START :=
        Cond(DestinationActive(m), IfNull(Field("last_request_ms"), Number(Threshold(m))), Number(Threshold(m)))])
  }

  function WriteStricter(m: Move, b: Bucket): Stage {
    Set(map[
      "key" := Literal(Str(m.into)),
      "count" := Cond(SourceIsStricter(b), Number(b.count), Field(DESTINATION_COUNT)),
      "last_request_ms" := Cond(SourceIsStricter(b), Number(b.start), Field(DESTINATION_START))])
  }

  /** What the destination counts for: itself while its window is open, and otherwise an empty window just over. */
  function Effective(m: Move, b: Option<Bucket>): Bucket {
    if b.Some? && Active(b.value, m.window, m.now) then b.value else Bucket(0, Threshold(m))
  }

  lemma ReadDestinationMeans(m: Move, d: Document)
    requires Readable(d)
    ensures var e := Effective(m, Decode(d)); var after := Apply(ReadDestination(m), d);
      Read(after, DESTINATION_COUNT) == Num(e.count) && Read(after, DESTINATION_START) == Num(e.start)
  {
    var start, count := IfNull(Field("last_request_ms"), Number(Threshold(m))), IfNull(Field("count"), Number(0));
    IfNullMeans("last_request_ms", Threshold(m), d);
    IfNullMeans("count", 0, d);
    var end := Add(start, Number(m.window));
    assert Eval(end, d) == Num(Eval(start, d).n + m.window);
    assert Eval(DestinationActive(m), d) == Bool(m.now < Eval(end, d).n);
    var stage := ReadDestination(m);
    SetReads(stage.fields, d, DESTINATION_COUNT);
    SetReads(stage.fields, d, DESTINATION_START);
    assert Eval(Cond(DestinationActive(m), count, Number(0)), d)
        == if Truthy(Eval(DestinationActive(m), d)) then Eval(count, d) else Num(0);
    assert Eval(Cond(DestinationActive(m), start, Number(Threshold(m))), d)
        == if Truthy(Eval(DestinationActive(m), d)) then Eval(start, d) else Num(Threshold(m));
  }

  lemma SourceIsStricterMeans(b: Bucket, e: Bucket, d: Document)
    requires Read(d, DESTINATION_COUNT) == Num(e.count) && Read(d, DESTINATION_START) == Num(e.start)
    ensures Eval(SourceIsStricter(b), d) == Bool(b.count > e.count || (b.count == e.count && b.start > e.start))
  {
    var more := Gt(Number(b.count), Field(DESTINATION_COUNT));
    var same := Eq(Number(b.count), Field(DESTINATION_COUNT));
    var later := Gt(Number(b.start), Field(DESTINATION_START));
    assert Eval(more, d) == Bool(b.count > e.count);
    assert Eval(same, d) == Bool(b.count == e.count);
    assert Eval(later, d) == Bool(b.start > e.start);
    AndOfTwo(same, later, d);
    OrOfTwo(more, And([same, later]), d);
  }

  lemma WriteStricterMeans(m: Move, b: Bucket, e: Bucket, d: Document)
    requires Read(d, DESTINATION_COUNT) == Num(e.count) && Read(d, DESTINATION_START) == Num(e.start)
    ensures var after := Apply(WriteStricter(m, b), d); var best := if AtLeast(e, b) then e else b;
      Read(after, "count") == Num(best.count) && Read(after, "last_request_ms") == Num(best.start)
  {
    var stage, stricter := WriteStricter(m, b), SourceIsStricter(b);
    SetReads(stage.fields, d, "count");
    SetReads(stage.fields, d, "last_request_ms");
    SourceIsStricterMeans(b, e, d);
    assert Eval(Number(b.count), d) == Num(b.count) && Eval(Number(b.start), d) == Num(b.start);
    assert Eval(Cond(stricter, Number(b.count), Field(DESTINATION_COUNT)), d)
        == if Truthy(Eval(stricter, d)) then Num(b.count) else Num(e.count);
    assert Eval(Cond(stricter, Number(b.start), Field(DESTINATION_START)), d)
        == if Truthy(Eval(stricter, d)) then Num(b.start) else Num(e.start);
  }

  /** The merge's three stages compute the merge, and leave no working fields behind. */
  lemma MergePipelineMatches(m: Move, source: Option<Bucket>, d: Document)
    requires Readable(d)
    ensures var after := Update(MergeStages(m, Effective(m, source)), d);
      && Readable(after) && Decode(after) == Some(MergeResult(m, source, Decode(d)))
      && DESTINATION_COUNT !in after && DESTINATION_START !in after
  {
    var b, e := Effective(m, source), Effective(m, Decode(d));
    var working := Unset({DESTINATION_COUNT, DESTINATION_START});
    ThreeStages(ReadDestination(m), WriteStricter(m, b), working, d);
    ReadDestinationMeans(m, d);
    var read := Apply(ReadDestination(m), d);
    WriteStricterMeans(m, b, e, read);
    var written := Apply(WriteStricter(m, b), read);
    NamesDiffer();
    UnsetReads({DESTINATION_COUNT, DESTINATION_START}, written, "count");
    UnsetReads({DESTINATION_COUNT, DESTINATION_START}, written, "last_request_ms");
  }

  lemma NamesDiffer()
    ensures "count" != DESTINATION_COUNT && "count" != DESTINATION_START
    ensures "last_request_ms" != DESTINATION_COUNT && "last_request_ms" != DESTINATION_START &&
            DESTINATION_COUNT != DESTINATION_START
  {
    assert |"count"| == 5 && |"last_request_ms"| == 15 && |DESTINATION_COUNT| == 27 && |DESTINATION_START| == 27;
    assert DESTINATION_COUNT[23] == 'o' && DESTINATION_START[23] == 't';
  }

  // ----- The collection -----

  /** A document and its `_id`; `key` is a unique index. */
  datatype Stored = Stored(id: nat, fields: Document)

  /** A stored document always has its two counters. */
  predicate HasBucket(d: Document) { Readable(d) && Decode(d).Some? }

  ghost predicate AllStored(docs: map<string, Stored>) { forall k :: k in docs ==> HasBucket(docs[k].fields) }

  ghost function Decoded(docs: map<string, Stored>): map<string, Doc>
    requires AllStored(docs)
  {
    map k | k in docs :: Doc(docs[k].id, Decode(docs[k].fields).value)
  }

  lemma DecodedPut(docs: map<string, Stored>, key: string, d: Stored)
    requires AllStored(docs) && HasBucket(d.fields)
    ensures AllStored(docs[key := d]) &&
            Decoded(docs[key := d]) == Decoded(docs)[key := Doc(d.id, Decode(d.fields).value)]
  {
  }

  lemma DecodedDrop(docs: map<string, Stored>, key: string)
    requires AllStored(docs)
    ensures AllStored(docs - {key}) && Decoded(docs - {key}) == Decoded(docs) - {key}
  {
  }

  /** The increments of other processes that reach the database before the next call of this one. */
  datatype Hits = Hits(key: string, at: int)

  class MongoRateLimits {
    var docs: map<string, Stored>
    var nextId: nat
    /** Where a rekey stands, and everything that happened since it began. */
    ghost var pc: PC
    ghost var log: seq<Event>

    ghost predicate Valid()
      reads this
    {
      AllStored(docs)
    }

    ghost function Snapshot(): State
      reads this
      requires Valid()
    {
      State(Decoded(docs), nextId, pc)
    }

    /** find_one_and_update with upsert; returns the document as it is afterwards. */
    method Upsert(key: string, pipeline: seq<Stage>, ghost b: Bucket) returns (after: Document)
      requires Valid()
      requires var d := if key in docs then docs[key].fields else map["key" := Str(key)];
        HasBucket(Update(pipeline, d)) && Decode(Update(pipeline, d)) == Some(b)
      modifies this`docs, this`nextId
      ensures Valid() && Snapshot() == Put(old(Snapshot()), key, b)
      ensures HasBucket(after) && Decode(after) == Some(b)
    {
      var d: Document := if key in docs then docs[key].fields else map["key" := Str(key)];
      after := Update(pipeline, d);
      var stored := Stored(if key in docs then docs[key].id else nextId, after);
      DecodedPut(docs, key, stored);
      if key !in docs { nextId := nextId + 1; }
      docs := docs[key := stored];
    }

    method Increment(key: string, window: int, now: int) returns (count: int, start: int)
      requires Valid()
      modifies this`docs, this`nextId
      ensures Valid() && Snapshot() == Put(old(Snapshot()), key,
              Hit(BucketOf(Find(old(Snapshot()).docs, key)), window, now))
      ensures Bucket(count, start) == Hit(BucketOf(Find(old(Snapshot()).docs, key)), window, now)
    {
      var d: Document := if key in docs then docs[key].fields else map["key" := Str(key)];
      IncrementPipelineMatches(d, key, window, now);
      var after := Upsert(key, [IncrementStage(key, window, now)], Hit(Decode(d), window, now));
      count, start := Decode(after).value.count, Decode(after).value.start;
    }

    /** delete_one by key and bucket, and by `_id` when one is given. */
    method DeleteOne(key: string, id: Option<nat>, b: Bucket) returns (deleted: bool)
      requires Valid()
      modifies this`docs
      ensures Valid()
      ensures deleted <==> key in old(Snapshot()).docs && old(Snapshot()).docs[key].bucket == b
                           && (id.Some? ==> old(Snapshot()).docs[key].id == id.value)
      ensures Snapshot() == if deleted then old(Snapshot()).(docs := old(Snapshot()).docs - {key}) else old(Snapshot())
    {
      deleted := key in docs && Decode(docs[key].fields) == Some(b) && (id.None? || docs[key].id == id.value);
      if deleted {
        DecodedDrop(docs, key);
        docs := docs - {key};
      }
    }

    // ----- Rekey, one database call after another -----

    /** The log leads from where the rekey began to here; a quiet one holds nothing but the rekey's own calls. */
    ghost predicate Traced(m: Move, began: State, quiet: bool)
      reads this
    {
      Valid() && Snapshot() == Exec(m, began, log) && (quiet ==> Undisturbed(log))
    }

    method FindSource(m: Move, ghost began: State, ghost quiet: bool) returns (source: Option<Stored>)
      requires Traced(m, began, quiet) && pc.Ready?
      modifies this`pc, this`log
      ensures Traced(m, began, quiet)
      ensures source.Some? ==> HasBucket(source.value.fields)
      ensures pc == Found(old(pc).tries, DecodedOption(source))
    {
      source := if m.from in docs then Some(docs[m.from]) else None;
      ExecAppend(m, began, log, Step);
      pc, log := Found(pc.tries, DecodedOption(source)), log + [Step];
    }

    /** The merge's one database call. */
    method UpsertMerge(m: Move, b: Option<Bucket>) returns (count: int)
      requires Valid()
      modifies this`docs, this`nextId
      ensures Valid()
      ensures var merged := MergeResult(m, b, BucketOf(Find(old(Snapshot()).docs, m.into)));
        Snapshot() == Put(old(Snapshot()), m.into, merged) && count == merged.count
    {
      var d: Document := if m.into in docs then docs[m.into].fields else map["key" := Str(m.into)];
      MergePipelineMatches(m, b, d);
      var after := Upsert(m.into, MergeStages(m, Effective(m, b)), MergeResult(m, b, Decode(d)));
      count := Decode(after).value.count;
    }

    method MergeIntoTarget(m: Move, source: Option<Stored>, ghost began: State, ghost quiet: bool) returns (count: int)
      requires Traced(m, began, quiet) && pc.Found?
      requires (source.Some? ==> HasBucket(source.value.fields)) && pc.source == DecodedOption(source)
      modifies this
      ensures Traced(m, began, quiet)
      ensures pc == Merged(old(pc).tries, old(pc).source, count == 0)
    {
      var b := if source.Some? then Decode(source.value.fields) else None;
      ExecAppend(m, began, log, Step);
      count := UpsertMerge(m, b);
      pc, log := Merged(pc.tries, pc.source, count == 0), log + [Step];
    }

    /** The predicate of the delete spares a destination that was incremented meanwhile. */
    method PurgePlaceholder(m: Move, count: int, ghost began: State, ghost quiet: bool)
      requires Traced(m, began, quiet) && pc.Merged? && (pc.empty <==> count == 0)
      modifies this`docs, this`pc, this`log
      ensures Traced(m, began, quiet)
      ensures pc == if old(pc).source.None? then Done else Purged(old(pc).tries, old(pc).source)
    {
      ExecAppend(m, began, log, Step);
      if count == 0 { var _ := DeleteOne(m.into, None, Bucket(0, Threshold(m))); }
      pc, log := if pc.source.None? then Done else Purged(pc.tries, pc.source), log + [Step];
    }

    method DeleteSource(m: Move, source: Stored, ghost began: State, ghost quiet: bool) returns (deleted: bool)
      requires Traced(m, began, quiet) && pc.Purged? && HasBucket(source.fields) &&
               pc.source == DecodedOption(Some(source))
      modifies this`docs, this`pc, this`log
      ensures Traced(m, began, quiet)
      ensures pc == if deleted then Done else if old(pc).tries + 1 == 8 then Failed else Ready(old(pc).tries + 1)
    {
      ExecAppend(m, began, log, Step);
      deleted := DeleteOne(m.from, Some(source.id), Decode(source.fields).value);
      pc, log := if deleted then Done else if pc.tries + 1 == 8 then Failed else Ready(pc.tries + 1), log + [Step];
    }

    /** What other processes do to the collection between two calls. */
    method Others(m: Move, hits: seq<Hits>, ghost began: State, ghost quiet: bool)
      requires Traced(m, began, quiet) && (quiet ==> hits == [])
      modifies this`docs, this`nextId, this`log
      ensures Traced(m, began, quiet)
    {
      for i := 0 to |hits|
        invariant Traced(m, began, quiet) && pc == old(pc)
      {
        ExecAppend(m, began, log, Event.Increment(hits[i].key, hits[i].at));
        var _, _ := Increment(hits[i].key, m.window, hits[i].at);
        log := log + [Event.Increment(hits[i].key, hits[i].at)];
      }
    }

    method Merge(m: Move, others: seq<seq<Hits>>, ghost began: State,
                 ghost quiet: bool) returns (source: Option<Stored>)
      requires Traced(m, began, quiet) && pc.Ready? && |others| == 4
      requires quiet ==> forall i :: 0 <= i < 4 ==> others[i] == []
      modifies this
      ensures Traced(m, began, quiet)
      ensures source.Some? ==> HasBucket(source.value.fields)
      ensures pc == if source.None? then Done else Purged(old(pc).tries, DecodedOption(source))
    {
      Others(m, others[0], began, quiet);
      source := FindSource(m, began, quiet);
      Others(m, others[1], began, quiet);
      var count := MergeIntoTarget(m, source, began, quiet);
      Others(m, others[2], began, quiet);
      PurgePlaceholder(m, count, began, quiet);
    }

    method Try(m: Move, others: seq<seq<Hits>>, ghost began: State, ghost quiet: bool) returns (finished: bool)
      requires Traced(m, began, quiet) && pc.Ready? && |others| == 4
      requires quiet ==> forall i :: 0 <= i < 4 ==> others[i] == []
      modifies this
      ensures Traced(m, began, quiet)
      ensures pc == if finished then Done else if old(pc).tries + 1 == 8 then Failed else Ready(old(pc).tries + 1)
    {
      var source := Merge(m, others, began, quiet);
      if source.None? { return true; }
      Others(m, others[3], began, quiet);
      finished := DeleteSource(m, source.value, began, quiet);
    }

    /**
     `others` says what reaches the database before each call. The outcome is the run of the state machine on the
     log; false is the error that the rekey did not stabilize.
     */
    method RekeyRateLimit(m: Move, others: seq<seq<Hits>>) returns (stable: bool)
      requires Valid() && |others| == 32
      modifies this
      ensures Traced(m, old(Snapshot()).(pc := Ready(0)), forall i :: 0 <= i < 32 ==> others[i] == [])
      ensures pc == if stable then Done else Failed
    {
      pc, log := Ready(0), [];
      ghost var began := Snapshot();
      ghost var quiet := forall i :: 0 <= i < 32 ==> others[i] == [];
      for tries := 0 to 8
        invariant Traced(m, began, quiet) && pc == if tries < 8 then Ready(tries) else Failed
      {
        var finished := Try(m, others[4 * tries..4 * tries + 4], began, quiet);
        if finished { return true; }
      }
      return false;
    }
  }

  function DecodedOption(d: Option<Stored>): Option<Doc>
    requires d.Some? ==> HasBucket(d.value.fields)
  {
    if d.Some? then Some(Doc(d.value.id, Decode(d.value.fields).value)) else None
  }
}
