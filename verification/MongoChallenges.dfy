/** The Mongo store's challenges: the decision is written as an update pipeline over one document. */
module MongoChallenges {
  import opened Prelude
  import opened MongoExpr
  import opened Challenges
  import ChallengeRuns

  // ----- Documents -----

  predicate Readable(d: Document) {
    && Read(d, "value_hash").Str?
    && Read(d, "attempt_count").Num?
    && Read(d, "expires_at").Date?
    && (var v := Read(d, "consumed_at"); v.Missing? || v.Null? || v.Date?)
    && Read(d, "updated_at").Date?
  }

  function Decode(d: Document): Challenge
    requires Readable(d)
  {
    Challenge(
      Read(d, "value_hash").s,
      Read(d, "attempt_count").n,
      Read(d, "expires_at").ms,
      if Read(d, "consumed_at").Date? then Some(Read(d, "consumed_at").ms) else None,
      Read(d, "updated_at").ms)
  }

  function Encode(c: Challenge): Document {
    map["value_hash" := Str(c.valueHash), "attempt_count" := Num(c.attemptCount), "expires_at" := Date(c.expiresAt),
        "consumed_at" := if c.consumedAt.Some? then Date(c.consumedAt.value) else Null,
        "updated_at" := Date(c.updatedAt)]
  }

  lemma EncodeDecode(d: Document, c: Challenge)
    ensures Readable(d + Encode(c)) && Decode(d + Encode(c)) == c
  {
  }

  // ----- The pipeline -----

  function LiveExpr(now: int, cap: Option<int>): Expr {
    var unexpired := Gt(Field("expires_at"), Literal(Date(now)));
    if cap.Some? then And([unexpired, Lt(Field("attempt_count"), Literal(Num(cap.value)))]) else unexpired
  }

  function MatchExpr(hash: string): Expr { Eq(Field("value_hash"), Literal(Str(hash))) }

  function CountExpr(hash: string, now: int, cap: Option<int>): Expr {
    var wrong := And([LiveExpr(now, cap), Not(MatchExpr(hash))]);
    Cond(wrong, Add(Field("attempt_count"), Literal(Num(1))), Field("attempt_count"))
  }

  function TerminalExprs(hash: string, now: int, cap: Option<int>, consume: bool): seq<Expr> {
    [Not(LiveExpr(now, cap))]
    + (if consume then [And([LiveExpr(now, cap), MatchExpr(hash)])] else [])
    + (if cap.Some? then [Gte(CountExpr(hash, now, cap), Literal(Num(cap.value)))] else [])
  }

  function AttemptStage(hash: string, now: int, cap: Option<int>, consume: bool): Stage {
    Set(map[
      "attempt_count" := CountExpr(hash, now, cap),
      "consumed_at" := Cond(Or(TerminalExprs(hash, now, cap, consume)), Literal(Date(now)), Literal(Null)),
      "updated_at" := Literal(Date(now))])
  }

  lemma LiveMeans(d: Document, now: int, cap: Option<int>)
    requires Readable(d)
    ensures Eval(LiveExpr(now, cap), d) == Bool(now < Decode(d).expiresAt && !AtCap(cap, Decode(d).attemptCount))
  {
    var unexpired := Gt(Field("expires_at"), Literal(Date(now)));
    assert Eval(unexpired, d) == Bool(now < Decode(d).expiresAt);
    if cap.Some? {
      var below := Lt(Field("attempt_count"), Literal(Num(cap.value)));
      assert Eval(below, d) == Bool(Decode(d).attemptCount < cap.value);
      AndOfTwo(unexpired, below, d);
    }
  }

  lemma OrMeans(es: seq<Expr>, d: Document)
    ensures Eval(Or(es), d) == Bool(exists i :: 0 <= i < |es| && Truthy(Eval(es[i], d)))
  {
  }

  lemma MatchMeans(d: Document, hash: string)
    requires Readable(d)
    ensures Eval(MatchExpr(hash), d) == Bool(Decode(d).valueHash == hash)
  {
  }

  lemma CountMeans(d: Document, hash: string, now: int, cap: Option<int>)
    requires Readable(d) && Decode(d).consumedAt.None?
    ensures forall consume ::
            Eval(CountExpr(hash, now, cap), d) == Num(Attempted(Decode(d), hash, now, cap, consume).attemptCount)
  {
    LiveMeans(d, now, cap);
    MatchMeans(d, hash);
    var wrong := And([LiveExpr(now, cap), Not(MatchExpr(hash))]);
    assert Eval(Not(MatchExpr(hash)), d) == Bool(Decode(d).valueHash != hash);
    AndOfTwo(LiveExpr(now, cap), Not(MatchExpr(hash)), d);
    assert Eval(Add(Field("attempt_count"), Literal(Num(1))), d) == Num(Decode(d).attemptCount + 1);
    assert Eval(CountExpr(hash, now, cap), d)
        == if Truthy(Eval(wrong, d)) then Num(Decode(d).attemptCount + 1) else Num(Decode(d).attemptCount);
  }

  lemma TerminalMeans(d: Document, hash: string, now: int, cap: Option<int>, consume: bool)
    requires Readable(d) && Decode(d).consumedAt.None?
    ensures Eval(Or(TerminalExprs(hash, now, cap, consume)), d)
         == Bool(Attempted(Decode(d), hash, now, cap, consume).consumedAt.Some?)
  {
    var c := Decode(d);
    var es := TerminalExprs(hash, now, cap, consume);
    var live, matches := LiveExpr(now, cap), MatchExpr(hash);
    LiveMeans(d, now, cap);
    MatchMeans(d, hash);
    CountMeans(d, hash, now, cap);
    AndOfTwo(live, matches, d);
    OrMeans(es, d);
    assert es[0] == Not(live);
    assert Truthy(Eval(es[0], d)) <==> !(now < c.expiresAt && !AtCap(cap, c.attemptCount));
    if consume {
      assert es[1] == And([live, matches]);
      assert Truthy(Eval(es[1], d)) <==> now < c.expiresAt && !AtCap(cap, c.attemptCount) && c.valueHash == hash;
    }
    if cap.Some? {
      var top := Gte(CountExpr(hash, now, cap), Literal(Num(cap.value)));
      assert es[|es| - 1] == top;
      assert Eval(top, d) == Bool(Attempted(c, hash, now, cap, consume).attemptCount >= cap.value);
    }
  }

  /**
   On every unconsumed document the pipeline stores what the decision function would, except that it always dates the
   update.
   */
  lemma PipelineMatches(d: Document, hash: string, now: int, cap: Option<int>, consume: bool)
    requires Readable(d) && Decode(d).consumedAt.None?
    ensures var after := Update([AttemptStage(hash, now, cap, consume)], d);
      Readable(after) && Decode(after) == Attempted(Decode(d), hash, now, cap, consume).(updatedAt := now)
  {
    var stage := AttemptStage(hash, now, cap, consume);
    OneStage(stage, d);
    CountMeans(d, hash, now, cap);
    TerminalMeans(d, hash, now, cap, consume);
    var terminal := Or(TerminalExprs(hash, now, cap, consume));
    var consumed := Cond(terminal, Literal(Date(now)), Literal(Null));
    assert Eval(consumed, d) == if Truthy(Eval(terminal, d)) then Date(now) else Null;
    StageReads(stage, d);
  }

  /** The attempt's stage changes three fields. */
  lemma StageReads(stage: Stage, d: Document)
    requires stage.Set? && stage.fields.Keys == {"attempt_count", "consumed_at", "updated_at"}
    ensures var after := Apply(stage, d);
      && Read(after, "value_hash") == Read(d, "value_hash") && Read(after, "expires_at") == Read(d, "expires_at")
      && (forall name :: name in stage.fields ==> Read(after, name) == Eval(stage.fields[name], d))
  {
    SetReads(stage.fields, d, "value_hash");
    SetReads(stage.fields, d, "expires_at");
    forall name | name in stage.fields ensures Read(Apply(stage, d), name) == Eval(stage.fields[name], d) {
      SetReads(stage.fields, d, name);
    }
  }

  // ----- The collection: (identifier, purpose) is a unique index -----

  function AfterUpdate(st: Store, key: Key, hash: string, now: int, cap: Option<int>, consume: bool): Store {
    if key in st && st[key].consumedAt.None? then
      st[key := Attempted(st[key], hash, now, cap, consume).(updatedAt := now)]
    else st
  }

  ghost predicate AllReadable(docs: map<Key, Document>) {
    forall k :: k in docs ==> Readable(docs[k])
  }

  ghost function Decoded(docs: map<Key, Document>): Store
    requires AllReadable(docs)
  {
    map k | k in docs :: Decode(docs[k])
  }

  lemma DecodedPut(docs: map<Key, Document>, key: Key, d: Document)
    requires AllReadable(docs) && Readable(d)
    ensures AllReadable(docs[key := d]) && Decoded(docs[key := d]) == Decoded(docs)[key := Decode(d)]
  {
  }

  predicate Unconsumed(d: Document) {
    Read(d, "consumed_at").Missing? || Read(d, "consumed_at").Null?
  }

  class MongoAdapter {
    var documents: map<Key, Document>

    ghost predicate Valid()
      reads this
    {
      AllReadable(documents)
    }

    ghost function Contents(): Store
      reads this
      requires Valid()
    {
      Decoded(documents)
    }

    /** An upsert: an existing document keeps the fields the update does not name. */
    method CreateVerification(key: Key, c: Challenge)
      requires Valid()
      modifies this
      ensures Valid() && Contents() == old(Contents())[key := c]
    {
      var existing: Document := if key in documents then documents[key] else map[];
      EncodeDecode(existing, c);
      DecodedPut(documents, key, existing + Encode(c));
      documents := documents[key := existing + Encode(c)];
    }

    /** find_one_and_update on the unconsumed document of a key; returns the document as it was. */
    method UpdateUnconsumed(key: Key, stage: Stage) returns (before: Option<Document>)
      modifies this
      ensures before == if key in old(documents) && Unconsumed(old(documents)[key])
                        then Some(old(documents)[key]) else None
      ensures documents == if before.Some? then old(documents)[key := Update([stage], before.value)] else old(documents)
    {
      if key !in documents || !Unconsumed(documents[key]) { return None; }
      before := Some(documents[key]);
      documents := documents[key := Update([stage], documents[key])];
    }

    /** The reply is decided from the document as it was before the update. */
    method AttemptVerification(key: Key, hash: string, now: int, cap: Option<int>, consume: bool) returns (reply: Reply)
      requires Valid()
      modifies this
      ensures Valid()
      ensures !ValidCap(cap) ==> reply == BadCap && Contents() == old(Contents())
      ensures ValidCap(cap) ==>
                && reply == Decided(Decide(Find(old(Contents()), key), hash, now, cap, consume))
                && Contents() == AfterUpdate(old(Contents()), key, hash, now, cap, consume)
    {
      if cap.Some? && cap.value < 1 { return BadCap; }
      ghost var was := documents;
      var before := UpdateUnconsumed(key, AttemptStage(hash, now, cap, consume));
      if before.Some? {
        PipelineMatches(before.value, hash, now, cap, consume);
        DecodedPut(was, key, documents[key]);
      }
      var previous := if before.Some? then Some(Decode(before.value)) else None;
      reply := Decided(Decide(previous, hash, now, cap, consume));
    }
  }

  // ----- Runs of the two stores -----

  function Undated(c: Challenge): Challenge { c.(updatedAt := 0) }

  ghost predicate Agree(a: Store, b: Store) {
    a.Keys == b.Keys && forall k :: k in a ==> Undated(a[k]) == Undated(b[k])
  }

  predicate SameAnswer(a: Attempt, b: Attempt) {
    && a.status == b.status && a.attemptCount == b.attemptCount
    && (a.verification.None? <==> b.verification.None?)
    && (a.verification.Some? ==> Undated(a.verification.value) == Undated(b.verification.value))
  }

  function MongoStep(cap: Option<int>, st: Store, e: ChallengeRuns.Event): Store {
    match e
    case Issue(key, c) => st[key := c]
    case Try(key, hash, now, consume) => AfterUpdate(st, key, hash, now, cap, consume)
  }

  function MongoRun(cap: Option<int>, st: Store, es: seq<ChallengeRuns.Event>): Store
    decreases |es|
  {
    if es == [] then st else MongoStep(cap, MongoRun(cap, st, es[..|es| - 1]), es[|es| - 1])
  }

  lemma AttemptsAgree(a: Challenge, b: Challenge, hash: string, now: int, cap: Option<int>, consume: bool)
    requires Undated(a) == Undated(b)
    ensures Undated(Attempted(a, hash, now, cap, consume)) == Undated(Attempted(b, hash, now, cap, consume))
    ensures SameAnswer(Decide(Some(a), hash, now, cap, consume), Decide(Some(b), hash, now, cap, consume))
  {
  }

  lemma StepAgrees(cap: Option<int>, a: Store, b: Store, e: ChallengeRuns.Event)
    requires Agree(a, b)
    ensures Agree(MongoStep(cap, a, e), ChallengeRuns.Step(cap, b, e))
    ensures e.Try? ==> SameAnswer(ChallengeRuns.Answer(cap, a, e), ChallengeRuns.Answer(cap, b, e))
  {
    if e.Try? && e.key in a { AttemptsAgree(a[e.key], b[e.key], e.hash, e.now, cap, e.consume); }
  }

  /** After any run the two stores differ in update times only, and so they answer every next attempt alike. */
  lemma {:induction false} RunsAgree(cap: Option<int>, st: Store, es: seq<ChallengeRuns.Event>)
    ensures Agree(MongoRun(cap, st, es), ChallengeRuns.Run(cap, st, es))
    ensures forall e: ChallengeRuns.Event :: e.Try? ==>
      SameAnswer(ChallengeRuns.Answer(cap, MongoRun(cap, st, es), e),
        ChallengeRuns.Answer(cap, ChallengeRuns.Run(cap, st, es), e))
    decreases |es|
  {
    if es == [] {
    } else {
      var pre := es[..|es| - 1];
      RunsAgree(cap, st, pre);
      StepAgrees(cap, MongoRun(cap, st, pre), ChallengeRuns.Run(cap, st, pre), es[|es| - 1]);
    }
    forall e: ChallengeRuns.Event | e.Try?
      ensures SameAnswer(ChallengeRuns.Answer(cap, MongoRun(cap, st, es), e),
              ChallengeRuns.Answer(cap, ChallengeRuns.Run(cap, st, es), e))
    {
      StepAgrees(cap, MongoRun(cap, st, es), ChallengeRuns.Run(cap, st, es), e);
    }
  }
}
