/** What a token's row says in every run: its family, its session, and the successor that replaced it. */
module MongoRows {
  import opened Prelude
  import opened MongoFamilies
  import Refinement = MongoRefinement
  import Answers = MongoAnswers

  /** A consumed row names its one successor; a published token's session is published for its family. */
  ghost predicate RowOk(s: State, t: nat)
    requires t in s.tokens
  {
    var doc := s.tokens[t];
    && (if doc.consumed then t in s.log.succ && doc.replacedBy == Some(s.log.succ[t]) else doc.replacedBy.None?)
    && (t in s.log.out ==> doc.family in s.log.published && doc.session in s.log.published[doc.family])
  }

  /** The row of a token that is still to be published bears the session and the family it will be published with. */
  ghost predicate OwnRowOk(s: State, c: PC) {
    && (c.CreateFamily? && c.t in s.tokens ==> s.tokens[c.t].session == c.session && s.tokens[c.t].family == c.t)
    && (c.RotateCas? && c.t in s.tokens ==> s.tokens[c.t].session == c.session && s.tokens[c.t].family == c.f)
  }

  ghost predicate RowsOk(s: State) {
    && Answers.AnswersOk(s)
    && (forall t :: t in s.tokens ==> RowOk(s, t))
    && (forall p :: OwnRowOk(s, At(s, p)))
  }

  /** Rows keep their family and session for as long as they exist, and only fresh tokens get new ones. */
  ghost predicate RowsKept(s: State, s': State) {
    forall t :: t in s'.tokens ==>
      if t in s.tokens then s'.tokens[t].family == s.tokens[t].family && s'.tokens[t].session == s.tokens[t].session
      else t !in s.log.origin && !s'.tokens[t].consumed && s'.tokens[t].replacedBy.None? && t !in s'.log.out
  }

  ghost predicate PublishedGrows(s: State, s': State) {
    forall f :: f in s.log.published ==> f in s'.log.published && s.log.published[f] <= s'.log.published[f]
  }

  /** What every event but the patch and a publication does to rows: some go, a fresh one may come. */
  ghost predicate Ordinary(s: State, s': State) {
    && RowsKept(s, s') && PublishedGrows(s, s') && s'.log.out == s.log.out && s'.log.succ == s.log.succ
    && forall t :: t in s.tokens && t in s'.tokens ==> s'.tokens[t] == s.tokens[t]
  }

  lemma OrdinaryKeeps(s: State, s': State)
    requires RowsOk(s) && Ordinary(s, s')
    ensures forall t :: t in s'.tokens ==> RowOk(s', t)
  {
    forall t | t in s'.tokens ensures RowOk(s', t) {
      if t in s.tokens { assert RowOk(s, t); } else { assert t !in s'.log.out; }
    }
  }

  lemma OwnKeeps(s: State, s': State, c: PC)
    requires Refinement.PcOk(s, c) && OwnRowOk(s, c) && RowsKept(s, s')
    ensures OwnRowOk(s', c)
  {
  }

  /** A fresh token's id is not known to anything yet, so nothing has published it. */
  lemma FreshIsUnknown(s: State, t: nat)
    requires Refinement.Inv(s) && t !in s.log.origin
    ensures t !in s.log.out && t !in s.tokens
  {
    assert t in s.log.out ==> Refinement.TokenOk(s, t);
    assert t in s.tokens ==> Refinement.DocOk(s, t, s.tokens[t]);
  }

  lemma StartOrdinary(s: State, e: Event)
    requires Refinement.Inv(s) && !e.Advance? && !e.LostReply?
    ensures Ordinary(s, Next(s, e))
  {
    if (e.StartCreate? || e.StartRotate?) && e.t !in s.log.origin { FreshIsUnknown(s, e.t); }
    StartChanges(s, e);
  }

  lemma StartChanges(s: State, e: Event)
    requires !e.Advance? && !e.LostReply?
    requires (e.StartCreate? || e.StartRotate?) && e.t !in s.log.origin ==> e.t !in s.log.out && e.t !in s.tokens
    ensures Ordinary(s, Next(s, e))
  {
  }

  lemma CallOrdinary(s: State, p: nat)
    requires !At(s, p).CreateFamily? && !At(s, p).RotateCas? && !At(s, p).RotatePatch?
    ensures Ordinary(s, Call(s, p))
  {
    var c := At(s, p);
    if Revoking(c) {
      RevocationOnlyRemoves(s, p);
    } else if c.ReadFamily? || c.LookupFamily? {
      ReadOnlyAnswers(s, p);
    } else if Rotating(c) {
      RotationNeverRevokes(s, p);
    }
  }

  lemma InsertRows(s: State, s': State, p: nat)
    requires RowsOk(s) && At(s, p).CreateFamily?
    requires s'.tokens == s.tokens && s'.log.out == InsertFamily(s, p).log.out && s'.log.succ == s.log.succ
    requires s'.log.published == InsertFamily(s, p).log.published
    ensures forall t :: t in s'.tokens ==> RowOk(s', t)
  {
    var c := At(s, p);
    assert OwnRowOk(s, c) && Refinement.PcOk(s, c);
    forall t | t in s'.tokens ensures RowOk(s', t) {
      assert RowOk(s, t) && Refinement.DocOk(s, t, s.tokens[t]);
      if t in s.log.out { assert Refinement.TokenOk(s, t); }
    }
  }

  lemma CasRows(s: State, p: nat)
    requires RowsOk(s) && At(s, p).RotateCas?
    ensures var s' := CompareAndSet(s, p); forall t :: t in s'.tokens ==> RowOk(s', t)
  {
    var c, s' := At(s, p), CompareAndSet(s, p);
    assert OwnRowOk(s, c) && Refinement.PcOk(s, c);
    if CasMatches(s, c.f, c.cur, c.at) { Refinement.CasShown(s, p); }
    forall t | t in s'.tokens ensures RowOk(s', t) {
      assert RowOk(s, t) && Refinement.DocOk(s, t, s.tokens[t]);
      if t == c.cur && CasMatches(s, c.f, c.cur, c.at) { assert Refinement.TokenOk(s, t); }
    }
  }

  lemma PatchRows(s: State, p: nat)
    requires RowsOk(s) && At(s, p).RotatePatch?
    ensures var s' := RotateCall(s, p); forall t :: t in s'.tokens ==> RowOk(s', t)
  {
    assert Answers.AnswerOk(s, At(s, p));
    forall t | t in s.tokens ensures RowOk(RotateCall(s, p), t) { assert RowOk(s, t); }
  }

  lemma NextRowOk(s: State, e: Event)
    requires RowsOk(s)
    ensures forall t :: t in Next(s, e).tokens ==> RowOk(Next(s, e), t)
  {
    if e.LostReply? {
      if At(s, e.p).CreateFamily? && At(s, e.p).t !in s.families { InsertRows(s, LoseReply(s, e.p), e.p); }
      else { assert Next(s, e) == s; }
    } else if !e.Advance? {
      StartOrdinary(s, e);
      OrdinaryKeeps(s, Next(s, e));
    } else {
      CallRowOk(s, e.p);
    }
  }

  lemma CallRowOk(s: State, p: nat)
    requires RowsOk(s)
    ensures forall t :: t in Call(s, p).tokens ==> RowOk(Call(s, p), t)
  {
    var c := At(s, p);
    if c.CreateFamily? { InsertRows(s, InsertFamily(s, p), p); }
    else if c.RotateCas? { CasRows(s, p); }
    else if c.RotatePatch? { PatchRows(s, p); }
    else {
      CallOrdinary(s, p);
      OrdinaryKeeps(s, Call(s, p));
    }
  }

  lemma NextRowsKept(s: State, e: Event)
    requires Refinement.Inv(s)
    ensures RowsKept(s, Next(s, e))
  {
    if e.Advance? { CallRowsKept(s, e.p); }
    else if !e.LostReply? { StartOrdinary(s, e); }
  }

  lemma CallRowsKept(s: State, p: nat)
    ensures RowsKept(s, Call(s, p))
  {
    var c := At(s, p);
    if !c.CreateFamily? && !c.RotateCas? && !c.RotatePatch? { CallOrdinary(s, p); }
  }

  /** A process that begins to create or rotate has just inserted the row it will publish. */
  lemma NextOwnOk(s: State, e: Event, p: nat)
    requires RowsOk(s) && RowsKept(s, Next(s, e))
    ensures OwnRowOk(Next(s, e), At(Next(s, e), p))
  {
    assert OwnRowOk(s, At(s, p)) && Refinement.PcOk(s, At(s, p));
    if At(Next(s, e), p) == At(s, p) { OwnKeeps(s, Next(s, e), At(s, p)); } else { NewOwnOk(s, e, p); }
  }

  lemma NewOwnOk(s: State, e: Event, p: nat)
    requires At(Next(s, e), p) != At(s, p)
    ensures OwnRowOk(Next(s, e), At(Next(s, e), p))
  {
  }

  lemma NextRows(s: State, e: Event)
    requires RowsOk(s)
    ensures RowsOk(Next(s, e))
  {
    Answers.NextAnswers(s, e);
    NextRowOk(s, e);
    NextRowsKept(s, e);
    forall p ensures OwnRowOk(Next(s, e), At(Next(s, e), p)) { NextOwnOk(s, e, p); }
  }

  lemma {:induction false} RowsExec(s: State, es: seq<Event>)
    requires RowsOk(s)
    ensures RowsOk(Exec(s, es))
    decreases |es|
  {
    if es == [] {
    } else {
      NextRows(s, es[0]);
      RowsExec(Next(s, es[0]), es[1..]);
    }
  }

  /**
   In every run, a row names the family its token was meant for; it is consumed only if the token was exchanged, and
   then names the successor of that exchange; and the session of a published token is published for the family.
   */
  lemma RowsTellTheTruth(es: seq<Event>, t: nat)
    requires t in Exec(INIT, es).tokens
    ensures var s := Exec(INIT, es); var doc := s.tokens[t];
            && t in s.log.origin && doc.family == s.log.origin[t]
            && (if doc.consumed then t in s.log.succ && doc.replacedBy == Some(s.log.succ[t])
                else doc.replacedBy == None)
            && (t in s.log.out ==> doc.family in s.log.published && doc.session in s.log.published[doc.family])
  {
    Refinement.InitInv();
    RowsExec(INIT, es);
    var s := Exec(INIT, es);
    assert RowOk(s, t) && Refinement.DocOk(s, t, s.tokens[t]);
  }
}
