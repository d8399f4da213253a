/**
 What the family operations answer: when a session is found, what a rotation returns, and what a rotation or a
 revocation that nobody disturbs leaves behind.
 */
module MongoAnswers {
  import opened Prelude
  import opened MongoFamilies
  import Listing = MongoRevocation
  import Refinement = MongoRefinement

  // ----- When a session is found -----

  /**
   In every run, the second call of a session lookup finds the session exactly when every family that lists it is
   unrevoked, and otherwise answers that there is none.
   */
  lemma SecondCallFindsExactly(es: seq<Event>, p: nat, id: nat)
    requires At(Exec(INIT, es), p) == LookupFamily(id)
    ensures var s := Exec(INIT, es);
            At(Next(s, Advance(p)), p)
            == SessionRead(id, forall f :: f in s.families && Doc(id) in s.families[f].sessions ==>
                                 !s.families[f].revoked)
  {
  }

  /** A lookup whose two calls follow each other. */
  ghost function LookupAnswer(s: State, p: nat, id: nat): PC {
    At(Next(Next(s, StartLookup(p, id)), Advance(p)), p)
  }

  /**
   In every run, an undisturbed lookup finds a session that some family published exactly when it exists and that
   family is not revoked: a live session is never hidden by another family, nor by its own.
   */
  lemma PublishedIsFoundExactly(es: seq<Event>, p: nat, f: nat, id: nat)
    requires var s := Exec(INIT, es); At(s, p) == Idle && f in s.log.published && Doc(id) in s.log.published[f]
    ensures var s := Exec(INIT, es);
            && f in s.families
            && LookupAnswer(s, p, id) == SessionRead(id, id in s.sessions && !s.families[f].revoked)
  {
    Listing.InitInv();
    Listing.InvExec(INIT, es);
    var s := Exec(INIT, es);
    LookupCalls(s, p, id);
    if id in s.sessions { ListedOnce(s, f, id); }
  }

  /** A published session that exists is on its own family's list and on no other. */
  lemma ListedOnce(s: State, f: nat, id: nat)
    requires Listing.Inv(s) && f in s.log.published && Doc(id) in s.log.published[f] && id in s.sessions
    ensures forall g :: g in s.families ==> (Doc(id) in s.families[g].sessions <==> g == f)
  {
    assert Listing.FamilyOk(s, f);
    forall g | g in s.families && Doc(id) in s.families[g].sessions ensures g == f {
      assert Listing.FamilyOk(s, g);
    }
  }

  lemma LookupCalls(s: State, p: nat, id: nat)
    requires At(s, p) == Idle
    ensures LookupAnswer(s, p, id)
         == SessionRead(id, id in s.sessions && forall f :: f in s.families && Doc(id) in s.families[f].sessions ==>
                              !s.families[f].revoked)
  {
    var s' := if id in s.sessions then Goto(s, p, LookupFamily(id)) else Goto(s, p, SessionRead(id, false));
    assert Next(s, StartLookup(p, id)) == s';
  }

  /** A session that no family lists yet is found as long as it exists. */
  lemma UnlistedIsFoundExactly(es: seq<Event>, p: nat, id: nat)
    requires var s := Exec(INIT, es);
             At(s, p) == Idle && forall f :: f in s.families ==> Doc(id) !in s.families[f].sessions
    ensures var s := Exec(INIT, es); LookupAnswer(s, p, id) == SessionRead(id, id in s.sessions)
  {
    LookupCalls(Exec(INIT, es), p, id);
  }

  // ----- What a rotation returns -----

  /** Token `t` was never published, and no process can publish it any more. */
  ghost predicate Spent(s: State, t: nat) {
    t in s.log.origin && t !in s.log.out && forall q :: Refinement.Owned(At(s, q)) != Some(t)
  }

  ghost predicate HasPredecessor(s: State, t: nat) {
    t in s.log.out && exists cur :: cur in s.log.succ && s.log.succ[cur] == t
  }

  ghost predicate AnswerOk(s: State, c: PC) {
    match c
    case RotateCheck(_, t, _) => Spent(s, t)
    case RotateDrop(t, _) => Spent(s, t)
    case RotatePatch(_, cur, t, _, _) => t in s.log.out && cur in s.log.succ && s.log.succ[cur] == t
    case CleanDelete(_, t, _, _) => HasPredecessor(s, t)
    case CleanPull(_, t, _, _) => HasPredecessor(s, t)
    case Rotated(t, result) => if result.None? then Spent(s, t) else result == Some(t) && HasPredecessor(s, t)
    case _ => true
  }

  ghost predicate AnswersOk(s: State) {
    Refinement.Inv(s) && forall p :: AnswerOk(s, At(s, p))
  }

  /** Who owns an unpublished token keeps it, gives it up, or takes a fresh one; only an owner publishes. */
  lemma OwnersMove(s: State, e: Event, q: nat)
    requires Refinement.Owned(At(Next(s, e), q)).Some?
    ensures var t := Refinement.Owned(At(Next(s, e), q)).value;
            Refinement.Owned(At(s, q)) == Some(t) || t !in s.log.origin
  {
  }

  lemma OnlyOwnersPublish(s: State, e: Event, t: nat)
    requires t in Next(s, e).log.out && t !in s.log.out
    ensures exists q :: Refinement.Owned(At(s, q)) == Some(t)
  {
    if e.Advance? {
      OnlyOwnersCall(s, e.p, t);
    } else {
      assert e.LostReply? && Refinement.Owned(At(s, e.p)) == Some(t);
    }
  }

  lemma OnlyOwnersCall(s: State, p: nat, t: nat)
    requires t in Call(s, p).log.out && t !in s.log.out
    ensures Refinement.Owned(At(s, p)) == Some(t)
  {
    var c := At(s, p);
    if Rotating(c) && !c.RotateCas? { RotationNeverRevokes(s, p); }
    else if Revoking(c) { RevocationOnlyRemoves(s, p); }
    else if c.ReadFamily? || c.LookupFamily? { ReadOnlyAnswers(s, p); }
  }

  lemma SpentStays(s: State, e: Event, t: nat)
    requires Refinement.Inv(s) && Spent(s, t)
    ensures Spent(Next(s, e), t)
  {
    Refinement.NextRefines(s, e);
    if t in Next(s, e).log.out { OnlyOwnersPublish(s, e, t); }
    forall q ensures Refinement.Owned(At(Next(s, e), q)) != Some(t) {
      if Refinement.Owned(At(Next(s, e), q)).Some? { OwnersMove(s, e, q); }
    }
  }

  lemma AnswerStays(s: State, e: Event, c: PC)
    requires Refinement.Inv(s) && AnswerOk(s, c)
    ensures AnswerOk(Next(s, e), c)
  {
    Refinement.NextRefines(s, e);
    if c.RotateCheck? || c.RotateDrop? || (c.Rotated? && c.result.None?) { SpentStays(s, e, c.t); }
    else if c.CleanDelete? || c.CleanPull? || c.Rotated? {
      var cur :| cur in s.log.succ && s.log.succ[cur] == c.t;
      assert cur in Next(s, e).log.succ && Next(s, e).log.succ[cur] == c.t;
    }
  }

  /** The mover of a rotation: a loser gives its token up for good, a winner has published it. */
  lemma MoverAnswers(s: State, p: nat)
    requires AnswersOk(s) && Rotating(At(s, p))
    ensures AnswerOk(RotateCall(s, p), At(RotateCall(s, p), p))
  {
    var c, s' := At(s, p), RotateCall(s, p);
    assert AnswerOk(s, c) && Refinement.PcOk(s, c);
    assert Next(s, Advance(p)) == s';
    AnswerStays(s, Advance(p), c);
    if c.RotateUndo? {
      assert Refinement.Owned(c) == Some(c.t);
      forall q ensures Refinement.Owned(At(s', q)) != Some(c.t) { }
    }
  }

  /** No other move takes a process into the later stages of a rotation. */
  lemma OthersStayOut(s: State, e: Event, p: nat)
    requires At(Next(s, e), p) != At(s, p) && !(e.Advance? && e.p == p && Rotating(At(s, p)))
    ensures AnswerOk(Next(s, e), At(Next(s, e), p))
  {
  }

  lemma NextAnswers(s: State, e: Event)
    requires AnswersOk(s)
    ensures AnswersOk(Next(s, e))
  {
    Refinement.NextRefines(s, e);
    forall p ensures AnswerOk(Next(s, e), At(Next(s, e), p)) { OneAnswers(s, e, p); }
  }

  lemma OneAnswers(s: State, e: Event, p: nat)
    requires AnswersOk(s)
    ensures AnswerOk(Next(s, e), At(Next(s, e), p))
  {
    if e.Advance? && e.p == p && Rotating(At(s, p)) {
      assert Next(s, e) == RotateCall(s, p);
      MoverAnswers(s, p);
    } else if At(Next(s, e), p) == At(s, p) {
      assert AnswerOk(s, At(s, p));
      AnswerStays(s, e, At(s, p));
    } else {
      OthersStayOut(s, e, p);
    }
  }

  lemma {:induction false} AnswersExec(s: State, es: seq<Event>)
    requires AnswersOk(s)
    ensures AnswersOk(Exec(s, es))
    decreases |es|
  {
    if es == [] {
    } else {
      NextAnswers(s, es[0]);
      AnswersExec(Next(s, es[0]), es[1..]);
    }
  }

  lemma {:induction false} SpentExec(s: State, es: seq<Event>, t: nat)
    requires Refinement.Inv(s) && Spent(s, t)
    ensures Spent(Exec(s, es), t)
    decreases |es|
  {
    if es == [] {
    } else {
      Refinement.NextRefines(s, es[0]);
      SpentStays(s, es[0], t);
      SpentExec(Next(s, es[0]), es[1..], t);
    }
  }

  /**
   In every run, a rotation that has finished returns its new token exactly when that token was published, as the
   successor of another; and otherwise it returns nothing, and the token is not published later either.
   */
  lemma RotationAnswersExactly(es: seq<Event>, p: nat, after: seq<Event>)
    requires At(Exec(INIT, es), p).Rotated?
    ensures var s := Exec(INIT, es); var c := At(s, p);
            && c.result == (if c.t in s.log.out then Some(c.t) else None)
            && (c.t in s.log.out <==> exists cur :: cur in s.log.succ && s.log.succ[cur] == c.t)
            && (c.result.None? ==> c.t !in Exec(s, after).log.out)
  {
    Refinement.InitInv();
    AnswersExec(INIT, es);
    var s := Exec(INIT, es);
    var c := At(s, p);
    assert AnswerOk(s, c);
    if cur :| cur in s.log.succ && s.log.succ[cur] == c.t { assert Refinement.TokenOk(s, cur); }
    if c.result.None? { SpentExec(s, after, c.t); }
  }

  // ----- Left alone -----

  /** What a rotation that won has done to the store once nobody disturbs it. */
  ghost predicate Cleaned(s: State, s': State, p: nat, f: nat, t: nat, keep: SessionRef, gone: seq<SessionRef>) {
    && At(s', p) == Rotated(t, Some(t)) && s'.tokens == s.tokens && s'.log == s.log
    && s'.families.Keys == s.families.Keys
    && (forall g :: g in s.families && g != f ==> s'.families[g] == s.families[g])
    && (f in s.families ==>
          && s'.families[f] == s.families[f].(sessions := s'.families[f].sessions)
          && forall x :: x in s'.families[f].sessions <==> x in s.families[f].sessions && !(x in gone && x != keep))
    && (forall id :: id in s'.sessions <==> id in s.sessions && !(Doc(id) in gone && Doc(id) != keep))
  }

  /** Cleaning up, alone: every listed session but the new one is deleted and unlisted; the new token is returned. */
  lemma {:induction false} LoneCleaning(s: State, p: nat) returns (es: seq<Event>)
    requires At(s, p).CleanDelete?
    ensures Listing.OnlyAdvances(es, p)
    ensures var c := At(s, p); Cleaned(s, Exec(s, es), p, c.f, c.t, c.keep, c.pending)
    decreases |At(s, p).pending|
  {
    var c := At(s, p);
    var s1 := CleanStep(s, p);
    assert Next(s, Advance(p)) == s1;
    if c.pending == [] {
      es := [Advance(p)];
      ExecStep(s, Advance(p), []);
    } else if c.pending[0] == c.keep {
      var rest := LoneCleaning(s1, p);
      es := [Advance(p)] + rest;
      ExecStep(s, Advance(p), rest);
      CleanedMore(s, s1, Exec(s1, rest), p, c);
    } else {
      var s2 := PullStep(s1, p);
      PullShape(s, p);
      var rest := LoneCleaning(s2, p);
      es := [Advance(p)] + ([Advance(p)] + rest);
      ExecStep(s, Advance(p), [Advance(p)] + rest);
      ExecStep(s1, Advance(p), rest);
      CleanedMore(s, s2, Exec(s2, rest), p, c);
    }
  }

  /** Deleting a session and pulling it: the two calls for one listed session. */
  lemma PullShape(s: State, p: nat)
    requires At(s, p).CleanDelete? && At(s, p).pending != [] && At(s, p).pending[0] != At(s, p).keep
    ensures var c, s1 := At(s, p), CleanStep(s, p);
            && At(s1, p).CleanPull?
            && var s2 := PullStep(s1, p);
            && Next(s1, Advance(p)) == s2 && At(s2, p) == CleanDelete(c.f, c.t, c.keep, c.pending[1..])
            && s2.tokens == s.tokens && s2.log == s.log && s2.families.Keys == s.families.Keys
            && (forall g :: g in s.families && g != c.f ==> s2.families[g] == s.families[g])
            && (c.f in s.families ==>
                  && s2.families[c.f] == s.families[c.f].(sessions := s2.families[c.f].sessions)
                  && forall x :: x in s2.families[c.f].sessions <==> x in s.families[c.f].sessions && x != c.pending[0])
            && forall id :: id in s2.sessions <==> id in s.sessions && Doc(id) != c.pending[0]
  {
  }

  /** One session done, the others as the rest of the cleaning leaves them. */
  lemma CleanedMore(s: State, mid: State, s': State, p: nat, c: PC)
    requires c.CleanDelete? && c.pending != [] && Cleaned(mid, s', p, c.f, c.t, c.keep, c.pending[1..])
    requires mid.tokens == s.tokens && mid.log == s.log && mid.families.Keys == s.families.Keys
    requires forall g :: g in s.families && g != c.f ==> mid.families[g] == s.families[g]
    requires c.f in s.families ==>
               && mid.families[c.f] == s.families[c.f].(sessions := mid.families[c.f].sessions)
               && forall x :: x in mid.families[c.f].sessions <==>
                    x in s.families[c.f].sessions && !(x == c.pending[0] && x != c.keep)
    requires forall id :: id in mid.sessions <==> id in s.sessions && !(Doc(id) == c.pending[0] && Doc(id) != c.keep)
    ensures Cleaned(s, s', p, c.f, c.t, c.keep, c.pending)
  {
    assert forall x :: x in c.pending <==> x == c.pending[0] || x in c.pending[1..];
  }

  /**
   A rotation whose compare-and-set matches, left alone, returns its new token, which is then the active one; the old
   row is consumed and names it, the new session is the only one listed, and every other listed session is deleted.
   */
  lemma LoneRotation(s: State, p: nat) returns (es: seq<Event>)
    requires At(s, p).RotateCas? && CasMatches(s, At(s, p).f, At(s, p).cur, At(s, p).at)
    ensures Listing.OnlyAdvances(es, p)
    ensures var c, t := At(s, p), Exec(s, es);
            && At(t, p) == Rotated(c.t, Some(c.t))
            && c.f in t.families && t.families[c.f].active == c.t && !t.families[c.f].revoked
            && t.families[c.f].expires == c.expires
            && (forall x :: x in t.families[c.f].sessions <==> x == c.session)
            && (c.cur in s.tokens ==>
                  c.cur in t.tokens && t.tokens[c.cur].consumed && t.tokens[c.cur].replacedBy == Some(c.t))
            && (forall id :: id in t.sessions <==>
                  id in s.sessions && !(Doc(id) in s.families[c.f].sessions && Doc(id) != c.session))
  {
    var c := At(s, p);
    var s1 := CompareAndSet(s, p);
    var s2 := RotateCall(s1, p);
    assert Next(s, Advance(p)) == s1 && Next(s1, Advance(p)) == s2;
    var rest := LoneCleaning(s2, p);
    es := [Advance(p)] + ([Advance(p)] + rest);
    ExecStep(s, Advance(p), [Advance(p)] + rest);
    ExecStep(s1, Advance(p), rest);
  }

  /**
   A rotation whose compare-and-set does not match, left alone, returns nothing and deletes its own row; it deletes
   its session exactly when the family does not list it, and touches no other session and no family.
   */
  lemma LoneLoser(s: State, p: nat) returns (es: seq<Event>)
    requires At(s, p).RotateCas? && !CasMatches(s, At(s, p).f, At(s, p).cur, At(s, p).at)
    ensures Listing.OnlyAdvances(es, p)
    ensures var c, t := At(s, p), Exec(s, es);
            && At(t, p) == Rotated(c.t, None) && t.tokens == s.tokens - {c.t} && t.families == s.families
            && forall id :: id in t.sessions <==>
                 && id in s.sessions
                 && (Doc(id) == c.session ==> c.f in s.families && c.session in s.families[c.f].sessions)
  {
    var c := At(s, p);
    var s1 := CompareAndSet(s, p);
    var s2 := RotateCall(s1, p);
    var s3 := RotateCall(s2, p);
    ExecThree(s, Advance(p), Advance(p), Advance(p));
    es := [Advance(p), Advance(p), Advance(p)];
    if s3.pc[p].RotateDrop? {
      ExecAppend(s, es, [Advance(p)]);
      ExecStep(s3, Advance(p), []);
      es := es + [Advance(p)];
    }
  }

  /**
   A revocation left alone is over after four calls: the family, if it exists, is revoked, no token row of it is left,
   and what is gone of the sessions is exactly what its list and its rows named.
   */
  lemma LoneRevocation(s: State, p: nat)
    requires At(s, p).RevokeMark?
    ensures var f, t := At(s, p).f, Exec(s, [Advance(p), Advance(p), Advance(p), Advance(p)]);
            && At(t, p) == Idle && TokensOf(t, f) == {} && t.tokens == s.tokens - TokensOf(s, f)
            && (f in s.families ==> Revoked(t, f))
            && (forall g :: g in s.families && g != f ==> g in t.families && t.families[g] == s.families[g])
            && forall id :: id in t.sessions <==>
                 && id in s.sessions
                 && !(f in s.families && Doc(id) in s.families[f].sessions)
                 && forall k :: k in TokensOf(s, f) ==> s.tokens[k].session != Doc(id)
  {
    var three := [Advance(p), Advance(p), Advance(p)];
    assert [Advance(p)] + three == [Advance(p), Advance(p), Advance(p), Advance(p)];
    ExecStep(s, Advance(p), three);
    assert Next(s, Advance(p)) == Mark(s, p);
    LoneSweep(Mark(s, p), p);
    assert TokensOf(Mark(s, p), At(s, p).f) == TokensOf(s, At(s, p).f);
  }

  /** The three calls after the mark. */
  lemma LoneSweep(s: State, p: nat)
    requires At(s, p).RevokeRead?
    ensures var c, t := At(s, p), Exec(s, [Advance(p), Advance(p), Advance(p)]);
            && At(t, p) == Idle && t.tokens == s.tokens - TokensOf(s, c.f) && t.families == s.families
            && forall id :: id in t.sessions <==>
                 && id in s.sessions && !(c.listed.Some? && Doc(id) in c.listed.value)
                 && forall k :: k in TokensOf(s, c.f) ==> s.tokens[k].session != Doc(id)
  {
    var f := At(s, p).f;
    var s1 := RevokeCall(s, p);
    var s2 := RevokeCall(s1, p);
    var s3 := RevokeCall(s2, p);
    ExecThree(s, Advance(p), Advance(p), Advance(p));
    assert Next(s, Advance(p)) == s1 && Next(s1, Advance(p)) == s2 && Next(s2, Advance(p)) == s3;
    assert TokensOf(s2, f) == TokensOf(s, f);
  }

  /** A rotation that fails after it published is turned into a revocation of its family. */
  lemma FaultRevokes(s: State, p: nat)
    requires At(s, p).RotatePatch? || At(s, p).CleanDelete? || At(s, p).CleanPull?
    requires At(s, p).f in s.families
    ensures var f := At(s, p).f;
            var t := Exec(Next(s, Fault(p)), [Advance(p), Advance(p), Advance(p), Advance(p)]);
            At(t, p) == Idle && Revoked(t, f) && TokensOf(t, f) == {}
  {
    LoneRevocation(Next(s, Fault(p)), p);
  }

  /** A creation that fails, whether or not its family insert took effect, deletes its token row again. */
  lemma FailedCreationUndoes(s: State, p: nat, lost: bool)
    requires At(s, p).CreateFamily? && At(s, p).t !in s.families
    ensures var t := Exec(s, [if lost then LostReply(p) else Fault(p), Advance(p)]);
            At(t, p) == Idle && t.tokens == s.tokens - {At(s, p).t} && (At(s, p).t in t.families <==> lost)
  {
    var e := if lost then LostReply(p) else Fault(p);
    ExecStep(s, e, [Advance(p)]);
    ExecStep(Next(s, e), Advance(p), []);
    assert [e] + [Advance(p)] == [e, Advance(p)] && [Advance(p)] + [] == [Advance(p)];
  }
}
