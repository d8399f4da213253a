/**
 Revocation is final for the two-call lookup as well, from the moment the revocation has deleted the sessions: whoever
 begins a lookup after that is never answered with a session the family published.
 */
module MongoFinality {
  import opened Prelude
  import opened MongoFamilies
  import opened MongoRevocation

  /** Every published session of the family that still exists is in `xs`. */
  ghost predicate Caught(s: State, f: nat, xs: set<SessionRef>) {
    && Revoked(s, f) && f in s.log.published
    && forall id :: Doc(id) in s.log.published[f] && id in s.sessions ==> Doc(id) in xs
  }

  /** A revocation that found the family holds all that is left to delete, and after deleting it nothing is left. */
  ghost predicate SweepOk(s: State, c: PC) {
    if c.RevokeRead? && c.listed.Some? then Caught(s, c.f, set x | x in c.listed.value)
    else if c.RevokeSessions? && c.found then Caught(s, c.f, c.doomed)
    else if c.RevokeTokens? && c.found then Caught(s, c.f, {})
    else true
  }

  ghost predicate Swept(s: State) {
    Inv(s) && forall p :: SweepOk(s, At(s, p))
  }

  /** A revoked family publishes no more and no deleted session returns, so what was caught stays caught. */
  lemma CaughtStays(s: State, e: Event, f: nat, xs: set<SessionRef>)
    requires Inv(s) && Caught(s, f, xs)
    ensures Caught(Next(s, e), f, xs)
  {
    var s' := Next(s, e);
    NextKeeps(s, e);
    RevokedNext(s, e, f);
    assert FamilyOk(s, f);
    forall id | Doc(id) in s'.log.published[f] && id in s'.sessions ensures Doc(id) in xs {
      assert KnownFor(s, Doc(id), f);
      assert id in s'.sessions * s.log.created;
    }
  }

  lemma SweepStays(s: State, e: Event, c: PC)
    requires Inv(s) && SweepOk(s, c)
    ensures SweepOk(Next(s, e), c)
  {
    if c.RevokeRead? && c.listed.Some? { CaughtStays(s, e, c.f, set x | x in c.listed.value); }
    else if c.RevokeSessions? && c.found { CaughtStays(s, e, c.f, c.doomed); }
    else if c.RevokeTokens? && c.found { CaughtStays(s, e, c.f, {}); }
  }

  /** The calls of the revocation itself: mark, read, delete the sessions, delete the tokens. */
  lemma SweepCall(s: State, p: nat)
    requires Swept(s) && Revoking(At(s, p))
    ensures SweepOk(RevokeCall(s, p), At(RevokeCall(s, p), p))
  {
    var c := At(s, p);
    assert SweepOk(s, c);
    if c.RevokeMark? && c.f in s.families { assert FamilyOk(s, c.f); }
  }

  lemma MoverSweeps(s: State, e: Event, p: nat)
    requires Swept(s) && At(Next(s, e), p) != At(s, p)
    ensures SweepOk(Next(s, e), At(Next(s, e), p))
  {
    if e.Advance? && e.p == p && Revoking(At(s, p)) {
      assert Next(s, e) == RevokeCall(s, p);
      SweepCall(s, p);
    } else {
      OthersNeverSweep(s, e, p);
    }
  }

  /** Every other move ends outside a revocation, or at the mark that begins one. */
  lemma OthersNeverSweep(s: State, e: Event, p: nat)
    requires At(Next(s, e), p) != At(s, p) && !(e.Advance? && e.p == p && Revoking(At(s, p)))
    ensures !Revoking(At(Next(s, e), p)) || At(Next(s, e), p).RevokeMark?
  {
  }

  lemma NextSweeps(s: State, e: Event)
    requires Swept(s)
    ensures Swept(Next(s, e))
  {
    NextKeeps(s, e);
    forall p ensures SweepOk(Next(s, e), At(Next(s, e), p)) {
      if At(Next(s, e), p) == At(s, p) { SweepStays(s, e, At(s, p)); } else { MoverSweeps(s, e, p); }
    }
  }

  lemma {:induction false} SweptExec(s: State, es: seq<Event>)
    requires Swept(s)
    ensures Swept(Exec(s, es))
    decreases |es|
  {
    if es == [] {
    } else {
      NextSweeps(s, es[0]);
      SweptExec(Next(s, es[0]), es[1..]);
    }
  }

  lemma {:induction false} CaughtExec(s: State, es: seq<Event>, f: nat, xs: set<SessionRef>)
    requires Inv(s) && Caught(s, f, xs)
    ensures Caught(Exec(s, es), f, xs)
    decreases |es|
  {
    if es == [] {
    } else {
      NextKeeps(s, es[0]);
      CaughtStays(s, es[0], f, xs);
      CaughtExec(Next(s, es[0]), es[1..], f, xs);
    }
  }

  /**
   For every run: once a revocation whose mark found the family has deleted the sessions, no session the family ever
   published exists in any later state, and a lookup begun in any later state answers that there is none. It is enough
   for a caller to begin the lookup after the revocation call has returned.
   */
  lemma LookupAfterSweepFindsNothing(before: seq<Event>, after: seq<Event>, r: nat, f: nat, p: nat, id: nat)
    requires At(Exec(INIT, before), r) == RevokeTokens(f, true)
    ensures var t := Exec(Exec(INIT, before), after);
            && f in t.log.published
            && (Doc(id) in t.log.published[f] ==>
                  && id !in t.sessions
                  && (At(t, p) == Idle ==> At(Next(t, StartLookup(p, id)), p) == SessionRead(id, false)))
  {
    var s := Exec(INIT, before);
    InitInv();
    SweptExec(INIT, before);
    assert SweepOk(s, At(s, r));
    CaughtExec(s, after, f, {});
  }
}
