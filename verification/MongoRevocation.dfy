/**
 Revocation of a family is final for its sessions: what exactly holds for any interleaving of
 creations, rotations, revocations, reads and processes that stop between two database calls.
 */
module MongoRevocation {
  import opened Prelude
  import opened MongoFamilies

  ghost predicate KnownFor(s: State, x: SessionRef, f: nat) {
    && (x.Doc? ==> x.id in s.log.created)
    && x in s.log.claim && s.log.claim[x] == f
  }

  ghost predicate AllPublished(s: State, f: nat, xs: seq<SessionRef>) {
    f in s.log.published && forall x :: x in xs ==> x in s.log.published[f]
  }

  /** What a process holds about sessions while it runs. */
  ghost predicate Holds(s: State, c: PC) {
    match c
    case CreateFamily(t, x, _) => KnownFor(s, x, t)
    case RotateCas(f, _, _, x, _, _) => KnownFor(s, x, f)
    case RotatePatch(f, _, _, _, prior) => AllPublished(s, f, prior)
    case CleanDelete(f, _, _, pending) => AllPublished(s, f, pending)
    case CleanPull(f, _, keep, pending) =>
      && AllPublished(s, f, pending)
      && pending != [] && pending[0] != keep
      && (pending[0].Doc? ==> pending[0].id !in s.sessions && pending[0].id in s.log.created)
    case _ => true
  }

  /** Family `f`: what it lists was published, and a published session that still exists is listed. */
  ghost predicate FamilyOk(s: State, f: nat)
    requires f in s.families && f in s.log.published
  {
    && (forall x :: x in s.families[f].sessions ==> x in s.log.published[f])
    && (forall x :: x in s.log.published[f] ==> KnownFor(s, x, f))
    && (forall x :: x in s.log.published[f] && x.Doc? && x.id in s.sessions ==> x in s.families[f].sessions)
  }

  ghost predicate Inv(s: State) {
    && s.families.Keys == s.log.published.Keys
    && s.sessions <= s.log.created
    && (forall f :: f in s.families ==> FamilyOk(s, f))
    && (forall p :: Holds(s, At(s, p)))
  }

  /** What every step keeps: families, publications and claims stay, and no deleted session comes back. */
  ghost predicate Grows(s: State, s': State) {
    && s.log.created <= s'.log.created
    && s'.sessions * s.log.created <= s.sessions
    && (forall x :: x in s.log.claim ==> x in s'.log.claim && s'.log.claim[x] == s.log.claim[x])
    && (forall f :: f in s.log.published ==> f in s'.log.published && s.log.published[f] <= s'.log.published[f])
  }

  lemma HoldsGrows(s: State, s': State, c: PC)
    requires Holds(s, c) && Grows(s, s')
    ensures Holds(s', c)
  {
  }

  /** Only process `p` moved and everything about families and publications was left alone. */
  ghost predicate Quiet(s: State, s': State, p: nat) {
    && s'.families == s.families && s'.log.published == s.log.published
    && s'.log.created == s.log.created && s'.log.claim == s.log.claim && s'.sessions <= s.sessions
    && forall q :: q != p ==> At(s', q) == At(s, q)
  }

  lemma QuietKeeps(s: State, s': State, p: nat)
    requires Inv(s) && Quiet(s, s', p) && Holds(s', At(s', p))
    ensures Inv(s') && Grows(s, s')
  {
    assert Grows(s, s');
    forall q ensures Holds(s', At(s', q)) {
      if q != p { HoldsGrows(s, s', At(s, q)); }
    }
  }

  /** A step that does change a family keeps the invariant when the changed parts are good. */
  lemma MoveKeeps(s: State, s': State, p: nat)
    requires Inv(s) && Grows(s, s')
    requires Holds(s', At(s', p)) && forall q :: q != p ==> At(s', q) == At(s, q)
    requires s'.families.Keys == s'.log.published.Keys && s'.sessions <= s'.log.created
    requires forall f :: f in s'.families ==> FamilyOk(s', f)
    ensures Inv(s')
  {
    forall q ensures Holds(s', At(s', q)) {
      if q != p { HoldsGrows(s, s', At(s, q)); }
    }
  }

  lemma InsertKeeps(s: State, p: nat)
    requires Inv(s) && At(s, p).CreateFamily?
    ensures Inv(InsertFamily(s, p)) && Grows(s, InsertFamily(s, p))
  {
    var s' := InsertFamily(s, p);
    var c := At(s, p);
    assert Holds(s, c);
    if c.t in s.families {
      QuietKeeps(s, s', p);
    } else {
      assert FamilyOk(s', c.t);
      forall f | f in s.families ensures FamilyOk(s', f) { assert FamilyOk(s, f); }
      MoveKeeps(s, s', p);
    }
  }

  lemma CasKeeps(s: State, p: nat)
    requires Inv(s) && At(s, p).RotateCas?
    ensures Inv(CompareAndSet(s, p)) && Grows(s, CompareAndSet(s, p))
  {
    var s' := CompareAndSet(s, p);
    var c := At(s, p);
    assert Holds(s, c);
    if !CasMatches(s, c.f, c.cur, c.at) {
      QuietKeeps(s, s', p);
    } else {
      assert FamilyOk(s, c.f);
      forall f | f in s.families && f != c.f ensures FamilyOk(s', f) { assert FamilyOk(s, f); }
      MoveKeeps(s, s', p);
    }
  }

  lemma MarkKeeps(s: State, p: nat)
    requires Inv(s) && At(s, p).RevokeMark?
    ensures Inv(Mark(s, p)) && Grows(s, Mark(s, p))
  {
    var s' := Mark(s, p);
    var f := At(s, p).f;
    if f !in s.families {
      QuietKeeps(s, s', p);
    } else {
      forall g | g in s.families ensures FamilyOk(s', g) { assert FamilyOk(s, g); }
      MoveKeeps(s, s', p);
    }
  }

  lemma CleanKeeps(s: State, p: nat)
    requires Inv(s) && At(s, p).CleanDelete?
    ensures Inv(CleanStep(s, p)) && Grows(s, CleanStep(s, p))
  {
    var c := At(s, p);
    assert Holds(s, c);
    if c.pending != [] {
      assert c.pending[0] in c.pending;
      assert FamilyOk(s, c.f);
    }
    QuietKeeps(s, CleanStep(s, p), p);
  }

  lemma PullKeeps(s: State, p: nat)
    requires Inv(s) && At(s, p).CleanPull?
    ensures Inv(PullStep(s, p)) && Grows(s, PullStep(s, p))
  {
    var s' := PullStep(s, p);
    var c := At(s, p);
    assert Holds(s, c);
    forall g | g in s.families ensures FamilyOk(s', g) { assert FamilyOk(s, g); }
    MoveKeeps(s, s', p);
  }

  lemma CreateKeeps(s: State, p: nat)
    requires Inv(s) && (At(s, p).CreateFamily? || At(s, p).CreateUndo?)
    ensures Inv(CreateCall(s, p)) && Grows(s, CreateCall(s, p))
  {
    if At(s, p).CreateFamily? { InsertKeeps(s, p); } else { QuietKeeps(s, CreateCall(s, p), p); }
  }

  lemma RotateKeeps(s: State, p: nat)
    requires Inv(s) && Rotating(At(s, p))
    ensures Inv(RotateCall(s, p)) && Grows(s, RotateCall(s, p))
  {
    var c := At(s, p);
    assert Holds(s, c);
    if c.RotateCas? { CasKeeps(s, p); }
    else if c.CleanDelete? { CleanKeeps(s, p); }
    else if c.CleanPull? { PullKeeps(s, p); }
    else { QuietKeeps(s, RotateCall(s, p), p); }
  }

  lemma RevokeKeeps(s: State, p: nat)
    requires Inv(s) && Revoking(At(s, p))
    ensures Inv(RevokeCall(s, p)) && Grows(s, RevokeCall(s, p))
  {
    if At(s, p).RevokeMark? { MarkKeeps(s, p); } else { QuietKeeps(s, RevokeCall(s, p), p); }
  }

  lemma CallKeeps(s: State, p: nat)
    requires Inv(s)
    ensures Inv(Call(s, p)) && Grows(s, Call(s, p))
  {
    var c := At(s, p);
    if c.CreateFamily? || c.CreateUndo? { CreateKeeps(s, p); }
    else if Rotating(c) { RotateKeeps(s, p); }
    else if Revoking(c) { RevokeKeeps(s, p); }
    else if c.ReadFamily? || c.LookupFamily? { QuietKeeps(s, ReadCall(s, p), p); }
  }

  /** A process starts on a session that was offered to its family. */
  lemma ClaimKeeps(s: State, s': State, p: nat)
    requires Inv(s) && Grows(s, s')
    requires s'.families == s.families && s'.log.published == s.log.published
    requires s'.sessions == s.sessions && s'.log.created == s.log.created
    requires Holds(s', At(s', p)) && forall q :: q != p ==> At(s', q) == At(s, q)
    ensures Inv(s')
  {
    forall f | f in s'.families ensures FamilyOk(s', f) { assert FamilyOk(s, f); }
    MoveKeeps(s, s', p);
  }

  lemma BeginCreateKeeps(s: State, p: nat, t: nat, x: SessionRef, expires: int)
    requires Inv(s)
    ensures Inv(BeginCreate(s, p, t, x, expires)) && Grows(s, BeginCreate(s, p, t, x, expires))
  {
    if At(s, p) == Idle && t !in s.log.origin && Offerable(s, x, t) {
      ClaimKeeps(s, BeginCreate(s, p, t, x, expires), p);
    }
  }

  lemma BeginRotateKeeps(s: State, p: nat, f: nat, cur: nat, t: nat, x: SessionRef, expires: int, at: int)
    requires Inv(s)
    ensures Inv(BeginRotate(s, p, f, cur, t, x, expires, at)) && Grows(s, BeginRotate(s, p, f, cur, t, x, expires, at))
  {
    if At(s, p) == Idle && t !in s.log.origin && Offerable(s, x, f) {
      ClaimKeeps(s, BeginRotate(s, p, f, cur, t, x, expires, at), p);
    }
  }

  lemma AddSessionKeeps(s: State, id: nat)
    requires Inv(s)
    ensures Inv(AddSession(s, id)) && Grows(s, AddSession(s, id))
  {
    var s' := AddSession(s, id);
    assert Grows(s, s');
    HoldsGrows(s, s', At(s, 0));
    forall f | f in s'.families ensures FamilyOk(s', f) { assert FamilyOk(s, f); }
    MoveKeeps(s, s', 0);
  }

  lemma DropKeeps(s: State, id: nat)
    requires Inv(s)
    ensures var s' := s.(sessions := s.sessions - {id}); Inv(s') && Grows(s, s')
  {
    assert Holds(s, At(s, 0));
    QuietKeeps(s, s.(sessions := s.sessions - {id}), 0);
  }

  lemma GotoKeeps(s: State, p: nat, c: PC)
    requires Inv(s) && Holds(s, c)
    ensures Inv(Goto(s, p, c)) && Grows(s, Goto(s, p, c))
  {
    QuietKeeps(s, Goto(s, p, c), p);
  }

  lemma FaultKeeps(s: State, p: nat)
    requires Inv(s)
    ensures var s' := Goto(s, p, FaultTarget(At(s, p))); Inv(s') && Grows(s, s')
  {
    assert Holds(s, At(s, p));
    GotoKeeps(s, p, FaultTarget(At(s, p)));
  }

  lemma LostKeeps(s: State, p: nat)
    requires Inv(s)
    ensures Inv(LoseReply(s, p)) && Grows(s, LoseReply(s, p))
  {
    var c := At(s, p);
    if c.CreateFamily? && c.t !in s.families {
      var mid := InsertFamily(s, p);
      InsertKeeps(s, p);
      QuietKeeps(mid, LoseReply(s, p), p);
    }
  }

  lemma BeginReadKeeps(s: State, p: nat, t: nat)
    requires Inv(s)
    ensures Inv(BeginRead(s, p, t)) && Grows(s, BeginRead(s, p, t))
  {
    if At(s, p) == Idle {
      GotoKeeps(s, p, if t in s.tokens then ReadFamily(t, s.tokens[t]) else TokenRead(t, None));
    }
  }

  lemma BeginLookupKeeps(s: State, p: nat, id: nat)
    requires Inv(s)
    ensures Inv(BeginLookup(s, p, id)) && Grows(s, BeginLookup(s, p, id))
  {
    if At(s, p) == Idle {
      GotoKeeps(s, p, if id in s.sessions then LookupFamily(id) else SessionRead(id, false));
    }
  }

  /** Every event keeps the listing invariant, and never brings a session back or forgets a publication. */
  lemma NextKeeps(s: State, e: Event)
    requires Inv(s)
    ensures Inv(Next(s, e)) && Grows(s, Next(s, e))
  {
    match e
    case CreateSession(id) => AddSessionKeeps(s, id);
    case DropSession(id) => DropKeeps(s, id);
    case StartCreate(p, t, x, expires) => BeginCreateKeeps(s, p, t, x, expires);
    case StartRotate(p, f, cur, t, x, expires, at) => BeginRotateKeeps(s, p, f, cur, t, x, expires, at);
    case Advance(p) => CallKeeps(s, p);
    case Fault(p) => FaultKeeps(s, p);
    case LostReply(p) => LostKeeps(s, p);
    case Stop(p) => GotoKeeps(s, p, Idle);
    case StartRead(p, t) => BeginReadKeeps(s, p, t);
    case StartLookup(p, id) => BeginLookupKeeps(s, p, id);
    case StartRevoke(p, f) => if At(s, p) == Idle { GotoKeeps(s, p, RevokeMark(f)); }
  }

  // ----- Revocation is final for what one consistent look at the database would show -----

  /** What `get_session_by_token_hash` would answer if its two reads saw one state. */
  ghost predicate Visible(s: State, id: nat) {
    id in s.sessions && !Hidden(s, id)
  }

  lemma RevokedCall(s: State, p: nat, f: nat)
    requires Inv(s) && Revoked(s, f)
    ensures var s' := Call(s, p); Revoked(s', f) && f in s'.log.published && s'.log.published[f] == s.log.published[f]
  {
    var c := At(s, p);
    if c.CreateFamily? || c.CreateUndo? {
    } else if Rotating(c) {
      if c.RotateCas? { } else if c.CleanDelete? { } else if c.CleanPull? { }
    } else if Revoking(c) {
      if c.RevokeMark? { }
    }
  }

  lemma RevokedNext(s: State, e: Event, f: nat)
    requires Inv(s) && Revoked(s, f)
    ensures var s' := Next(s, e); Revoked(s', f) && f in s'.log.published && s'.log.published[f] == s.log.published[f]
  {
    if e.Advance? {
      assert Next(s, e) == Call(s, e.p);
      RevokedCall(s, e.p, f);
    }
  }

  lemma {:induction false} InvExec(s: State, es: seq<Event>)
    requires Inv(s)
    ensures Inv(Exec(s, es))
    decreases |es|
  {
    if es == [] {
    } else {
      NextKeeps(s, es[0]);
      InvExec(Next(s, es[0]), es[1..]);
    }
  }

  lemma {:induction false} RevokedExec(s: State, es: seq<Event>, f: nat)
    requires Inv(s) && Revoked(s, f)
    ensures var t := Exec(s, es);
            && Inv(t) && Revoked(t, f)
            && f in t.log.published && t.log.published[f] == s.log.published[f]
    decreases |es|
  {
    if es == [] {
    } else {
      NextKeeps(s, es[0]);
      RevokedNext(s, es[0], f);
      RevokedExec(Next(s, es[0]), es[1..], f);
    }
  }

  lemma InitInv()
    ensures Inv(INIT)
  {
  }

  /**
   For every run: once the revoked mark of a family is written, the family stays revoked, publishes
   no session any more, and none of the sessions it ever published is visible in any later state.
   */
  lemma RevocationIsFinal(before: seq<Event>, after: seq<Event>, f: nat, id: nat)
    requires Revoked(Exec(INIT, before), f)
    ensures var s, t := Exec(INIT, before), Exec(Exec(INIT, before), after);
            && f in s.log.published && f in t.log.published && t.log.published[f] == s.log.published[f]
            && Revoked(t, f)
            && (Doc(id) in t.log.published[f] ==> !Visible(t, id))
  {
    InitInv();
    InvExec(INIT, before);
    RevokedExec(Exec(INIT, before), after, f);
    assert FamilyOk(Exec(Exec(INIT, before), after), f);
  }

  // ----- The two-call lookup: exactly when a revoked session is still answered -----

  /** Process state `c` belongs to a rotation of family `f` that still has to remove session `x`. */
  ghost predicate Cleaning(c: PC, f: nat, x: SessionRef) {
    || (c.RotatePatch? && c.f == f && x in c.prior && x != c.session)
    || (c.CleanDelete? && c.f == f && x in c.pending && x != c.keep)
    || (c.CleanPull? && c.f == f && x in c.pending && x != c.keep)
  }

  /** The session is listed by its revoked family and nobody is about to remove it from the list. */
  ghost predicate Settled(s: State, f: nat, x: SessionRef) {
    && Revoked(s, f) && x in s.families[f].sessions
    && forall q :: !Cleaning(At(s, q), f, x)
  }

  lemma SettledRotate(s: State, p: nat, f: nat, x: SessionRef)
    requires Inv(s) && Settled(s, f, x) && Rotating(At(s, p))
    ensures Settled(RotateCall(s, p), f, x)
  {
    var c := At(s, p);
    var s' := RotateCall(s, p);
    assert !Cleaning(c, f, x) && Holds(s, c);
    assert forall q :: q != p ==> At(s', q) == At(s, q);
    if c.CleanPull? {
      assert c.pending[0] in c.pending;
    }
    assert !Cleaning(At(s', p), f, x);
  }

  lemma ElsewhereKeepsList(s: State, p: nat, f: nat)
    requires s.families.Keys == s.log.published.Keys && f in s.families && !Rotating(At(s, p))
    ensures var s' := Call(s, p); f in s'.families && s'.families[f].sessions == s.families[f].sessions
  {
    var c := At(s, p);
    if Revoking(c) { if c.RevokeMark? { } }
  }

  lemma ElsewhereKeepsOut(s: State, p: nat)
    requires !Rotating(At(s, p))
    ensures !Rotating(At(Call(s, p), p))
  {
  }

  lemma SettledCall(s: State, p: nat, f: nat, x: SessionRef)
    requires Inv(s) && Settled(s, f, x)
    ensures Settled(Call(s, p), f, x)
  {
    var c := At(s, p);
    var s' := Call(s, p);
    assert !Cleaning(c, f, x);
    RevokedCall(s, p, f);
    if Rotating(c) { SettledRotate(s, p, f, x); }
    else { ElsewhereKeepsList(s, p, f); ElsewhereKeepsOut(s, p); }
  }

  lemma SettledMove(s: State, s': State, p: nat, f: nat, x: SessionRef)
    requires Settled(s, f, x) && s'.families == s.families && OnlyMoves(s, s', p) && !Cleaning(At(s', p), f, x)
    ensures Settled(s', f, x)
  {
  }

  lemma SettledStart(s: State, e: Event, f: nat, x: SessionRef)
    requires Settled(s, f, x) && (e.StartCreate? || e.StartRotate?)
    ensures Settled(Next(s, e), f, x)
  {
    assert !Cleaning(At(s, e.p), f, x);
    if e.StartCreate? {
      SettledMove(s, BeginCreate(s, e.p, e.t, e.session, e.expires), e.p, f, x);
    } else {
      SettledMove(s, BeginRotate(s, e.p, e.f, e.cur, e.t, e.session, e.expires, e.at), e.p, f, x);
    }
  }

  lemma SettledRead(s: State, e: Event, f: nat, x: SessionRef)
    requires Settled(s, f, x) && (e.StartRead? || e.StartLookup?)
    ensures Settled(Next(s, e), f, x)
  {
    assert !Cleaning(At(s, e.p), f, x);
    if e.StartRead? {
      SettledMove(s, BeginRead(s, e.p, e.t), e.p, f, x);
    } else {
      SettledMove(s, BeginLookup(s, e.p, e.id), e.p, f, x);
    }
  }

  /** Failing and stopping neither unlist a session nor begin to clean one up. */
  lemma SettledGoto(s: State, p: nat, c: PC, f: nat, x: SessionRef)
    requires Settled(s, f, x) && !Cleaning(c, f, x)
    ensures Settled(Goto(s, p, c), f, x)
  {
    SettledMove(s, Goto(s, p, c), p, f, x);
  }

  lemma SettledLost(s: State, p: nat, f: nat, x: SessionRef)
    requires Settled(s, f, x)
    ensures Settled(LoseReply(s, p), f, x)
  {
    var s' := LoseReply(s, p);
    forall q ensures !Cleaning(At(s', q), f, x) { assert !Cleaning(At(s, q), f, x); }
  }

  lemma SettledNext(s: State, e: Event, f: nat, x: SessionRef)
    requires Inv(s) && Settled(s, f, x)
    ensures Settled(Next(s, e), f, x)
  {
    match e
    case CreateSession(id) => assert forall q :: At(Next(s, e), q) == At(s, q);
    case DropSession(id) => assert forall q :: At(Next(s, e), q) == At(s, q);
    case StartCreate(_, _, _, _) => SettledStart(s, e, f, x);
    case StartRotate(_, _, _, _, _, _, _) => SettledStart(s, e, f, x);
    case StartRevoke(p, g) => SettledGoto(s, p, RevokeMark(g), f, x);
    case StartRead(_, _) => SettledRead(s, e, f, x);
    case StartLookup(_, _) => SettledRead(s, e, f, x);
    case Advance(p) => SettledCall(s, p, f, x);
    case Fault(p) =>
      assert !Cleaning(At(s, p), f, x);
      SettledGoto(s, p, FaultTarget(At(s, p)), f, x);
    case LostReply(p) =>
      assert !Cleaning(At(s, p), f, x);
      SettledLost(s, p, f, x);
    case Stop(p) => SettledGoto(s, p, Idle, f, x);
  }

  lemma {:induction false} SettledExec(s: State, es: seq<Event>, f: nat, x: SessionRef)
    requires Inv(s) && Settled(s, f, x)
    ensures Settled(Exec(s, es), f, x)
    decreases |es|
  {
    if es == [] {
    } else {
      NextKeeps(s, es[0]);
      SettledNext(s, es[0], f, x);
      SettledExec(Next(s, es[0]), es[1..], f, x);
    }
  }

  /** The events only let process `q` make its next calls. */
  ghost predicate OnlyAdvances(es: seq<Event>, q: nat) {
    forall e :: e in es ==> e == Advance(q)
  }

  lemma {:induction false} OthersStay(s: State, es: seq<Event>, q: nat, p: nat)
    requires OnlyAdvances(es, q) && p != q
    ensures At(Exec(s, es), p) == At(s, p)
    decreases |es|
  {
    if es == [] {
    } else {
      assert es[0] in es;
      assert es[0] == Advance(q);
      assert forall e :: e in es[1..] ==> e in es;
      OthersStay(Next(s, es[0]), es[1..], q, p);
    }
  }

  function Remaining(c: PC): nat {
    if c.RotatePatch? then 2 * |c.prior| + 2
    else if c.CleanDelete? then 2 * |c.pending| + 1
    else if c.CleanPull? then 2 * |c.pending|
    else 0
  }

  /** One call of a cleaning rotation: the session leaves the list or the rest of the work shrinks. */
  lemma CleaningCall(s: State, q: nat, f: nat, x: SessionRef)
    requires Inv(s) && Cleaning(At(s, q), f, x)
    ensures var s' := RotateCall(s, q);
            || (f in s'.families && x !in s'.families[f].sessions)
            || (Cleaning(At(s', q), f, x) && Remaining(At(s', q)) < Remaining(At(s, q)))
  {
    var c := At(s, q);
    assert Holds(s, c);
    if c.CleanPull? {
      assert c.pending[0] == x || x in c.pending[1..];
    } else if c.CleanDelete? {
      assert c.pending[0] == x || x in c.pending[1..];
    }
  }

  /** Left alone, a cleaning rotation does remove the session from the list. */
  lemma {:induction false} CleaningRemoves(s: State, q: nat, f: nat, x: SessionRef) returns (es: seq<Event>)
    requires Inv(s) && Cleaning(At(s, q), f, x)
    ensures OnlyAdvances(es, q)
    ensures var t := Exec(s, es); Inv(t) && f in t.families && x !in t.families[f].sessions
    decreases Remaining(At(s, q))
  {
    var e := Advance(q);
    var s' := RotateCall(s, q);
    assert Next(s, e) == s';
    RotateKeeps(s, q);
    CleaningCall(s, q, f, x);
    if f in s'.families && x !in s'.families[f].sessions {
      es := [e];
      ExecStep(s, e, []);
    } else {
      var rest := CleaningRemoves(s', q, f, x);
      es := [e] + rest;
      ExecStep(s, e, rest);
    }
  }

  /** No event of the run belongs to process `p`. */
  ghost predicate Avoids(es: seq<Event>, p: nat) {
    forall e :: e in es ==> e.CreateSession? || e.DropSession? || e.p != p
  }

  /** After some run of the others, the second call of the lookup answers with the session. */
  ghost predicate MayAnswer(s: State, p: nat, id: nat) {
    exists es :: Avoids(es, p) && At(Next(Exec(s, es), Advance(p)), p) == SessionRead(id, true)
  }

  /**
   A lookup that has read the session document can still answer with a session of a revoked family
   if and only if the session already left the family's list or a rotation still has it to remove.
   */
  lemma StaleLookup(s: State, p: nat, f: nat, id: nat)
    requires Inv(s) && Revoked(s, f) && Doc(id) in s.log.published[f] && At(s, p) == LookupFamily(id)
    ensures MayAnswer(s, p, id)
            <==> Doc(id) !in s.families[f].sessions || exists q :: Cleaning(At(s, q), f, Doc(id))
  {
    var x := Doc(id);
    if x !in s.families[f].sessions {
      StaleNow(s, [], p, f, id);
    } else if q :| Cleaning(At(s, q), f, x) {
      var es := CleaningRemoves(s, q, f, x);
      OthersStay(s, es, q, p);
      StaleNow(s, es, p, f, id);
    } else {
      forall es | Avoids(es, p) && At(Next(Exec(s, es), Advance(p)), p) == SessionRead(id, true)
        ensures false
      {
        InvExec(s, es);
        SettledExec(s, es, f, x);
        AvoidedStays(s, es, p);
      }
    }
  }

  lemma StaleNow(s: State, es: seq<Event>, p: nat, f: nat, id: nat)
    requires Inv(s) && f in s.log.published && Doc(id) in s.log.published[f]
    requires Avoids(es, p) && At(Exec(s, es), p) == LookupFamily(id)
    requires var t := Exec(s, es); Inv(t) && f in t.families && Doc(id) !in t.families[f].sessions
    ensures MayAnswer(s, p, id)
  {
    var t := Exec(s, es);
    GrowsExec(s, es);
    NotHidden(t, f, id);
    AnswersNow(t, p, id);
  }

  /** A session belongs to one family only, so only that family's list can hide it. */
  lemma NotHidden(t: State, f: nat, id: nat)
    requires Inv(t) && f in t.families && Doc(id) in t.log.published[f] && Doc(id) !in t.families[f].sessions
    ensures !Hidden(t, id)
  {
    assert FamilyOk(t, f);
    forall g | g in t.families && t.families[g].revoked ensures Doc(id) !in t.families[g].sessions {
      assert FamilyOk(t, g);
    }
  }

  lemma AnswersNow(t: State, p: nat, id: nat)
    requires At(t, p) == LookupFamily(id) && !Hidden(t, id)
    ensures At(Next(t, Advance(p)), p) == SessionRead(id, true)
  {
  }

  lemma {:induction false} GrowsExec(s: State, es: seq<Event>)
    requires Inv(s)
    ensures Grows(s, Exec(s, es))
    decreases |es|
  {
    if es == [] {
    } else {
      NextKeeps(s, es[0]);
      GrowsExec(Next(s, es[0]), es[1..]);
    }
  }

  lemma NextAvoids(s: State, e: Event, p: nat)
    requires e.CreateSession? || e.DropSession? || e.p != p
    ensures At(Next(s, e), p) == At(s, p)
  {
  }

  lemma {:induction false} AvoidedStays(s: State, es: seq<Event>, p: nat)
    requires Avoids(es, p)
    ensures At(Exec(s, es), p) == At(s, p)
    decreases |es|
  {
    if es == [] {
    } else {
      assert es[0] in es;
      NextAvoids(s, es[0], p);
      AvoidedStays(Next(s, es[0]), es[1..], p);
    }
  }

  /**
   A lookup that begins after the revocation, in any reachable state, can answer with a published
   session of the revoked family if and only if a rotation is still cleaning that session up.
   */
  lemma LookupAfterRevocation(before: seq<Event>, p: nat, f: nat, id: nat)
    requires var s := Exec(INIT, before);
             && Revoked(s, f) && f in s.log.published && Doc(id) in s.log.published[f]
             && id in s.sessions && At(s, p) == Idle
    ensures var s := Exec(INIT, before);
            MayAnswer(Next(s, StartLookup(p, id)), p, id) <==> exists q :: Cleaning(At(s, q), f, Doc(id))
  {
    var s := Exec(INIT, before);
    InitInv();
    InvExec(INIT, before);
    var s' := Goto(s, p, LookupFamily(id));
    assert Next(s, StartLookup(p, id)) == s';
    GotoKeeps(s, p, LookupFamily(id));
    assert FamilyOk(s, f);
    StaleLookup(s', p, f, id);
    assert forall q :: Cleaning(At(s, q), f, Doc(id)) <==> Cleaning(At(s', q), f, Doc(id));
  }

  // ----- A run in which the two-call lookup answers with a revoked session -----

  const OPENED: State := State(
    map[0 := TokenDoc(0, Doc(0), false, None)], map[0 := Family(0, [Doc(0)], false, 100)], {0}, map[1 := Idle],
    Log(map[0 := {Doc(0)}], {0}, map[Doc(0) := 0], map[0 := 0], {0}, map[], {}, {}))

  const ROTATING: State := State(
    map[0 := TokenDoc(0, Doc(0), false, None), 1 := TokenDoc(0, Doc(1), false, None)],
    map[0 := Family(1, [Doc(0), Doc(1)], false, 100)], {0, 1}, map[1 := RotatePatch(0, 0, 1, Doc(1), [Doc(0)])],
    Log(map[0 := {Doc(0), Doc(1)}], {0, 1}, map[Doc(0) := 0, Doc(1) := 0], map[0 := 0, 1 := 0], {0, 1},
        map[0 := 1], {}, {}))

  const OPEN: seq<Event> := [CreateSession(0), StartCreate(1, 0, Doc(0), 100), Advance(1)]

  const ROTATE: seq<Event> := [CreateSession(1), StartRotate(1, 0, 0, 1, Doc(1), 100, 5), Advance(1)]

  const REVOKE: seq<Event> := [StartRevoke(2, 0), Advance(2)]

  lemma RunOpen()
    ensures Exec(INIT, OPEN) == OPENED
  {
    var s1 := AddSession(INIT, 0);
    var s2 := BeginCreate(s1, 1, 0, Doc(0), 100);
    ExecThree(INIT, OPEN[0], OPEN[1], OPEN[2]);
    assert Call(s2, 1) == InsertFamily(s2, 1);
  }

  lemma RunRotate()
    ensures Exec(OPENED, ROTATE) == ROTATING
  {
    var s1 := AddSession(OPENED, 1);
    var s2 := BeginRotate(s1, 1, 0, 0, 1, Doc(1), 100, 5);
    ExecThree(OPENED, ROTATE[0], ROTATE[1], ROTATE[2]);
    RunSwap(s2);
    assert Call(s2, 1) == CompareAndSet(s2, 1);
  }

  lemma RunSwap(s: State)
    requires s == BeginRotate(AddSession(OPENED, 1), 1, 0, 0, 1, Doc(1), 100, 5)
    ensures CompareAndSet(s, 1) == ROTATING
  {
    var t := CompareAndSet(s, 1);
    assert CasMatches(s, 0, 0, 5);
    assert AddToSet([Doc(0)], Doc(1)) == [Doc(0), Doc(1)];
    assert t.families[0] == ROTATING.families[0];
    assert t.families == ROTATING.families;
    assert t.tokens == ROTATING.tokens && t.pc == ROTATING.pc;
    assert {Doc(0)} + {Doc(1)} == {Doc(0), Doc(1)};
    assert t.log.published[0] == ROTATING.log.published[0];
    assert t.log.published == ROTATING.log.published;
    assert t.log.claim == ROTATING.log.claim;
    assert t.log == ROTATING.log;
  }

  lemma RunRevoke()
    ensures var s := Exec(ROTATING, REVOKE);
            && Revoked(s, 0) && s.log == ROTATING.log && s.sessions == {0, 1}
            && At(s, 1) == RotatePatch(0, 0, 1, Doc(1), [Doc(0)]) && At(s, 3) == Idle
  {
    var s1 := Goto(ROTATING, 2, RevokeMark(0));
    ExecStep(s1, Advance(2), []);
    ExecStep(ROTATING, REVOKE[0], [REVOKE[1]]);
    assert Call(s1, 2) == Mark(s1, 2);
  }

  /** Finality does fail for the two-call lookup: session 0 is answered to a lookup begun after revocation. */
  lemma StaleLookupHappens()
    ensures var s := Exec(INIT, OPEN + ROTATE + REVOKE);
            && Revoked(s, 0) && 0 in s.log.published && Doc(0) in s.log.published[0] && At(s, 3) == Idle
            && MayAnswer(Next(s, StartLookup(3, 0)), 3, 0)
  {
    RunOpen();
    RunRotate();
    RunRevoke();
    ExecAppend(INIT, OPEN + ROTATE, REVOKE);
    ExecAppend(INIT, OPEN, ROTATE);
    assert Cleaning(At(Exec(INIT, OPEN + ROTATE + REVOKE), 1), 0, Doc(0));
    LookupAfterRevocation(OPEN + ROTATE + REVOKE, 3, 0, 0);
  }
}
