/**
 Refresh-token families as the MongoDB adapter keeps them: token documents, one family document
 per rotation chain, and session documents, with no transaction over them.

 Every database call of the adapter is one atomic step.  A process remembers in its program
 counter which call comes next.  `Next` says what one event does; an event that is not possible
 in a state leaves the state alone, so every sequence of events is a run.
 */
module MongoFamilies {
  import opened Prelude

  /** Session documents have generated ids; JWT sessions are protocol strings without a document. */
  datatype SessionRef = Doc(id: nat) | Jwt(sid: nat)

  datatype TokenDoc = TokenDoc(family: nat, session: SessionRef, consumed: bool, replacedBy: Option<nat>)

  /** `sessions` is the array field `session_ids`. A family's id is the id of its first token. */
  datatype Family = Family(active: nat, sessions: seq<SessionRef>, revoked: bool, expires: int)

  /**
   `found` and a `listed` that is there say that the mark found the family document. `landed` is history: whether the
   family insert that raised had taken effect.
   */
  datatype PC =
    | Idle
      // create_refresh_token, after the token document was inserted
    | CreateFamily(t: nat, session: SessionRef, expires: int)
    | CreateUndo(t: nat, landed: bool)
      // rotate_refresh_token, after the successor document was inserted
    | RotateCas(f: nat, cur: nat, t: nat, session: SessionRef, expires: int, at: int)
    | RotateUndo(f: nat, t: nat, session: SessionRef)
    | RotateCheck(f: nat, t: nat, session: SessionRef)
    | RotateDrop(t: nat, session: SessionRef)
    | RotatePatch(f: nat, cur: nat, t: nat, session: SessionRef, prior: seq<SessionRef>)
    | CleanDelete(f: nat, t: nat, keep: SessionRef, pending: seq<SessionRef>)
    | CleanPull(f: nat, t: nat, keep: SessionRef, pending: seq<SessionRef>)
    | Rotated(t: nat, result: Option<nat>)
      // delete_refresh_token_family
    | RevokeMark(f: nat)
    | RevokeRead(f: nat, listed: Option<seq<SessionRef>>)
    | RevokeSessions(f: nat, doomed: set<SessionRef>, found: bool)
    | RevokeTokens(f: nat, found: bool)
      // get_refresh_token_by_hash, after the token document was found
    | ReadFamily(t: nat, doc: TokenDoc)
    | TokenRead(t: nat, consumed: Option<bool>)
      // get_session_by_token_hash, after the session document was found
    | LookupFamily(id: nat)
    | SessionRead(id: nat, found: bool)

  /**
   The history the theorems speak of: the sessions published for each family, every session
   document ever created, the family each session is meant for, the family each allocated token is
   meant for (`origin`), the published tokens (`out`), the successor a compare-and-set gave a token
   (`succ`), the families for which some revocation found no family document (`blind`), and those
   whose insert took effect but was reported as failed (`torn`).
   */
  datatype Log = Log(
    published: map<nat, set<SessionRef>>,
    created: set<nat>,
    claim: map<SessionRef, nat>,
    origin: map<nat, nat>,
    out: set<nat>,
    succ: map<nat, nat>,
    blind: set<nat>,
    torn: set<nat>)

  /** The three collections, the processes and the history. */
  datatype State = State(
    tokens: map<nat, TokenDoc>,
    families: map<nat, Family>,
    sessions: set<nat>,
    pc: map<nat, PC>,
    log: Log)

  datatype Event =
    | CreateSession(id: nat)
    | DropSession(id: nat)
    | StartCreate(p: nat, t: nat, session: SessionRef, expires: int)
    | StartRotate(p: nat, f: nat, cur: nat, t: nat, session: SessionRef, expires: int, at: int)
    | StartRevoke(p: nat, f: nat)
    | StartRead(p: nat, t: nat)
    | StartLookup(p: nat, id: nat)
    | Advance(p: nat)
    | Fault(p: nat)
    | LostReply(p: nat)
    | Stop(p: nat)

  function At(s: State, p: nat): PC { if p in s.pc then s.pc[p] else Idle }

  function Goto(s: State, p: nat, c: PC): State { s.(pc := s.pc[p := c]) }

  /** Nobody but process `p` changed its program counter. */
  ghost predicate OnlyMoves(s: State, s': State, p: nat) {
    forall q :: q != p ==> At(s', q) == At(s, q)
  }

  const INIT := State(map[], map[], {}, map[], Log(map[], {}, map[], map[], {}, map[], {}, {}))

  /** The update operators the adapter uses on `session_ids`. */
  function AddToSet(xs: seq<SessionRef>, x: SessionRef): (r: seq<SessionRef>)
    ensures forall y :: y in r <==> y in xs || y == x
  {
    if x in xs then xs else xs + [x]
  }

  function Pull(xs: seq<SessionRef>, x: SessionRef): (r: seq<SessionRef>)
    ensures forall y :: y in r <==> y in xs && y != x
  {
    if xs == [] then []
    else if xs[0] == x then Pull(xs[1..], x)
    else [xs[0]] + Pull(xs[1..], x)
  }

  function WithoutSession(s: State, x: SessionRef): State {
    match x
    case Doc(id) => s.(sessions := s.sessions - {id})
    case Jwt(_) => s
  }

  /** A session may be offered to family `f`: it exists, and it was not offered to another family. */
  predicate Offerable(s: State, x: SessionRef, f: nat) {
    && (x.Doc? ==> x.id in s.log.created)
    && (x in s.log.claim ==> s.log.claim[x] == f)
  }

  /** The compare-and-set filter of `rotate_refresh_token`. */
  predicate CasMatches(s: State, f: nat, cur: nat, at: int) {
    f in s.families && s.families[f].active == cur && !s.families[f].revoked && s.families[f].expires > at
  }

  ghost predicate Revoked(s: State, f: nat) {
    f in s.families && s.families[f].revoked
  }

  /** A lookup hides the session when a revoked family lists it. */
  ghost predicate Hidden(s: State, id: nat) {
    exists f :: f in s.families && s.families[f].revoked && Doc(id) in s.families[f].sessions
  }

  function InsertFamily(s: State, p: nat): (s': State)
    requires At(s, p).CreateFamily?
    ensures OnlyMoves(s, s', p)
  {
    var c := At(s, p);
    if c.t in s.families then Goto(s, p, CreateUndo(c.t, false))
    else
      Goto(s, p, Idle).(
      families := s.families[c.t := Family(c.t, [c.session], false, c.expires)],
      log := s.log.(out := s.log.out + {c.t}, published := s.log.published[c.t := {c.session}]))
  }

  function CompareAndSet(s: State, p: nat): (s': State)
    requires At(s, p).RotateCas?
    ensures OnlyMoves(s, s', p)
  {
    var c := At(s, p);
    if !CasMatches(s, c.f, c.cur, c.at) then Goto(s, p, RotateUndo(c.f, c.t, c.session))
    else
      var before := s.families[c.f];
      Goto(s, p, RotatePatch(c.f, c.cur, c.t, c.session, before.sessions)).(
      families := s.families[c.f := before.(active := c.t, expires := c.expires,
                                            sessions := AddToSet(before.sessions, c.session))],
      log := s.log.(
      out := s.log.out + {c.t}, succ := s.log.succ[c.cur := c.t],
      published := s.log.published[c.f := (if c.f in s.log.published then s.log.published[c.f] else {}) + {c.session}]))
  }

  function Mark(s: State, p: nat): (s': State)
    requires At(s, p).RevokeMark?
    ensures OnlyMoves(s, s', p)
  {
    var f := At(s, p).f;
    if f !in s.families then Goto(s, p, RevokeRead(f, None)).(log := s.log.(blind := s.log.blind + {f}))
    else
      Goto(s, p, RevokeRead(f, Some(s.families[f].sessions))).(
      families := s.families[f := s.families[f].(revoked := true)])
  }

  function TokensOf(s: State, f: nat): set<nat> {
    set t | t in s.tokens && s.tokens[t].family == f
  }

  function CleanStep(s: State, p: nat): (s': State)
    requires At(s, p).CleanDelete?
    ensures OnlyMoves(s, s', p)
  {
    var c := At(s, p);
    if c.pending == [] then Goto(s, p, Rotated(c.t, Some(c.t)))
    else if c.pending[0] == c.keep then Goto(s, p, CleanDelete(c.f, c.t, c.keep, c.pending[1..]))
    else Goto(WithoutSession(s, c.pending[0]), p, CleanPull(c.f, c.t, c.keep, c.pending))
  }

  function PullStep(s: State, p: nat): (s': State)
    requires At(s, p).CleanPull?
    ensures OnlyMoves(s, s', p)
  {
    var c := At(s, p);
    if c.pending == [] then s
    else
      var s' := Goto(s, p, CleanDelete(c.f, c.t, c.keep, c.pending[1..]));
      if c.f !in s.families then s'
      else s'.(families := s.families[c.f := s.families[c.f].(
                                           sessions := Pull(s.families[c.f].sessions, c.pending[0]))])
  }

  /** The calls of `create_refresh_token`. */
  function CreateCall(s: State, p: nat): (s': State)
    requires At(s, p).CreateFamily? || At(s, p).CreateUndo?
    ensures OnlyMoves(s, s', p)
    ensures At(s', p).CreateUndo? || At(s', p).Idle?
  {
    match At(s, p)
    case CreateFamily(_, _, _) => InsertFamily(s, p)
    case CreateUndo(t, _) => Goto(s, p, Idle).(tokens := s.tokens - {t})
  }

  predicate Rotating(c: PC) {
    c.RotateCas? || c.RotateUndo? || c.RotateCheck? || c.RotateDrop? || c.RotatePatch? || c.CleanDelete? || c.CleanPull?
  }

  /** The calls of `rotate_refresh_token`. */
  function RotateCall(s: State, p: nat): (s': State)
    requires Rotating(At(s, p))
    ensures OnlyMoves(s, s', p)
  {
    match At(s, p)
    case RotateCas(_, _, _, _, _, _) => CompareAndSet(s, p)
    case RotateUndo(f, t, x) => Goto(s, p, RotateCheck(f, t, x)).(tokens := s.tokens - {t})
    case RotateCheck(f, t, x) =>
      if f !in s.families || x !in s.families[f].sessions then Goto(s, p, RotateDrop(t, x))
      else Goto(s, p, Rotated(t, None))
    case RotateDrop(t, x) => Goto(WithoutSession(s, x), p, Rotated(t, None))
    case RotatePatch(f, cur, t, x, prior) =>
      Goto(s, p, CleanDelete(f, t, x, prior)).(
      tokens := if cur in s.tokens
      then s.tokens[cur := s.tokens[cur].(consumed := true, replacedBy := Some(t))]
      else s.tokens)
    case CleanDelete(_, _, _, _) => CleanStep(s, p)
    case CleanPull(_, _, _, _) => PullStep(s, p)
  }

  predicate Revoking(c: PC) {
    c.RevokeMark? || c.RevokeRead? || c.RevokeSessions? || c.RevokeTokens?
  }

  /** The calls of `delete_refresh_token_family`. */
  function RevokeCall(s: State, p: nat): (s': State)
    requires Revoking(At(s, p))
    ensures OnlyMoves(s, s', p)
    ensures Revoking(At(s', p)) || At(s', p).Idle?
  {
    match At(s, p)
    case RevokeMark(_) => Mark(s, p)
    case RevokeRead(f, listed) =>
      var inList := if listed.Some? then set x | x in listed.value else {};
      var doomed := inList + (set t | t in TokensOf(s, f) :: s.tokens[t].session);
      Goto(s, p, RevokeSessions(f, doomed, listed.Some?))
    case RevokeSessions(f, doomed, found) =>
      Goto(s, p, RevokeTokens(f, found)).(sessions := set id | id in s.sessions && Doc(id) !in doomed)
    case RevokeTokens(f, _) => Goto(s, p, Idle).(tokens := s.tokens - TokensOf(s, f))
  }

  /** The second call of the two lookups. */
  ghost function ReadCall(s: State, p: nat): (s': State)
    requires At(s, p).ReadFamily? || At(s, p).LookupFamily?
    ensures OnlyMoves(s, s', p)
    ensures At(s', p).TokenRead? || At(s', p).SessionRead?
  {
    match At(s, p)
    case ReadFamily(t, doc) =>
      if doc.family !in s.families || s.families[doc.family].revoked then Goto(s, p, TokenRead(t, None))
      else Goto(s, p, TokenRead(t, Some(doc.consumed || s.families[doc.family].active != t)))
    case LookupFamily(id) => Goto(s, p, SessionRead(id, !Hidden(s, id)))
  }

  /** The next database call of process `p`, if it has one. */
  ghost function Call(s: State, p: nat): (s': State)
    ensures OnlyMoves(s, s', p)
  {
    var c := At(s, p);
    if c.CreateFamily? || c.CreateUndo? then CreateCall(s, p)
    else if Rotating(c) then RotateCall(s, p)
    else if Revoking(c) then RevokeCall(s, p)
    else if c.ReadFamily? || c.LookupFamily? then ReadCall(s, p)
    else s
  }

  // ----- What the calls do, beyond moving their process -----

  /** The family insert publishes the first token and its session, or finds the family there and changes nothing. */
  lemma InsertPublishes(s: State, p: nat)
    requires At(s, p).CreateFamily? && At(s, p).t !in s.log.out
    ensures var c, s' := At(s, p), InsertFamily(s, p);
            && (c.t in s'.log.out <==> c.t !in s.families)
            && (c.t in s'.log.out ==>
                  && c.t in s'.families && s'.families[c.t].active == c.t && !s'.families[c.t].revoked
                  && s'.families[c.t].sessions == [c.session] && s'.families[c.t].expires == c.expires
                  && s'.log.published[c.t] == {c.session})
            && (c.t !in s'.log.out ==> s'.families == s.families && s'.log == s.log)
  {
  }

  /** The compare-and-set publishes the successor and its session together, or neither; it unlists no session. */
  lemma CasPublishesTogether(s: State, p: nat)
    requires At(s, p).RotateCas? && At(s, p).t !in s.log.out
    ensures var c, s' := At(s, p), CompareAndSet(s, p);
            && (c.t in s'.log.out <==> CasMatches(s, c.f, c.cur, c.at))
            && (c.t in s'.log.out ==>
                  && c.f in s'.families && s'.families[c.f].active == c.t && !s'.families[c.f].revoked
                  && s'.families[c.f].expires == c.expires
                  && c.session in s'.families[c.f].sessions && c.session in s'.log.published[c.f]
                  && forall x :: x in s.families[c.f].sessions ==> x in s'.families[c.f].sessions)
            && (c.t !in s'.log.out ==> s'.families == s.families && s'.log == s.log)
  {
  }

  /** The mark revokes the family if it is there, and hands on its list; otherwise it only leaves a trace in history. */
  lemma MarkRevokes(s: State, p: nat)
    requires At(s, p).RevokeMark?
    ensures var f, s' := At(s, p).f, Mark(s, p);
            if f in s.families then Revoked(s', f) && At(s', p) == RevokeRead(f, Some(s'.families[f].sessions))
            else s'.families == s.families && At(s', p) == RevokeRead(f, None)
  {
  }

  /** A rotation creates no session and changes no family's mark, and only its compare-and-set publishes. */
  lemma RotationNeverRevokes(s: State, p: nat)
    requires Rotating(At(s, p))
    ensures var s' := RotateCall(s, p);
            && s'.sessions <= s.sessions && s'.families.Keys == s.families.Keys
            && (forall f :: Revoked(s', f) <==> Revoked(s, f))
            && (!At(s, p).RotateCas? ==> s'.log == s.log)
  {
  }

  /** A revocation only removes rows and sets the mark: no list, no active token and no publication changes. */
  lemma RevocationOnlyRemoves(s: State, p: nat)
    requires Revoking(At(s, p))
    ensures var s' := RevokeCall(s, p);
            && s'.sessions <= s.sessions && s'.tokens.Keys <= s.tokens.Keys && s'.families.Keys == s.families.Keys
            && s'.log == s.log.(blind := s'.log.blind)
            && forall f :: f in s.families ==>
                 s'.families[f].active == s.families[f].active && s'.families[f].sessions == s.families[f].sessions
  {
  }

  /**
   The second call of a lookup moves its process and nothing else, and shows no session that a revoked family lists.
   */
  lemma ReadOnlyAnswers(s: State, p: nat)
    requires At(s, p).ReadFamily? || At(s, p).LookupFamily?
    ensures var s' := ReadCall(s, p);
            && s' == s.(pc := s'.pc)
            && (At(s, p).LookupFamily? ==> At(s', p) == SessionRead(At(s, p).id, !Hidden(s, At(s, p).id)))
            && (At(s, p).ReadFamily? && Revoked(s, At(s, p).doc.family) ==> At(s', p) == TokenRead(At(s, p).t, None))
  {
  }

  function FaultTarget(c: PC): PC {
    match c
    case CreateFamily(t, _, _) => CreateUndo(t, false)
    case RotatePatch(f, _, _, _, _) => RevokeMark(f)
    case CleanDelete(f, _, _, _) => RevokeMark(f)
    case CleanPull(f, _, _, _) => RevokeMark(f)
    case _ => c
  }

  /**
   The family insert takes effect and still raises: the reply is lost, or the caller is cancelled while it runs.
   The undo then deletes the row of a published token. At every other call, losing the reply is the same as
   advancing and then failing or stopping.
   */
  function LoseReply(s: State, p: nat): (s': State)
    ensures OnlyMoves(s, s', p)
  {
    var c := At(s, p);
    if c.CreateFamily? && c.t !in s.families then
      Goto(InsertFamily(s, p), p, CreateUndo(c.t, true)).(log := InsertFamily(s, p).log.(torn := s.log.torn + {c.t}))
    else s
  }

  function AddSession(s: State, id: nat): State {
    if id in s.log.created then s else s.(sessions := s.sessions + {id}, log := s.log.(created := s.log.created + {id}))
  }

  /** Inserts the first token document; the family id is its own id. */
  function BeginCreate(s: State, p: nat, t: nat, x: SessionRef, expires: int): State {
    if At(s, p) != Idle || t in s.log.origin || !Offerable(s, x, t) then s
    else
      Goto(s, p, CreateFamily(t, x, expires)).(
      tokens := s.tokens[t := TokenDoc(t, x, false, None)],
      log := s.log.(origin := s.log.origin[t := t], claim := s.log.claim[x := t]))
  }

  /** Inserts the successor document before anything else is known. */
  function BeginRotate(s: State, p: nat, f: nat, cur: nat, t: nat, x: SessionRef, expires: int, at: int): State {
    if At(s, p) != Idle || t in s.log.origin || !Offerable(s, x, f) then s
    else
      Goto(s, p, RotateCas(f, cur, t, x, expires, at)).(
      tokens := s.tokens[t := TokenDoc(f, x, false, None)],
      log := s.log.(origin := s.log.origin[t := f], claim := s.log.claim[x := f]))
  }

  function BeginRead(s: State, p: nat, t: nat): State {
    if At(s, p) != Idle then s
    else if t in s.tokens then Goto(s, p, ReadFamily(t, s.tokens[t]))
    else Goto(s, p, TokenRead(t, None))
  }

  function BeginLookup(s: State, p: nat, id: nat): State {
    if At(s, p) != Idle then s
    else if id in s.sessions then Goto(s, p, LookupFamily(id))
    else Goto(s, p, SessionRead(id, false))
  }

  ghost function Next(s: State, e: Event): State {
    match e
    case CreateSession(id) => AddSession(s, id)
    case DropSession(id) => s.(sessions := s.sessions - {id})
    case StartCreate(p, t, x, expires) => BeginCreate(s, p, t, x, expires)
    case StartRotate(p, f, cur, t, x, expires, at) => BeginRotate(s, p, f, cur, t, x, expires, at)
    case StartRevoke(p, f) => if At(s, p) != Idle then s else Goto(s, p, RevokeMark(f))
    case StartRead(p, t) => BeginRead(s, p, t)
    case StartLookup(p, id) => BeginLookup(s, p, id)
    case Advance(p) => Call(s, p)
    case Fault(p) =>
      // An exception from the database: create undoes its insert, a published rotation revokes.
      Goto(s, p, FaultTarget(At(s, p)))
    case LostReply(p) => LoseReply(s, p)
    case Stop(p) => Goto(s, p, Idle)
  }

  ghost function Exec(s: State, es: seq<Event>): State
    decreases |es|
  {
    if es == [] then s else Exec(Next(s, es[0]), es[1..])
  }

  lemma ExecStep(s: State, e: Event, es: seq<Event>)
    ensures Exec(s, [e] + es) == Exec(Next(s, e), es)
  {
    assert ([e] + es)[1..] == es;
  }

  lemma ExecThree(s: State, e0: Event, e1: Event, e2: Event)
    ensures Exec(s, [e0, e1, e2]) == Next(Next(Next(s, e0), e1), e2)
  {
    ExecStep(Next(Next(s, e0), e1), e2, []);
    ExecStep(Next(s, e0), e1, [e2]);
    ExecStep(s, e0, [e1, e2]);
    assert [e0] + [e1, e2] == [e0, e1, e2] && [e1] + [e2] == [e1, e2];
  }

  lemma {:induction false} ExecAppend(s: State, xs: seq<Event>, ys: seq<Event>)
    ensures Exec(s, xs + ys) == Exec(Exec(s, xs), ys)
    decreases |xs|
  {
    if xs == [] {
      assert xs + ys == ys;
    } else {
      assert (xs + ys)[1..] == xs[1..] + ys;
      ExecAppend(Next(s, xs[0]), xs[1..], ys);
    }
  }
}
