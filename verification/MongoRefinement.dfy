/**
 The families of documents refine the locked in-memory store: each run maps to a run of the
 in-memory operations, with the family insert, the compare-and-set and the revoked mark as the
 points where an operation takes effect.
 */
module MongoRefinement {
  import opened Prelude
  import opened MongoFamilies
  import Memory = RefreshStore

  /** What both stores show of a token: its family, and whether it can no longer be exchanged. */
  datatype TokenView = TokenView(family: nat, consumed: bool)

  ghost function View(st: Memory.Store): map<nat, TokenView> {
    map t | t in st.tokens :: TokenView(st.tokens[t].family, st.tokens[t].consumedAt.Some?)
  }

  /** A published token whose family is not revoked. */
  ghost predicate Live(s: State, t: nat) {
    && t in s.log.out && t in s.log.origin
    && s.log.origin[t] in s.families && !s.families[s.log.origin[t]].revoked
  }

  /** The store a run stands for: the family document alone decides; token documents do not count. */
  ghost function Abs(s: State): map<nat, TokenView> {
    map t | t in s.log.out && Live(s, t) :: TokenView(s.log.origin[t], s.families[s.log.origin[t]].active != t)
  }

  // ----- The invariant -----

  /** The unpublished token a process inserted and may still publish or delete. */
  function Owned(c: PC): Option<nat> {
    match c
    case CreateFamily(t, _, _) => Some(t)
    case CreateUndo(t, landed) => if landed then None else Some(t)
    case RotateCas(_, _, t, _, _, _) => Some(t)
    case RotateUndo(_, t, _) => Some(t)
    case _ => None
  }

  /** A copy of a token's document: it names the family, and `consumed` is never set too early. */
  ghost predicate DocOk(s: State, t: nat, doc: TokenDoc) {
    t in s.log.origin && doc.family == s.log.origin[t] && (doc.consumed ==> t in s.log.succ)
  }

  /** The row is there, or a revocation may have deleted it. */
  ghost predicate RowOrRevoked(s: State, t: nat, f: nat) {
    t in s.tokens || f in s.log.blind || Revoked(s, f)
  }

  ghost predicate PcOk(s: State, c: PC) {
    match c
    case CreateFamily(t, _, _) => t in s.log.origin && s.log.origin[t] == t && RowOrRevoked(s, t, t)
    case CreateUndo(t, landed) => t in s.log.origin && (landed ==> t in s.log.torn)
    case RotateCas(f, _, t, _, _, _) => t in s.log.origin && s.log.origin[t] == f && RowOrRevoked(s, t, f)
    case RotateUndo(_, t, _) => t in s.log.origin
    case RotatePatch(_, cur, _, _, _) => cur in s.log.succ
    case RevokeRead(f, _) => f in s.log.blind || Revoked(s, f)
    case RevokeSessions(f, _, _) => f in s.log.blind || Revoked(s, f)
    case RevokeTokens(f, _) => f in s.log.blind || Revoked(s, f)
    case ReadFamily(t, doc) => DocOk(s, t, doc)
    case _ => true
  }

  /** A published token: active in its family, or exchanged for one published successor. */
  ghost predicate TokenOk(s: State, t: nat) {
    && t in s.log.origin
    && var f := s.log.origin[t];
    && f in s.families
    && (t in s.log.succ <==> s.families[f].active != t)
    && (t in s.log.succ ==>
         s.log.succ[t] in s.log.out && s.log.succ[t] in s.log.origin && s.log.origin[s.log.succ[t]] == f)
    && (f !in s.log.blind && !s.families[f].revoked ==> t in s.tokens || t in s.log.torn)
  }

  ghost predicate FamilyOk(s: State, f: nat)
    requires f in s.families
  {
    var a := s.families[f].active;
    a in s.log.out && a in s.log.origin && s.log.origin[a] == f
  }

  ghost predicate Inv(s: State) {
    && (forall t :: t in s.log.out ==> TokenOk(s, t))
    && (forall t :: t in s.log.succ ==> t in s.log.out) && s.log.torn <= s.log.out
    && (forall f :: f in s.families ==> FamilyOk(s, f))
    && (forall t :: t in s.tokens ==> DocOk(s, t, s.tokens[t]))
    && (forall p :: PcOk(s, At(s, p)))
    && (forall p :: Owned(At(s, p)).Some? ==> Owned(At(s, p)).value !in s.log.out)
    && (forall p, q :: p != q && Owned(At(s, p)).Some? ==> Owned(At(s, q)) != Owned(At(s, p)))
  }

  ghost predicate Grows(s: State, s': State) {
    && (forall t :: t in s.log.origin ==> t in s'.log.origin && s'.log.origin[t] == s.log.origin[t])
    && s.log.out <= s'.log.out && s.log.blind <= s'.log.blind && s.log.torn <= s'.log.torn
    && (forall t :: t in s.log.succ ==> t in s'.log.succ && s'.log.succ[t] == s.log.succ[t])
    && (forall f :: f in s.families ==> f in s'.families)
    && (forall f :: Revoked(s, f) ==> Revoked(s', f))
  }

  /** Rows only go when they are the mover's own or a revocation accounts for them. */
  ghost predicate RowsAccounted(s: State, s': State, p: nat) {
    forall t :: t in s.tokens && t !in s'.tokens && t in s.log.origin ==>
                  || Owned(At(s, p)) == Some(t) || t in s.log.torn
                  || s.log.origin[t] in s'.log.blind || Revoked(s', s.log.origin[t])
  }

  lemma OthersKeep(s: State, s': State, p: nat)
    requires Inv(s) && Grows(s, s') && OnlyMoves(s, s', p) && RowsAccounted(s, s', p)
    ensures forall q :: q != p ==> PcOk(s', At(s', q))
  {
    forall q | q != p ensures PcOk(s', At(s', q)) {
      assert PcOk(s, At(s, q));
      assert Owned(At(s, p)).Some? ==> Owned(At(s, q)) != Owned(At(s, p));
    }
  }

  /** A step is good when the mover, the documents and the published tokens are. */
  lemma StepKeeps(s: State, s': State, p: nat)
    requires Inv(s) && Grows(s, s') && OnlyMoves(s, s', p) && RowsAccounted(s, s', p)
    requires PcOk(s', At(s', p))
    requires forall t :: t in s'.log.out ==> TokenOk(s', t)
    requires (forall t :: t in s'.log.succ ==> t in s'.log.out) && s'.log.torn <= s'.log.out
    requires forall f :: f in s'.families ==> FamilyOk(s', f)
    requires forall t :: t in s'.tokens ==> DocOk(s', t, s'.tokens[t])
    requires forall t :: t in s'.log.out && t !in s.log.out ==> Owned(At(s, p)) == Some(t)
    requires Owned(At(s', p)).Some? ==> Owned(At(s', p)).value !in s'.log.out
    requires Owned(At(s', p)).Some? ==> Owned(At(s', p)) == Owned(At(s, p)) || Owned(At(s', p)).value !in s.log.origin
    ensures Inv(s')
  {
    OthersKeep(s, s', p);
    forall q ensures Owned(At(s', q)).Some? ==> Owned(At(s', q)).value !in s'.log.out {
      if q != p && Owned(At(s, q)).Some? {
        assert Owned(At(s, p)) != Owned(At(s, q));
      }
    }
    forall q, r | q != r && Owned(At(s', q)).Some? ensures Owned(At(s', r)) != Owned(At(s', q)) {
      assert PcOk(s, At(s, q)) && PcOk(s, At(s, r));
      assert Owned(At(s, q)).Some? ==> Owned(At(s, r)) != Owned(At(s, q));
      assert Owned(At(s, r)).Some? ==> Owned(At(s, q)) != Owned(At(s, r));
    }
  }

  /** Nothing the tokens depend on changed. */
  ghost predicate Quiet(s: State, s': State, p: nat) {
    && s'.tokens == s.tokens && OnlyMoves(s, s', p)
    && s'.log.origin == s.log.origin && s'.log.out == s.log.out && s'.log.succ == s.log.succ
    && s'.log.blind == s.log.blind && s'.log.torn == s.log.torn
    && s'.families.Keys == s.families.Keys
    && forall f :: f in s.families ==>
                     s'.families[f].active == s.families[f].active && s'.families[f].revoked == s.families[f].revoked
  }

  lemma QuietKeeps(s: State, s': State, p: nat)
    requires Inv(s) && Quiet(s, s', p) && PcOk(s, At(s', p))
    requires Owned(At(s', p)).Some? ==> Owned(At(s', p)) == Owned(At(s, p))
    ensures Inv(s') && Grows(s, s') && Abs(s') == Abs(s)
  {
    assert forall f :: Revoked(s, f) <==> Revoked(s', f);
    forall t | t in s'.log.out ensures TokenOk(s', t) { assert TokenOk(s, t); }
    forall f | f in s'.families ensures FamilyOk(s', f) { assert FamilyOk(s, f); }
    forall t | t in s'.tokens ensures DocOk(s', t, s'.tokens[t]) { assert DocOk(s, t, s.tokens[t]); }
    StepKeeps(s, s', p);
    assert forall t :: Live(s, t) <==> Live(s', t);
  }

  /** Token rows and processes do not show. */
  lemma SameShown(s: State, s': State)
    requires s'.families == s.families && s'.log.out == s.log.out
    requires forall t :: t in s.log.out ==>
             t in s.log.origin && t in s'.log.origin && s'.log.origin[t] == s.log.origin[t]
    ensures Abs(s') == Abs(s)
  {
    assert forall t :: Live(s', t) <==> Live(s, t);
  }

  // ----- The in-memory operation an event stands for -----

  datatype MemOp = Stutter | Create(tok: Memory.Token) | Exchange(cur: nat, tok: Memory.Token, at: int) | Revoke(f: nat)

  function Do(st: Memory.Store, op: MemOp): Memory.Store {
    match op
    case Stutter => st
    case Create(tok) => Memory.AddToken(st, tok)
    case Exchange(cur, tok, at) => Memory.Exchange(st, cur, tok, at)
    case Revoke(f) => Memory.Revoke(st, f)
  }

  function Row(t: nat, f: nat, expires: int): Memory.Token {
    Memory.Token(t, 0, 0, f, 0, None, expires, None, None)
  }

  /** The linearization points: the family insert, the compare-and-set and the revoked mark. */
  function Effect(s: State, e: Event): MemOp {
    if e.LostReply? && At(s, e.p).CreateFamily? && At(s, e.p).t !in s.families then
      Create(Row(At(s, e.p).t, At(s, e.p).t, At(s, e.p).expires))
    else if !e.Advance? then Stutter
    else
      var c := At(s, e.p);
      if c.CreateFamily? && c.t !in s.families then Create(Row(c.t, c.t, c.expires))
      else if c.RotateCas? && CasMatches(s, c.f, c.cur, c.at) then Exchange(c.cur, Row(c.t, c.f, c.expires), c.at)
      else if c.RevokeMark? && c.f in s.families then Revoke(c.f)
      else Stutter
  }

  /** What the operations do to the shown part of a store. */
  ghost function DoView(v: map<nat, TokenView>, op: MemOp): map<nat, TokenView> {
    match op
    case Stutter => v
    case Create(tok) => v[tok.id := TokenView(tok.family, tok.consumedAt.Some?)]
    case Exchange(cur, tok, at) =>
      if cur !in v || v[cur].consumed then v
      else v[tok.id := TokenView(tok.family, tok.consumedAt.Some?)][cur := TokenView(v[cur].family, true)]
    case Revoke(f) => map t | t in v && v[t].family != f :: v[t]
  }

  lemma ViewOfDo(st: Memory.Store, op: MemOp)
    requires op.Exchange? ==> op.tok.id != op.cur
    ensures View(Do(st, op)) == DoView(View(st), op)
  {
  }

  ghost predicate RefinesTo(s: State, op: MemOp, s': State) {
    Inv(s') && Grows(s, s') && Abs(s') == DoView(Abs(s), op)
  }

  ghost predicate Refines(s: State, e: Event) { RefinesTo(s, Effect(s, e), Next(s, e)) }

  lemma InsertKeeps(s: State, p: nat)
    requires Inv(s) && At(s, p).CreateFamily? && At(s, p).t !in s.families
    ensures Inv(InsertFamily(s, p)) && Grows(s, InsertFamily(s, p))
  {
    var s' := InsertFamily(s, p);
    var c := At(s, p);
    assert PcOk(s, c) && Owned(c) == Some(c.t);
    forall t | t in s.log.out ensures TokenOk(s', t) { assert TokenOk(s, t); }
    assert TokenOk(s', c.t);
    forall f | f in s.families ensures FamilyOk(s', f) { assert FamilyOk(s, f); }
    forall t | t in s'.tokens ensures DocOk(s', t, s'.tokens[t]) { assert DocOk(s, t, s.tokens[t]); }
    StepKeeps(s, s', p);
  }

  lemma AbsIs(s: State, v: map<nat, TokenView>)
    requires forall t :: Live(s, t) <==> t in v
    requires forall t :: t in v && Live(s, t) ==>
                           v[t] == TokenView(s.log.origin[t], s.families[s.log.origin[t]].active != t)
    ensures Abs(s) == v
  {
  }

  lemma InsertView(s: State, p: nat)
    requires Inv(s) && At(s, p).CreateFamily? && At(s, p).t !in s.families
    ensures Abs(InsertFamily(s, p)) == Abs(s)[At(s, p).t := TokenView(At(s, p).t, false)]
  {
    var s' := InsertFamily(s, p);
    var t0 := At(s, p).t;
    assert PcOk(s, At(s, p));
    var v := Abs(s)[t0 := TokenView(t0, false)];
    forall t ensures Live(s', t) <==> t in v {
      if t in s.log.out { assert TokenOk(s, t); }
    }
    forall t | t in v && t != t0 ensures s.log.origin[t] != t0 {
      assert TokenOk(s, t);
    }
    AbsIs(s', v);
  }

  lemma CasKeeps(s: State, p: nat)
    requires Inv(s) && At(s, p).RotateCas?
    requires CasMatches(s, At(s, p).f, At(s, p).cur, At(s, p).at)
    ensures Inv(CompareAndSet(s, p)) && Grows(s, CompareAndSet(s, p))
  {
    var s' := CompareAndSet(s, p);
    assert PcOk(s, At(s, p)) && Owned(At(s, p)) == Some(At(s, p).t);
    CasTokens(s, p);
    CasFamilies(s, p);
    StepKeeps(s, s', p);
  }

  lemma CasFamilies(s: State, p: nat)
    requires Inv(s) && At(s, p).RotateCas?
    requires CasMatches(s, At(s, p).f, At(s, p).cur, At(s, p).at)
    ensures Grows(s, CompareAndSet(s, p))
    ensures var s' := CompareAndSet(s, p);
            && (forall f :: f in s'.families ==> FamilyOk(s', f))
            && (forall t :: t in s'.tokens ==> DocOk(s', t, s'.tokens[t]))
  {
    var s' := CompareAndSet(s, p);
    CasShown(s, p);
    assert FamilyOk(s, At(s, p).f) && TokenOk(s, At(s, p).cur);
    forall f | f in s.families ensures FamilyOk(s', f) { assert FamilyOk(s, f); }
    forall t | t in s'.tokens ensures DocOk(s', t, s'.tokens[t]) { assert DocOk(s, t, s.tokens[t]); }
  }

  /** The exchanged token gets its successor, and the successor is the active one. */
  lemma CasTokens(s: State, p: nat)
    requires Inv(s) && At(s, p).RotateCas?
    requires CasMatches(s, At(s, p).f, At(s, p).cur, At(s, p).at)
    ensures forall t :: t in CompareAndSet(s, p).log.out ==> TokenOk(CompareAndSet(s, p), t)
    ensures At(s, p).cur in s.log.out
  {
    var s' := CompareAndSet(s, p);
    var c := At(s, p);
    assert PcOk(s, c) && Owned(c) == Some(c.t);
    assert FamilyOk(s, c.f) && TokenOk(s, c.cur);
    forall t | t in s.log.out ensures TokenOk(s', t) { assert TokenOk(s, t); }
    assert TokenOk(s', c.t) by { assert c.t !in s.log.succ; }
  }

  /** What the filter of the compare-and-set means: the current token is shown, and not consumed. */
  lemma CasShown(s: State, p: nat)
    requires Inv(s) && At(s, p).RotateCas?
    requires CasMatches(s, At(s, p).f, At(s, p).cur, At(s, p).at)
    ensures var c := At(s, p);
            && Live(s, c.cur) && s.log.origin[c.cur] == c.f && c.t != c.cur && c.t !in s.log.out
            && c.t in s.log.origin && s.log.origin[c.t] == c.f
  {
    var c := At(s, p);
    assert PcOk(s, c) && Owned(c) == Some(c.t);
    assert FamilyOk(s, c.f);
  }

  lemma CasView(s: State, p: nat)
    requires Inv(s) && At(s, p).RotateCas?
    requires CasMatches(s, At(s, p).f, At(s, p).cur, At(s, p).at)
    ensures var c := At(s, p);
            && c.cur in Abs(s) && !Abs(s)[c.cur].consumed && Abs(s)[c.cur].family == c.f && c.t != c.cur
            && Abs(CompareAndSet(s, p)) == Abs(s)[c.t := TokenView(c.f, false)][c.cur := TokenView(c.f, true)]
  {
    CasShown(s, p);
    CasLives(s, p);
    var c := At(s, p);
    AbsIs(CompareAndSet(s, p), Abs(s)[c.t := TokenView(c.f, false)][c.cur := TokenView(c.f, true)]);
  }

  lemma CasLives(s: State, p: nat)
    requires Inv(s) && At(s, p).RotateCas?
    requires CasMatches(s, At(s, p).f, At(s, p).cur, At(s, p).at)
    ensures var s' := CompareAndSet(s, p); var c := At(s, p);
            && (forall t :: Live(s', t) <==> Live(s, t) || t == c.t)
            && (forall t :: Live(s, t) && t != c.cur && t != c.t ==>
                  (s'.families[s'.log.origin[t]].active != t <==> s.families[s.log.origin[t]].active != t))
  {
    CasShown(s, p);
    forall t | Live(s, t) ensures TokenOk(s, t) { }
  }

  lemma MarkKeeps(s: State, p: nat)
    requires Inv(s) && At(s, p).RevokeMark?
    ensures Inv(Mark(s, p)) && Grows(s, Mark(s, p))
  {
    var s' := Mark(s, p);
    forall t | t in s'.log.out ensures TokenOk(s', t) { assert TokenOk(s, t); }
    forall f | f in s'.families ensures FamilyOk(s', f) { assert FamilyOk(s, f); }
    forall t | t in s'.tokens ensures DocOk(s', t, s'.tokens[t]) { assert DocOk(s, t, s.tokens[t]); }
    StepKeeps(s, s', p);
  }

  lemma MarkView(s: State, p: nat)
    requires Inv(s) && At(s, p).RevokeMark?
    ensures var f := At(s, p).f;
            Abs(Mark(s, p)) == if f in s.families
                               then map t | t in Abs(s) && Abs(s)[t].family != f :: Abs(s)[t] else Abs(s)
  {
    var s' := Mark(s, p);
    var f := At(s, p).f;
    forall t ensures Live(s', t) <==> Live(s, t) && (f in s.families ==> s.log.origin[t] != f) {
    }
  }

  lemma DeleteRowKeeps(s: State, s': State, p: nat, t: nat)
    requires Inv(s) && (Owned(At(s, p)) == Some(t) || t in s.log.torn) && !At(s, p).CreateFamily? &&
             !At(s, p).RotateCas?
    requires s' == Goto(s, p, At(s', p)).(tokens := s.tokens - {t})
    requires PcOk(s', At(s', p)) && Owned(At(s', p)).None?
    ensures Inv(s') && Grows(s, s') && Abs(s') == Abs(s)
  {
    forall x | x in s'.log.out ensures TokenOk(s', x) { assert TokenOk(s, x); }
    forall f | f in s'.families ensures FamilyOk(s', f) { assert FamilyOk(s, f); }
    forall x | x in s'.tokens ensures DocOk(s', x, s'.tokens[x]) { assert DocOk(s, x, s.tokens[x]); }
    StepKeeps(s, s', p);
    SameShown(s, s');
  }

  lemma PatchKeeps(s: State, p: nat)
    requires Inv(s) && At(s, p).RotatePatch?
    ensures var s' := RotateCall(s, p); Inv(s') && Grows(s, s') && Abs(s') == Abs(s)
  {
    var s' := RotateCall(s, p);
    assert PcOk(s, At(s, p));
    forall x | x in s'.log.out ensures TokenOk(s', x) { assert TokenOk(s, x); }
    forall f | f in s'.families ensures FamilyOk(s', f) { assert FamilyOk(s, f); }
    forall x | x in s'.tokens ensures DocOk(s', x, s'.tokens[x]) { assert DocOk(s, x, s.tokens[x]); }
    StepKeeps(s, s', p);
    SameShown(s, s');
  }

  lemma SweepKeeps(s: State, p: nat)
    requires Inv(s) && At(s, p).RevokeTokens?
    ensures var s' := RevokeCall(s, p); Inv(s') && Grows(s, s') && Abs(s') == Abs(s)
  {
    var s' := RevokeCall(s, p);
    var f := At(s, p).f;
    assert PcOk(s, At(s, p));
    forall t | t in s.tokens && t !in s'.tokens ensures t in s.log.origin && s.log.origin[t] == f {
      assert DocOk(s, t, s.tokens[t]);
    }
    forall x | x in s'.log.out ensures TokenOk(s', x) { assert TokenOk(s, x); }
    forall g | g in s'.families ensures FamilyOk(s', g) { assert FamilyOk(s, g); }
    forall x | x in s'.tokens ensures DocOk(s', x, s'.tokens[x]) { assert DocOk(s, x, s.tokens[x]); }
    StepKeeps(s, s', p);
    SameShown(s, s');
  }

  lemma BeginCreateKeeps(s: State, p: nat, t: nat, x: SessionRef, expires: int)
    requires Inv(s)
    ensures var s' := BeginCreate(s, p, t, x, expires); Inv(s') && Grows(s, s') && Abs(s') == Abs(s)
  {
    var s' := BeginCreate(s, p, t, x, expires);
    if At(s, p) == Idle && t !in s.log.origin && Offerable(s, x, t) {
      NewRowKeeps(s, s', p, t, t, x);
    }
  }

  lemma BeginRotateKeeps(s: State, p: nat, f: nat, cur: nat, t: nat, x: SessionRef, expires: int, at: int)
    requires Inv(s)
    ensures var s' := BeginRotate(s, p, f, cur, t, x, expires, at); Inv(s') && Grows(s, s') && Abs(s') == Abs(s)
  {
    var s' := BeginRotate(s, p, f, cur, t, x, expires, at);
    if At(s, p) == Idle && t !in s.log.origin && Offerable(s, x, f) {
      NewRowKeeps(s, s', p, t, f, x);
    }
  }

  /** Inserting the document of a fresh token shows nothing. */
  lemma NewRowKeeps(s: State, s': State, p: nat, t: nat, f: nat, x: SessionRef)
    requires Inv(s) && At(s, p) == Idle && t !in s.log.origin
    requires s'.tokens == s.tokens[t := TokenDoc(f, x, false, None)]
    requires s'.families == s.families && OnlyMoves(s, s', p)
    requires s'.log == s.log.(origin := s.log.origin[t := f], claim := s'.log.claim)
    requires Owned(At(s', p)) == Some(t) && PcOk(s', At(s', p))
    ensures Inv(s') && Grows(s, s') && Abs(s') == Abs(s)
  {
    NewRowTokens(s, s', t, f, x);
    NewRowFamilies(s, s', t, f);
    StepKeeps(s, s', p);
    forall u | u in s.log.out ensures u in s.log.origin && u in s'.log.origin && s'.log.origin[u] == s.log.origin[u] {
      assert TokenOk(s, u);
    }
    SameShown(s, s');
  }

  lemma NewRowFamilies(s: State, s': State, t: nat, f: nat)
    requires Inv(s) && t !in s.log.origin && s'.families == s.families
    requires s'.log == s.log.(origin := s.log.origin[t := f], claim := s'.log.claim)
    ensures Grows(s, s') && forall g :: g in s'.families ==> FamilyOk(s', g)
  {
    forall g | g in s'.families ensures FamilyOk(s', g) { assert FamilyOk(s, g); }
  }

  lemma NewRowTokens(s: State, s': State, t: nat, f: nat, x: SessionRef)
    requires Inv(s) && t !in s.log.origin
    requires s'.tokens == s.tokens[t := TokenDoc(f, x, false, None)] && s'.families == s.families
    requires s'.log == s.log.(origin := s.log.origin[t := f], claim := s'.log.claim)
    ensures forall u :: u in s'.log.out ==> TokenOk(s', u) && u != t
    ensures forall u :: u in s'.tokens ==> DocOk(s', u, s'.tokens[u])
  {
    forall u | u in s'.log.out ensures TokenOk(s', u) && u != t { assert TokenOk(s, u); }
    forall u | u in s'.tokens ensures DocOk(s', u, s'.tokens[u]) {
      if u != t { assert DocOk(s, u, s.tokens[u]); }
    }
  }

  // ----- Every event -----

  lemma CreateRefines(s: State, p: nat)
    requires Inv(s) && (At(s, p).CreateFamily? || At(s, p).CreateUndo?)
    ensures RefinesTo(s, Effect(s, Advance(p)), CreateCall(s, p))
  {
    var c := At(s, p);
    if c.CreateUndo? {
      assert PcOk(s, c);
      DeleteRowKeeps(s, CreateCall(s, p), p, c.t);
    } else if c.t in s.families {
      assert PcOk(s, c);
      QuietKeeps(s, InsertFamily(s, p), p);
    } else {
      InsertRefines(s, p);
    }
  }

  lemma InsertRefines(s: State, p: nat)
    requires Inv(s) && At(s, p).CreateFamily? && At(s, p).t !in s.families
    ensures RefinesTo(s, Create(Row(At(s, p).t, At(s, p).t, At(s, p).expires)), InsertFamily(s, p))
  {
    InsertKeeps(s, p);
    InsertView(s, p);
  }

  /** A lost reply inserts the family like any insert; only the process now undoes its row. */
  lemma LostRefines(s: State, p: nat)
    requires Inv(s)
    ensures RefinesTo(s, Effect(s, LostReply(p)), LoseReply(s, p))
  {
    var c := At(s, p);
    if c.CreateFamily? && c.t !in s.families { LostKeeps(s, p); }
  }

  lemma LostKeeps(s: State, p: nat)
    requires Inv(s) && At(s, p).CreateFamily? && At(s, p).t !in s.families
    ensures var s' := LoseReply(s, p);
            Inv(s') && Grows(s, s') && Abs(s') == Abs(s)[At(s, p).t := TokenView(At(s, p).t, false)]
  {
    var mid := InsertFamily(s, p);
    InsertKeeps(s, p);
    InsertView(s, p);
    TornKeeps(mid, LoseReply(s, p), p, At(s, p).t);
    GrowsTwice(s, mid, LoseReply(s, p));
  }

  lemma GrowsTwice(s: State, mid: State, s': State)
    requires Grows(s, mid) && Grows(mid, s')
    ensures Grows(s, s')
  {
  }

  lemma TornKeeps(s: State, s': State, p: nat, t: nat)
    requires Inv(s) && t in s.log.out && Owned(At(s, p)).None?
    requires s' == Goto(s, p, CreateUndo(t, true)).(log := s.log.(torn := s.log.torn + {t}))
    ensures Inv(s') && Grows(s, s') && Abs(s') == Abs(s)
  {
    forall x | x in s'.log.out ensures TokenOk(s', x) { assert TokenOk(s, x); }
    forall f | f in s'.families ensures FamilyOk(s', f) { assert FamilyOk(s, f); }
    forall x | x in s'.tokens ensures DocOk(s', x, s'.tokens[x]) { assert DocOk(s, x, s.tokens[x]); }
    assert TokenOk(s, t);
    StepKeeps(s, s', p);
    SameShown(s, s');
  }

  lemma RotateEffect(s: State, p: nat)
    requires Rotating(At(s, p))
    ensures var c := At(s, p);
            Effect(s, Advance(p)) == if c.RotateCas? && CasMatches(s, c.f, c.cur, c.at)
                                     then Exchange(c.cur, Row(c.t, c.f, c.expires), c.at) else Stutter
  {
  }

  lemma CasRefines(s: State, p: nat)
    requires Inv(s) && At(s, p).RotateCas? && CasMatches(s, At(s, p).f, At(s, p).cur, At(s, p).at)
    ensures RefinesTo(s, Effect(s, Advance(p)), RotateCall(s, p))
  {
    CasKeeps(s, p);
    CasView(s, p);
    RotateEffect(s, p);
  }

  lemma PullIsQuiet(s: State, p: nat)
    requires At(s, p).CleanPull?
    ensures Quiet(s, PullStep(s, p), p) && Owned(At(PullStep(s, p), p)).None? && PcOk(s, At(PullStep(s, p), p))
  {
  }

  lemma CleanIsQuiet(s: State, p: nat)
    requires At(s, p).CleanDelete?
    ensures Quiet(s, CleanStep(s, p), p) && Owned(At(CleanStep(s, p), p)).None? && PcOk(s, At(CleanStep(s, p), p))
  {
  }

  lemma CleanQuiet(s: State, p: nat)
    requires Inv(s) && At(s, p).CleanDelete?
    ensures var s' := RotateCall(s, p); Inv(s') && Grows(s, s') && Abs(s') == Abs(s)
  {
    CleanIsQuiet(s, p);
    QuietKeeps(s, CleanStep(s, p), p);
  }

  lemma PullQuiet(s: State, p: nat)
    requires Inv(s) && At(s, p).CleanPull?
    ensures var s' := RotateCall(s, p); Inv(s') && Grows(s, s') && Abs(s') == Abs(s)
  {
    PullIsQuiet(s, p);
    assert RotateCall(s, p) == PullStep(s, p);
    QuietKeeps(s, PullStep(s, p), p);
  }

  lemma LoserMoves(s: State, p: nat)
    requires At(s, p).RotateCas? || At(s, p).RotateCheck? || At(s, p).RotateDrop?
    requires PcOk(s, At(s, p)) && (At(s, p).RotateCas? ==> !CasMatches(s, At(s, p).f, At(s, p).cur, At(s, p).at))
    ensures var s' := RotateCall(s, p);
            && Quiet(s, s', p) && PcOk(s, At(s', p))
            && (Owned(At(s', p)).Some? ==> Owned(At(s', p)) == Owned(At(s, p)))
  {
  }

  lemma LoserQuiet(s: State, p: nat)
    requires Inv(s) && (At(s, p).RotateCas? || At(s, p).RotateCheck? || At(s, p).RotateDrop?)
    requires At(s, p).RotateCas? ==> !CasMatches(s, At(s, p).f, At(s, p).cur, At(s, p).at)
    ensures var s' := RotateCall(s, p); Inv(s') && Grows(s, s') && Abs(s') == Abs(s)
  {
    assert PcOk(s, At(s, p));
    LoserMoves(s, p);
    QuietKeeps(s, RotateCall(s, p), p);
  }

  lemma RotateQuiet(s: State, p: nat)
    requires Inv(s) && Rotating(At(s, p))
    requires At(s, p).RotateCas? ==> !CasMatches(s, At(s, p).f, At(s, p).cur, At(s, p).at)
    ensures var s' := RotateCall(s, p); Inv(s') && Grows(s, s') && Abs(s') == Abs(s)
  {
    var c := At(s, p);
    if c.RotateUndo? { DeleteRowKeeps(s, RotateCall(s, p), p, c.t); }
    else if c.RotatePatch? { PatchKeeps(s, p); }
    else if c.CleanDelete? { CleanQuiet(s, p); }
    else if c.CleanPull? { PullQuiet(s, p); }
    else { LoserQuiet(s, p); }
  }

  lemma RotateRefines(s: State, p: nat)
    requires Inv(s) && Rotating(At(s, p))
    ensures RefinesTo(s, Effect(s, Advance(p)), RotateCall(s, p))
  {
    var c := At(s, p);
    if c.RotateCas? && CasMatches(s, c.f, c.cur, c.at) { CasRefines(s, p); }
    else {
      RotateQuiet(s, p);
      RotateEffect(s, p);
    }
  }

  lemma MarkRefines(s: State, p: nat)
    requires Inv(s) && At(s, p).RevokeMark?
    ensures RefinesTo(s, Effect(s, Advance(p)), Mark(s, p))
  {
    MarkKeeps(s, p);
    MarkEffect(s, p);
    MarkDoes(s, p);
  }

  lemma MarkEffect(s: State, p: nat)
    requires At(s, p).RevokeMark?
    ensures Effect(s, Advance(p)) == if At(s, p).f in s.families then Revoke(At(s, p).f) else Stutter
  {
  }

  lemma MarkDoes(s: State, p: nat)
    requires Inv(s) && At(s, p).RevokeMark?
    ensures Abs(Mark(s, p)) == DoView(Abs(s), if At(s, p).f in s.families then Revoke(At(s, p).f) else Stutter)
  {
    MarkView(s, p);
  }

  lemma RevokeQuiet(s: State, p: nat)
    requires Inv(s) && Revoking(At(s, p)) && !At(s, p).RevokeMark?
    ensures var s' := RevokeCall(s, p); Inv(s') && Grows(s, s') && Abs(s') == Abs(s)
  {
    assert PcOk(s, At(s, p));
    if At(s, p).RevokeTokens? { SweepKeeps(s, p); } else { QuietKeeps(s, RevokeCall(s, p), p); }
  }

  lemma RevokeRefines(s: State, p: nat)
    requires Inv(s) && Revoking(At(s, p))
    ensures RefinesTo(s, Effect(s, Advance(p)), RevokeCall(s, p))
  {
    if At(s, p).RevokeMark? { MarkRefines(s, p); } else { RevokeQuiet(s, p); }
  }

  lemma ReadRefines(s: State, p: nat)
    requires Inv(s) && (At(s, p).ReadFamily? || At(s, p).LookupFamily?)
    ensures RefinesTo(s, Effect(s, Advance(p)), ReadCall(s, p))
  {
    ReadMoves(s, p);
    GotoKeeps(s, p, At(ReadCall(s, p), p));
  }

  lemma ReadMoves(s: State, p: nat)
    requires At(s, p).ReadFamily? || At(s, p).LookupFamily?
    ensures var c := At(ReadCall(s, p), p);
            ReadCall(s, p) == Goto(s, p, c) && PcOk(s, c) && Owned(c).None? && Effect(s, Advance(p)).Stutter?
  {
  }

  lemma CallRefines(s: State, p: nat)
    requires Inv(s)
    ensures RefinesTo(s, Effect(s, Advance(p)), Call(s, p))
  {
    var c := At(s, p);
    if c.CreateFamily? || c.CreateUndo? { CreateRefines(s, p); }
    else if Rotating(c) { RotateRefines(s, p); }
    else if Revoking(c) { RevokeRefines(s, p); }
    else if c.ReadFamily? || c.LookupFamily? { ReadRefines(s, p); }
  }

  lemma GotoKeeps(s: State, p: nat, c: PC)
    requires Inv(s) && PcOk(s, c) && (Owned(c).Some? ==> Owned(c) == Owned(At(s, p)))
    ensures var s' := Goto(s, p, c); Inv(s') && Grows(s, s') && Abs(s') == Abs(s)
  {
    QuietKeeps(s, Goto(s, p, c), p);
  }

  lemma ReadStartKeeps(s: State, p: nat, t: nat, id: nat)
    requires Inv(s)
    ensures var s' := BeginRead(s, p, t); Inv(s') && Grows(s, s') && Abs(s') == Abs(s)
    ensures var s' := BeginLookup(s, p, id); Inv(s') && Grows(s, s') && Abs(s') == Abs(s)
  {
    if At(s, p) == Idle {
      if t in s.tokens {
        assert DocOk(s, t, s.tokens[t]);
        GotoKeeps(s, p, ReadFamily(t, s.tokens[t]));
      } else { GotoKeeps(s, p, TokenRead(t, None)); }
      GotoKeeps(s, p, if id in s.sessions then LookupFamily(id) else SessionRead(id, false));
    }
  }

  lemma AddSessionKeeps(s: State, id: nat)
    requires Inv(s)
    ensures RefinesTo(s, Stutter, AddSession(s, id))
  {
    assert PcOk(s, At(s, 0));
    QuietKeeps(s, AddSession(s, id), 0);
  }

  lemma DropSessionKeeps(s: State, id: nat)
    requires Inv(s)
    ensures RefinesTo(s, Stutter, s.(sessions := s.sessions - {id}))
  {
    assert PcOk(s, At(s, 0));
    QuietKeeps(s, s.(sessions := s.sessions - {id}), 0);
  }

  lemma StartRevokeKeeps(s: State, p: nat, f: nat)
    requires Inv(s)
    ensures RefinesTo(s, Stutter, if At(s, p) != Idle then s else Goto(s, p, RevokeMark(f)))
  {
    if At(s, p) == Idle { GotoKeeps(s, p, RevokeMark(f)); }
  }

  lemma FaultKeeps(s: State, p: nat)
    requires Inv(s)
    ensures RefinesTo(s, Stutter, Goto(s, p, FaultTarget(At(s, p))))
  {
    assert PcOk(s, At(s, p));
    GotoKeeps(s, p, FaultTarget(At(s, p)));
  }

  /** An event that stands for no operation refines by leaving what is shown as it is. */
  lemma StutterRefines(s: State, e: Event, s': State)
    requires Inv(s') && Grows(s, s') && Abs(s') == Abs(s)
    requires s' == Next(s, e) && Effect(s, e) == Stutter
    ensures Refines(s, e)
  {
  }

  lemma CreateSessionRefines(s: State, e: Event)
    requires Inv(s) && e.CreateSession?
    ensures Refines(s, e)
  {
    AddSessionKeeps(s, e.id);
  }

  lemma DropSessionRefines(s: State, e: Event)
    requires Inv(s) && e.DropSession?
    ensures Refines(s, e)
  {
    DropSessionKeeps(s, e.id);
  }

  lemma StartCreateRefines(s: State, e: Event)
    requires Inv(s) && e.StartCreate?
    ensures Refines(s, e)
  {
    var s' := BeginCreate(s, e.p, e.t, e.session, e.expires);
    assert s' == Next(s, e) && Effect(s, e) == Stutter;
    BeginCreateKeeps(s, e.p, e.t, e.session, e.expires);
    StutterRefines(s, e, s');
  }

  lemma StartRotateRefines(s: State, e: Event)
    requires Inv(s) && e.StartRotate?
    ensures Refines(s, e)
  {
    var s' := BeginRotate(s, e.p, e.f, e.cur, e.t, e.session, e.expires, e.at);
    assert s' == Next(s, e) && Effect(s, e) == Stutter;
    BeginRotateKeeps(s, e.p, e.f, e.cur, e.t, e.session, e.expires, e.at);
    StutterRefines(s, e, s');
  }

  lemma StartRevokeRefines(s: State, e: Event)
    requires Inv(s) && e.StartRevoke?
    ensures Refines(s, e)
  {
    StartRevokeKeeps(s, e.p, e.f);
  }

  lemma StartReadRefines(s: State, e: Event)
    requires Inv(s) && e.StartRead?
    ensures Refines(s, e)
  {
    var s' := BeginRead(s, e.p, e.t);
    assert s' == Next(s, e) && Effect(s, e) == Stutter;
    ReadStartKeeps(s, e.p, e.t, 0);
    StutterRefines(s, e, s');
  }

  lemma StartLookupRefines(s: State, e: Event)
    requires Inv(s) && e.StartLookup?
    ensures Refines(s, e)
  {
    var s' := BeginLookup(s, e.p, e.id);
    assert s' == Next(s, e) && Effect(s, e) == Stutter;
    ReadStartKeeps(s, e.p, 0, e.id);
    StutterRefines(s, e, s');
  }

  lemma AdvanceRefines(s: State, e: Event)
    requires Inv(s) && e.Advance?
    ensures Refines(s, e)
  {
    var s' := Call(s, e.p);
    assert s' == Next(s, e) && e == Advance(e.p);
    CallRefines(s, e.p);
  }

  lemma FaultRefines(s: State, e: Event)
    requires Inv(s) && e.Fault?
    ensures Refines(s, e)
  {
    var s' := Goto(s, e.p, FaultTarget(At(s, e.p)));
    assert s' == Next(s, e) && Effect(s, e) == Stutter;
    FaultKeeps(s, e.p);
    StutterRefines(s, e, s');
  }

  lemma LostReplyRefines(s: State, e: Event)
    requires Inv(s) && e.LostReply?
    ensures Refines(s, e)
  {
    var s' := LoseReply(s, e.p);
    assert s' == Next(s, e);
    LostRefines(s, e.p);
  }

  lemma StopRefines(s: State, e: Event)
    requires Inv(s) && e.Stop?
    ensures Refines(s, e)
  {
    var s' := Goto(s, e.p, Idle);
    assert s' == Next(s, e) && Effect(s, e) == Stutter;
    GotoKeeps(s, e.p, Idle);
    StutterRefines(s, e, s');
  }

  /** Each event does to the shown tokens exactly what its in-memory operation does, or nothing. */
  lemma NextRefines(s: State, e: Event)
    requires Inv(s)
    ensures Refines(s, e)
  {
    match e
    case CreateSession(_) => CreateSessionRefines(s, e);
    case DropSession(_) => DropSessionRefines(s, e);
    case StartCreate(_, _, _, _) => StartCreateRefines(s, e);
    case StartRotate(_, _, _, _, _, _, _) => StartRotateRefines(s, e);
    case StartRevoke(_, _) => StartRevokeRefines(s, e);
    case StartRead(_, _) => StartReadRefines(s, e);
    case StartLookup(_, _) => StartLookupRefines(s, e);
    case Advance(_) => AdvanceRefines(s, e);
    case Fault(_) => FaultRefines(s, e);
    case LostReply(_) => LostReplyRefines(s, e);
    case Stop(_) => StopRefines(s, e);
  }

  // ----- Whole runs -----

  ghost function Linearize(s: State, es: seq<Event>): seq<MemOp>
    decreases |es|
  {
    if es == [] then [] else [Effect(s, es[0])] + Linearize(Next(s, es[0]), es[1..])
  }

  function MemRun(st: Memory.Store, ops: seq<MemOp>): Memory.Store
    decreases |ops|
  {
    if ops == [] then st else MemRun(Do(st, ops[0]), ops[1..])
  }

  lemma InitInv()
    ensures Inv(INIT) && Abs(INIT) == View(Memory.EMPTY)
  {
  }

  lemma EffectIsFresh(s: State, e: Event)
    requires Inv(s) && Effect(s, e).Exchange?
    ensures Effect(s, e).tok.id != Effect(s, e).cur
  {
    CasView(s, e.p);
  }

  lemma {:induction false} ExecRefines(s: State, es: seq<Event>, st: Memory.Store)
    requires Inv(s) && View(st) == Abs(s)
    ensures Inv(Exec(s, es)) && Grows(s, Exec(s, es))
    ensures View(MemRun(st, Linearize(s, es))) == Abs(Exec(s, es))
    decreases |es|
  {
    if es == [] {
    } else {
      var op := Effect(s, es[0]);
      NextRefines(s, es[0]);
      if op.Exchange? { EffectIsFresh(s, es[0]); }
      ViewOfDo(st, op);
      ExecRefines(Next(s, es[0]), es[1..], Do(st, op));
      var rest := Linearize(Next(s, es[0]), es[1..]);
      assert ([op] + rest)[1..] == rest;
    }
  }

  /**
   Refinement, for every run: replaying the linearized operations on the locked store shows the same
   tokens, in the same families and with the same consumed state, as the family documents do.
   */
  lemma RunsRefineMemory(es: seq<Event>)
    ensures View(MemRun(Memory.EMPTY, Linearize(INIT, es))) == Abs(Exec(INIT, es))
  {
    InitInv();
    ExecRefines(INIT, es, Memory.EMPTY);
  }

  /** Every state of a run is good, and a token's first successor is its only one for the rest of the run. */
  lemma SuccessorIsFinal(before: seq<Event>, after: seq<Event>, t: nat)
    requires t in Exec(INIT, before).log.succ
    ensures var s, s' := Exec(INIT, before), Exec(Exec(INIT, before), after);
            && t in s'.log.succ && s'.log.succ[t] == s.log.succ[t]
            && t in s.log.out && s.log.succ[t] in s.log.out
  {
    Reached(before);
    ExecRefines(Exec(INIT, before), after, MemRun(Memory.EMPTY, Linearize(INIT, before)));
    assert TokenOk(Exec(INIT, before), t);
  }

  lemma Reached(es: seq<Event>)
    ensures Inv(Exec(INIT, es))
    ensures View(MemRun(Memory.EMPTY, Linearize(INIT, es))) == Abs(Exec(INIT, es))
  {
    InitInv();
    ExecRefines(INIT, es, Memory.EMPTY);
  }

  /**
   In every run the compare-and-set answers as the locked store does, and only looks at one thing more: the
   in-memory exchange never asks whether the family has expired by `at`.
   */
  lemma CasDecides(es: seq<Event>, p: nat)
    requires var s := Exec(INIT, es);
             && At(s, p).RotateCas? && At(s, p).cur in s.log.out && At(s, p).cur in s.log.origin
             && s.log.origin[At(s, p).cur] == At(s, p).f
    ensures var s, st := Exec(INIT, es), MemRun(Memory.EMPTY, Linearize(INIT, es));
            var c := At(s, p);
            && c.f in s.families
            && (CasMatches(s, c.f, c.cur, c.at)
                <==> Memory.Exchangeable(st, c.cur) && s.families[c.f].expires > c.at)
  {
    Reached(es);
    var s, st := Exec(INIT, es), MemRun(Memory.EMPTY, Linearize(INIT, es));
    var c := At(s, p);
    assert TokenOk(s, c.cur);
    assert c.cur in View(st) <==> Live(s, c.cur);
    assert c.cur in View(st) ==> (View(st)[c.cur].consumed <==> st.tokens[c.cur].consumedAt.Some?);
  }

  // ----- Reads -----

  /** What the locked store answers about a token: absent, or present and consumed or not. */
  ghost function Answer(st: Memory.Store, t: nat): Option<bool> {
    if t in st.tokens then Some(st.tokens[t].consumedAt.Some?) else None
  }

  /** The locked store after the operations a run amounts to. */
  ghost function Locked(es: seq<Event>): Memory.Store { MemRun(Memory.EMPTY, Linearize(INIT, es)) }

  /**
   In every run the second call of a token read answers what the locked store answers at that moment, even when
   the consumed mark of the old row was never written.
   */
  lemma ReadAnswers(es: seq<Event>, p: nat)
    requires var s := Exec(INIT, es); At(s, p).ReadFamily? && At(s, p).t in s.log.out
    ensures var s := Exec(INIT, es);
            At(Next(s, Advance(p)), p) == TokenRead(At(s, p).t, Answer(Locked(es), At(s, p).t))
  {
    Reached(es);
    var s := Exec(INIT, es);
    var c := At(s, p);
    assert PcOk(s, c) && TokenOk(s, c.t);
    AnswerOf(Locked(es), s, c.t);
  }

  lemma AnswerOf(st: Memory.Store, s: State, t: nat)
    requires View(st) == Abs(s)
    ensures Answer(st, t) == if t in Abs(s) then Some(Abs(s)[t].consumed) else None
  {
    assert t in View(st) <==> t in st.tokens;
  }

  /** Whatever token is read, published or not: it is shown as unconsumed only if the locked store shows it so. */
  lemma ReadNeverInvents(es: seq<Event>, p: nat)
    requires At(Exec(INIT, es), p).ReadFamily?
    ensures var s := Exec(INIT, es);
            At(Next(s, Advance(p)), p) == TokenRead(At(s, p).t, Some(false)) ==>
              Answer(Locked(es), At(s, p).t) == Some(false)
  {
    Reached(es);
    var s := Exec(INIT, es);
    if At(Next(s, Advance(p)), p) == TokenRead(At(s, p).t, Some(false)) { ShownUnconsumed(s, p); }
    AnswerOf(Locked(es), s, At(s, p).t);
  }

  lemma ShownUnconsumed(s: State, p: nat)
    requires Inv(s) && At(s, p).ReadFamily? && At(Next(s, Advance(p)), p) == TokenRead(At(s, p).t, Some(false))
    ensures At(s, p).t in Abs(s) && !Abs(s)[At(s, p).t].consumed
  {
    var c := At(s, p);
    assert PcOk(s, c);
    if c.doc.family in s.families { assert FamilyOk(s, c.doc.family); }
  }

  /** What a read of token `t` by an idle process answers when its two calls follow each other. */
  ghost function ReadAnswer(s: State, p: nat, t: nat): PC {
    At(Next(Next(s, StartRead(p, t)), Advance(p)), p)
  }

  /**
   In every run, a read of a published token answers as the locked store does exactly when the token's row is there
   or its family's document is revoked. In the other case it answers that there is no such token.
   */
  lemma ReadAgreesExactly(es: seq<Event>, p: nat, t: nat)
    requires At(Exec(INIT, es), p) == Idle && t in Exec(INIT, es).log.out
    ensures var s := Exec(INIT, es);
            && t in s.log.origin
            && (ReadAnswer(s, p, t) == TokenRead(t, Answer(Locked(es), t)) <==>
                 t in s.tokens || Revoked(s, s.log.origin[t]))
            && (t !in s.tokens ==> ReadAnswer(s, p, t) == TokenRead(t, None))
  {
    Reached(es);
    var s := Exec(INIT, es);
    assert TokenOk(s, t);
    AnswerOf(Locked(es), s, t);
    assert t in Abs(s) <==> Live(s, t);
    if t in s.tokens {
      RowReadAnswers(es, p, t);
    } else {
      MissingRead(s, p, t);
    }
  }

  lemma MissingRead(s: State, p: nat, t: nat)
    requires At(s, p) == Idle && t !in s.tokens
    ensures ReadAnswer(s, p, t) == TokenRead(t, None)
  {
    assert Next(s, StartRead(p, t)) == Goto(s, p, TokenRead(t, None));
  }

  lemma RowReadAnswers(es: seq<Event>, p: nat, t: nat)
    requires var s := Exec(INIT, es); At(s, p) == Idle && t in s.log.out && t in s.tokens
    ensures ReadAnswer(Exec(INIT, es), p, t) == TokenRead(t, Answer(Locked(es), t))
  {
    var s, e := Exec(INIT, es), StartRead(p, t);
    LinearizeAppend(INIT, es, e);
    ReadAnswers(es + [e], p);
  }

  /** A read's first call stands for no operation. */
  lemma LinearizeAppend(s: State, es: seq<Event>, e: Event)
    requires e.StartRead?
    ensures Exec(s, es + [e]) == Next(Exec(s, es), e)
    ensures MemRun(Memory.EMPTY, Linearize(s, es + [e])) == MemRun(Memory.EMPTY, Linearize(s, es))
  {
    ExecAppend(s, es, [e]);
    ExecStep(Exec(s, es), e, []);
    assert [e] + [] == [e];
    LinearizeSnoc(s, es, e);
    MemRunStutter(Memory.EMPTY, Linearize(s, es));
  }

  lemma {:induction false} LinearizeSnoc(s: State, es: seq<Event>, e: Event)
    requires e.StartRead?
    ensures Linearize(s, es + [e]) == Linearize(s, es) + [Stutter]
    decreases |es|
  {
    if es == [] {
      assert [] + [e] == [e] && [e][1..] == [];
      assert Linearize(Next(s, e), []) == [];
    } else {
      assert (es + [e])[1..] == es[1..] + [e];
      LinearizeSnoc(Next(s, es[0]), es[1..], e);
    }
  }

  lemma {:induction false} MemRunStutter(st: Memory.Store, ops: seq<MemOp>)
    ensures MemRun(st, ops + [Stutter]) == MemRun(st, ops)
    decreases |ops|
  {
    if ops == [] {
      assert [] + [Stutter] == [Stutter] && [Stutter][1..] == [];
      assert MemRun(st, [Stutter]) == MemRun(Do(st, Stutter), []);
    } else {
      assert (ops + [Stutter])[1..] == ops[1..] + [Stutter];
      MemRunStutter(Do(st, ops[0]), ops[1..]);
    }
  }

  /** The row of an unrevoked family's token goes missing only after a blind revocation or a lost reply. */
  lemma MissingRowCauses(es: seq<Event>, t: nat)
    requires var s := Exec(INIT, es); t in s.log.out && t !in s.tokens
    ensures var s := Exec(INIT, es);
            t in s.log.origin && (Revoked(s, s.log.origin[t]) || s.log.origin[t] in s.log.blind || t in s.log.torn)
  {
    Reached(es);
    assert TokenOk(Exec(INIT, es), t);
  }

  // ----- The exception is real: a revocation that overtakes the family insert -----

  const INSERTED: State := State(
    map[0 := TokenDoc(0, Doc(0), false, None)], map[], {0}, map[1 := CreateFamily(0, Doc(0), 100)],
    Log(map[], {0}, map[Doc(0) := 0], map[0 := 0], {}, map[], {}, {}))

  const SWEEPING: State := INSERTED.(
    pc := map[1 := CreateFamily(0, Doc(0), 100), 2 := RevokeSessions(0, {Doc(0)}, false)],
    log := INSERTED.log.(blind := {0}))

  /** A family is inserted after a revocation found none and deleted its only token row. */
  const INSERT: seq<Event> := [CreateSession(0), StartCreate(1, 0, Doc(0), 100)]

  const OVERTAKE: seq<Event> := [StartRevoke(2, 0), Advance(2), Advance(2)]

  const FINISH: seq<Event> := [Advance(2), Advance(2), Advance(1)]

  lemma RunInsert()
    ensures Exec(INIT, INSERT) == INSERTED
  {
    ExecStep(AddSession(INIT, 0), INSERT[1], []);
    ExecStep(INIT, INSERT[0], [INSERT[1]]);
    assert INSERT == [INSERT[0]] + [INSERT[1]];
  }

  lemma RunOvertake()
    ensures Exec(INSERTED, OVERTAKE) == SWEEPING
  {
    var s1 := Goto(INSERTED, 2, RevokeMark(0));
    ExecThree(INSERTED, OVERTAKE[0], OVERTAKE[1], OVERTAKE[2]);
    assert Next(INSERTED, OVERTAKE[0]) == s1;
    RunMark(s1);
    RunSnapshot(Mark(s1, 2));
  }

  lemma RunMark(s: State)
    requires s == Goto(INSERTED, 2, RevokeMark(0))
    ensures Call(s, 2) == Mark(s, 2)
    ensures Mark(s, 2) == Goto(s, 2, RevokeRead(0, None)).(log := s.log.(blind := {0}))
  {
    assert {} + {0} == {0};
  }

  lemma RunSnapshot(s: State)
    requires s == Goto(Goto(INSERTED, 2, RevokeMark(0)), 2, RevokeRead(0, None)).(log := INSERTED.log.(blind := {0}))
    ensures Call(s, 2) == SWEEPING
  {
    assert At(s, 2) == RevokeRead(0, None) && TokensOf(s, 0) == {0};
    var t := Call(s, 2);
    assert t == RevokeCall(s, 2) && At(t, 2) == RevokeSessions(0, {Doc(0)}, false);
    assert t.pc == SWEEPING.pc;
  }

  const SWEPT: State := SWEEPING.(
    tokens := map[], sessions := {}, pc := map[1 := CreateFamily(0, Doc(0), 100), 2 := Idle])

  lemma RunSweep()
    ensures Call(Call(SWEEPING, 2), 2) == SWEPT
  {
    var s1 := RevokeCall(SWEEPING, 2);
    assert s1.sessions == {} && s1.pc == SWEEPING.pc[2 := RevokeTokens(0, false)];
    assert TokensOf(s1, 0) == {0};
    var s2 := RevokeCall(s1, 2);
    assert s2.tokens == map[] && s2.pc == SWEPT.pc;
  }

  lemma RunFinish()
    ensures var s := Exec(SWEEPING, FINISH);
            && s.tokens == map[] && s.families == map[0 := Family(0, [Doc(0)], false, 100)]
            && s.log.out == {0} && s.log.origin == map[0 := 0] && At(s, 3) == Idle
  {
    RunSweep();
    ExecThree(SWEEPING, FINISH[0], FINISH[1], FINISH[2]);
    assert Call(SWEPT, 1) == InsertFamily(SWEPT, 1);
  }

  /** The locked store then still shows token 0 unconsumed, and the read answers that there is no such token. */
  lemma MissingRowHappens()
    ensures var s := Exec(INIT, INSERT + OVERTAKE + FINISH);
            && 0 in s.log.out && Answer(Locked(INSERT + OVERTAKE + FINISH), 0) == Some(false)
            && 0 !in s.tokens && At(s, 3) == Idle
            && At(Next(s, StartRead(3, 0)), 3) == TokenRead(0, None)
  {
    Reached(INSERT + OVERTAKE + FINISH);
    AnswerOf(Locked(INSERT + OVERTAKE + FINISH), Exec(INIT, INSERT + OVERTAKE + FINISH), 0);
    RunInsert();
    RunOvertake();
    RunFinish();
    ExecAppend(INIT, INSERT + OVERTAKE, FINISH);
    ExecAppend(INIT, INSERT, OVERTAKE);
    assert Live(Exec(INIT, INSERT + OVERTAKE + FINISH), 0);
  }

  // ----- And so is the other: a lost reply to the family insert -----

  /** The insert takes effect and raises; the undo deletes the row. */
  const UNDO: seq<Event> := [LostReply(1), Advance(1)]

  lemma RunUndo()
    ensures var s := Exec(INSERTED, UNDO);
            && s.tokens == map[] && s.families == map[0 := Family(0, [Doc(0)], false, 100)]
            && s.log.out == {0} && s.log.origin == map[0 := 0] && s.log.blind == {} && At(s, 3) == Idle
  {
    var s1 := LoseReply(INSERTED, 1);
    ExecStep(s1, UNDO[1], []);
    ExecStep(INSERTED, UNDO[0], [UNDO[1]]);
    assert [UNDO[0]] + [UNDO[1]] == UNDO && [UNDO[1]] + [] == [UNDO[1]];
    assert Call(s1, 1) == CreateCall(s1, 1);
  }

  /** No revocation has run, the locked store shows token 0 unconsumed, and the read answers that there is none. */
  lemma LostReplyHappens()
    ensures var s := Exec(INIT, INSERT + UNDO);
            && s.log.blind == {} && At(s, 3) == Idle
            && 0 in s.log.out && Answer(Locked(INSERT + UNDO), 0) == Some(false)
            && ReadAnswer(s, 3, 0) == TokenRead(0, None)
  {
    RunInsert();
    RunUndo();
    ExecAppend(INIT, INSERT, UNDO);
    Reached(INSERT + UNDO);
    var s := Exec(INIT, INSERT + UNDO);
    AnswerOf(Locked(INSERT + UNDO), s, 0);
    assert Live(s, 0);
    MissingRead(s, 3, 0);
  }
}
