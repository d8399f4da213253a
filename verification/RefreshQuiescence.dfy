/**
 What any interleaving of sign-ins, refreshes and revocations leaves behind: invariants of every
 run, and the state of a family once nothing about it is in flight.
 */
module RefreshQuiescence {
  import opened Prelude
  import opened RefreshStore
  import opened RefreshFlow

  /** The row as first written. */
  function Fresh(tok: Token): Token { tok.(consumedAt := None, replacedBy := None) }

  /** A copy of a row some process holds. */
  ghost predicate Copy(s: State, tok: Token) {
    tok.id in s.log.rows && Fresh(tok) == s.log.rows[tok.id] && tok.consumedAt.None?
  }

  ghost predicate PcOk(s: State, p: nat, c: PC) {
    match c
    case Issuing(x, _, _) => x in s.log.used
    case LoadUser(tok) => Copy(s, tok)
    case MakeSession(tok) => Copy(s, tok)
    case Reload(tok, x) => Copy(s, tok) && x in s.log.used && tok.session != x
    case Swap(tok, again, x) =>
      Copy(s, tok) && Copy(s, again) && tok.id == again.id && x in s.log.used && tok.session != x
    case DropOld(tok, x) => Copy(s, tok) && x in s.log.used && tok.session != x
    case Burn(f, x) => f in s.log.head && (x.Some? ==> x.value in s.log.used)
    case Cleanup(f, x) => x in s.log.used
    case Done(_) => true
  }

  /** Process state `c` still has session `x` to delete. */
  predicate Owes(c: PC, x: nat) {
    || (c.Reload? && c.session == x)
    || (c.Swap? && c.session == x)
    || (c.DropOld? && c.tok.session == x)
    || (c.Burn? && c.extra == Some(x))
    || (c.Cleanup? && c.session == x)
  }

  /** Process state `c` is a refresh of family `f` that has not finished. */
  predicate Concerns(c: PC, f: nat) {
    match c
    case LoadUser(tok) => tok.family == f
    case MakeSession(tok) => tok.family == f
    case Reload(tok, _) => tok.family == f
    case Swap(tok, _, _) => tok.family == f
    case DropOld(tok, _) => tok.family == f
    case Burn(g, _) => g == f
    case Cleanup(g, _) => g == f
    case _ => false
  }

  /** A stored row differs from the row first written only by its consumption. */
  ghost predicate RowOk(s: State, t: nat) {
    && t in s.st.tokens && t in s.log.rows
    && s.st.tokens[t].id == t && Fresh(s.st.tokens[t]) == s.log.rows[t]
    && var f := s.log.rows[t].family;
    && f in s.log.head && f !in s.log.burned
    && (s.st.tokens[t].consumedAt.None? <==> s.log.head[f] == t)
  }

  /** A row ever written belongs to an issued family, and is stored exactly while that family is not revoked. */
  ghost predicate HistoryOk(s: State, t: nat) {
    && t in s.log.rows
    && s.log.rows[t].id == t && s.log.rows[t].consumedAt.None? && s.log.rows[t].replacedBy.None?
    && var f := s.log.rows[t].family;
    && f in s.log.head && (t in s.st.tokens <==> f !in s.log.burned)
    && s.log.rows[t].session in s.log.used
  }

  ghost predicate HeadOk(s: State, f: nat) {
    && f in s.log.head && s.log.head[f] in s.log.rows && s.log.rows[s.log.head[f]].family == f
    && f in s.log.rows && s.log.rows[f].family == f
  }

  /** A live session of a family is the newest token's, or some process still has it to delete. */
  ghost predicate SessionOk(s: State, x: nat) {
    x in s.log.made && x in s.st.sessions ==>
      var f := s.log.made[x];
      || (f in s.log.head && f !in s.log.burned && s.log.head[f] in s.log.rows &&
           s.log.rows[s.log.head[f]].session == x)
      || exists p :: p in s.pc && Concerns(s.pc[p], f) && Owes(s.pc[p], x)
  }

  ghost predicate Inv(s: State) {
    && (forall t :: t in s.st.tokens ==> RowOk(s, t))
    && (forall t :: t in s.log.rows ==> HistoryOk(s, t))
    && (forall f :: f in s.log.head ==> HeadOk(s, f))
    && s.log.burned <= s.log.head.Keys
    && (forall p :: p in s.pc ==> PcOk(s, p, s.pc[p]))
    && (forall x :: SessionOk(s, x))
    && (forall x :: x in s.log.made ==> x in s.log.used)
  }

  ghost predicate LogGrows(s: State, s': State) {
    && (forall t :: t in s.log.rows ==> t in s'.log.rows && s'.log.rows[t] == s.log.rows[t])
    && s.log.head.Keys <= s'.log.head.Keys
    && s.log.used <= s'.log.used && s.log.burned <= s'.log.burned
    && (forall t :: t in s.log.succ ==> t in s'.log.succ)
  }

  lemma PcGrows(s: State, s': State, p: nat, c: PC)
    requires PcOk(s, p, c) && LogGrows(s, s')
    ensures PcOk(s', p, c)
  {
  }

  ghost predicate OnlyMoves(s: State, s': State, p: nat) {
    && s'.pc.Keys == s.pc.Keys + {p}
    && forall q :: q in s.pc && q != p ==> s'.pc[q] == s.pc[q]
  }

  /** What the mover owed it still owes, or it deleted it. */
  ghost predicate DebtsKept(s: State, s': State, p: nat)
    requires p in s'.pc
  {
    p in s.pc ==>
      forall x, f :: Owes(s.pc[p], x) && Concerns(s.pc[p], f) && x in s'.st.sessions
                     ==> Owes(s'.pc[p], x) && Concerns(s'.pc[p], f)
  }

  lemma DebtsCarry(s: State, s': State, p: nat, x: nat, f: nat)
    requires OnlyMoves(s, s', p) && p in s'.pc && DebtsKept(s, s', p) && x in s'.st.sessions
    requires exists q :: q in s.pc && Concerns(s.pc[q], f) && Owes(s.pc[q], x)
    ensures exists q :: q in s'.pc && Concerns(s'.pc[q], f) && Owes(s'.pc[q], x)
  {
    var q :| q in s.pc && Concerns(s.pc[q], f) && Owes(s.pc[q], x);
    assert q in s'.pc && Concerns(s'.pc[q], f) && Owes(s'.pc[q], x);
  }

  /** Rows and history stay; the mover changes its place and at most deletes a session. */
  ghost predicate Quiet(s: State, s': State, p: nat) {
    && s'.st.tokens == s.st.tokens && s'.log == s.log && s'.st.sessions.Keys <= s.st.sessions.Keys
    && p in s'.pc && OnlyMoves(s, s', p) && DebtsKept(s, s', p)
  }

  lemma QuietKeeps(s: State, s': State, p: nat)
    requires Inv(s) && Quiet(s, s', p) && PcOk(s', p, s'.pc[p])
    ensures Inv(s') && LogGrows(s, s')
  {
    forall t | t in s'.st.tokens ensures RowOk(s', t) { assert RowOk(s, t); }
    forall t | t in s'.log.rows ensures HistoryOk(s', t) { assert HistoryOk(s, t); }
    forall f | f in s'.log.head ensures HeadOk(s', f) { assert HeadOk(s, f); }
    forall q | q in s'.pc ensures PcOk(s', q, s'.pc[q]) { if q != p { PcGrows(s, s', q, s.pc[q]); } }
    forall x ensures SessionOk(s', x) {
      assert SessionOk(s, x);
      if x in s'.log.made && x in s'.st.sessions &&
         exists q :: q in s.pc && Concerns(s.pc[q], s.log.made[x]) && Owes(s.pc[q], x) {
        DebtsCarry(s, s', p, x, s.log.made[x]);
      }
    }
  }

  /** A step keeps the invariant when what it changed is good. */
  lemma MoveKeeps(s: State, s': State, p: nat)
    requires Inv(s) && LogGrows(s, s') && OnlyMoves(s, s', p) && p in s'.pc && PcOk(s', p, s'.pc[p])
    requires forall t :: t in s'.st.tokens ==> RowOk(s', t)
    requires forall t :: t in s'.log.rows ==> HistoryOk(s', t)
    requires forall f :: f in s'.log.head ==> HeadOk(s', f)
    requires forall x :: SessionOk(s', x)
    requires s'.log.burned <= s'.log.head.Keys && forall x :: x in s'.log.made ==> x in s'.log.used
    ensures Inv(s')
  {
    forall q | q in s'.pc ensures PcOk(s', q, s'.pc[q]) { if q != p { PcGrows(s, s', q, s.pc[q]); } }
  }

  lemma BeginKeeps(cfg: Config, s: State, p: nat, t: nat, now: int)
    requires Inv(s) && p !in s.pc
    ensures Inv(Begin(cfg, s, p, t, now)) && LogGrows(s, Begin(cfg, s, p, t, now))
  {
    if t in s.st.tokens { assert RowOk(s, t); }
    BeginMoves(cfg, s, p, t, now);
    QuietKeeps(s, Begin(cfg, s, p, t, now), p);
  }

  lemma BeginMoves(cfg: Config, s: State, p: nat, t: nat, now: int)
    requires p !in s.pc && (t in s.st.tokens ==> RowOk(s, t))
    ensures var s' := Begin(cfg, s, p, t, now); Quiet(s, s', p) && PcOk(s', p, s'.pc[p])
  {
  }

  /** The second read sees the same row, so the process still works on the same family. */
  lemma ReloadQuiet(cfg: Config, s: State, p: nat, now: int)
    requires p in s.pc && s.pc[p].Reload? && PcOk(s, p, s.pc[p])
    requires s.pc[p].tok.id in s.st.tokens ==> RowOk(s, s.pc[p].tok.id)
    ensures var s' := ReloadStep(cfg, s, p, now);
            && s'.st == s.st && s'.log == s.log && p in s'.pc && OnlyMoves(s, s', p) && PcOk(s', p, s'.pc[p])
            && forall x, f :: Owes(s.pc[p], x) && Concerns(s.pc[p], f) ==> Owes(s'.pc[p], x) && Concerns(s'.pc[p], f)
  {
  }

  lemma ReloadKeeps(cfg: Config, s: State, p: nat, now: int)
    requires Inv(s) && p in s.pc && s.pc[p].Reload?
    ensures Inv(ReloadStep(cfg, s, p, now)) && LogGrows(s, ReloadStep(cfg, s, p, now))
  {
    ReloadQuiet(cfg, s, p, now);
    QuietKeeps(s, ReloadStep(cfg, s, p, now), p);
  }

  lemma IssueKeeps(cfg: Config, s: State, p: nat, t: nat, now: int)
    requires Inv(s) && p in s.pc && s.pc[p].Issuing?
    ensures Inv(IssueStep(cfg, s, p, t, now)) && LogGrows(s, IssueStep(cfg, s, p, t, now))
  {
    var s' := IssueStep(cfg, s, p, t, now);
    if t !in s.log.rows {
      assert PcOk(s, p, s.pc[p]);
      assert LogGrows(s, s');
      assert t in s.log.head ==> HeadOk(s, t);
      forall u | u in s'.st.tokens ensures RowOk(s', u) { if u != t { assert RowOk(s, u) && HistoryOk(s, u); } }
      forall u | u in s'.log.rows ensures HistoryOk(s', u) { if u != t { assert HistoryOk(s, u); } }
      forall f | f in s'.log.head ensures HeadOk(s', f) { if f != t { assert HeadOk(s, f); } }
      forall q | q in s'.pc ensures PcOk(s', q, s'.pc[q]) { if q != p { PcGrows(s, s', q, s.pc[q]); } }
      IssueSessions(cfg, s, p, t, now);
    }
  }

  lemma IssueSessions(cfg: Config, s: State, p: nat, t: nat, now: int)
    requires Inv(s) && p in s.pc && s.pc[p].Issuing? && t !in s.log.rows
    ensures forall x :: SessionOk(IssueStep(cfg, s, p, t, now), x)
  {
    var s' := IssueStep(cfg, s, p, t, now);
    assert t in s.log.head ==> HeadOk(s, t);
    forall x ensures SessionOk(s', x) {
      assert SessionOk(s, x);
      if x in s'.log.made && x in s'.st.sessions && x != s.pc[p].session &&
         exists q :: q in s.pc && Concerns(s.pc[q], s.log.made[x]) && Owes(s.pc[q], x) {
        DebtsCarry(s, s', p, x, s.log.made[x]);
      } else if x in s.log.made && s.log.made[x] in s.log.head {
        assert HeadOk(s, s.log.made[x]);
      }
    }
  }

  lemma SessionKeeps(s: State, p: nat, id: nat)
    requires Inv(s) && p in s.pc && s.pc[p].MakeSession?
    ensures Inv(SessionStep(s, p, id)) && LogGrows(s, SessionStep(s, p, id))
  {
    var s' := SessionStep(s, p, id);
    if id !in s.log.used {
      assert PcOk(s, p, s.pc[p]) && HistoryOk(s, s.pc[p].tok.id);
      forall u | u in s'.st.tokens ensures RowOk(s', u) { assert RowOk(s, u); }
      forall u | u in s'.log.rows ensures HistoryOk(s', u) { assert HistoryOk(s, u); }
      forall f | f in s'.log.head ensures HeadOk(s', f) { assert HeadOk(s, f); }
      forall q | q in s'.pc ensures PcOk(s', q, s'.pc[q]) { if q != p { PcGrows(s, s', q, s.pc[q]); } }
      SessionSessions(s, p, id);
    }
  }

  /** The new session is the mover's to delete. */
  lemma SessionSessions(s: State, p: nat, id: nat)
    requires Inv(s) && p in s.pc && s.pc[p].MakeSession? && id !in s.log.used
    ensures forall x :: SessionOk(SessionStep(s, p, id), x)
  {
    var s' := SessionStep(s, p, id);
    forall x ensures SessionOk(s', x) {
      assert SessionOk(s, x);
      if x == id {
        assert p in s'.pc && Concerns(s'.pc[p], s'.log.made[x]) && Owes(s'.pc[p], x);
      } else if x in s'.log.made && x in s'.st.sessions &&
                exists q :: q in s.pc && Concerns(s.pc[q], s.log.made[x]) && Owes(s.pc[q], x) {
        DebtsCarry(s, s', p, x, s.log.made[x]);
      }
    }
  }

  /** The exchange moves the head of its family to the new row and consumes the old one. */
  lemma SwapRows(cfg: Config, s: State, p: nat, t: nat, now: int)
    requires Inv(s) && p in s.pc && s.pc[p].Swap? && t !in s.log.rows && Exchangeable(s.st, s.pc[p].again.id)
    ensures var s' := SwapStep(cfg, s, p, t, now);
            && LogGrows(s, s')
            && (forall u :: u in s'.st.tokens ==> RowOk(s', u))
            && (forall u :: u in s'.log.rows ==> HistoryOk(s', u))
            && (forall g :: g in s'.log.head ==> HeadOk(s', g))
  {
    var s' := SwapStep(cfg, s, p, t, now);
    var c := s.pc[p];
    var f := c.again.family;
    assert PcOk(s, p, c) && RowOk(s, c.again.id) && HeadOk(s, f);
    forall u | u in s'.st.tokens ensures RowOk(s', u) { if u != t { assert RowOk(s, u) && HistoryOk(s, u); } }
    forall u | u in s'.log.rows ensures HistoryOk(s', u) { if u != t { assert HistoryOk(s, u); } }
    forall g | g in s'.log.head ensures HeadOk(s', g) { assert HeadOk(s, g); }
  }

  /** Both reads saw the same row, so the user check after the exchange never fails. */
  lemma SwapMover(cfg: Config, s: State, p: nat, t: nat, now: int)
    requires p in s.pc && s.pc[p].Swap? && PcOk(s, p, s.pc[p])
    requires t !in s.log.rows && Exchangeable(s.st, s.pc[p].again.id)
    ensures var s' := SwapStep(cfg, s, p, t, now);
            && OnlyMoves(s, s', p) && p in s'.pc && s'.pc[p] == DropOld(s.pc[p].tok, s.pc[p].session)
            && (LogGrows(s, s') ==> PcOk(s', p, s'.pc[p]))
  {
  }

  lemma SwapSession(cfg: Config, s: State, p: nat, t: nat, now: int, x: nat)
    requires Inv(s) && p in s.pc && s.pc[p].Swap? && t !in s.log.rows && Exchangeable(s.st, s.pc[p].again.id)
    requires x in s.log.made && x in s.st.sessions
    ensures SessionOk(SwapStep(cfg, s, p, t, now), x)
  {
    var s' := SwapStep(cfg, s, p, t, now);
    var c := s.pc[p];
    var f := c.again.family;
    assert SessionOk(s, x) && PcOk(s, p, c) && RowOk(s, c.again.id);
    if s.log.made[x] == f && s.log.rows[s.log.head[f]].session == x {
      assert Concerns(s'.pc[p], f) && Owes(s'.pc[p], x);
    } else if q :| q in s.pc && Concerns(s.pc[q], s.log.made[x]) && Owes(s.pc[q], x) {
      if q != p { assert Concerns(s'.pc[q], s.log.made[x]) && Owes(s'.pc[q], x); }
    } else {
      assert HeadOk(s, s.log.made[x]);
    }
  }

  lemma SwapSessions(cfg: Config, s: State, p: nat, t: nat, now: int)
    requires Inv(s) && p in s.pc && s.pc[p].Swap? && t !in s.log.rows && Exchangeable(s.st, s.pc[p].again.id)
    ensures forall x :: SessionOk(SwapStep(cfg, s, p, t, now), x)
  {
    var s' := SwapStep(cfg, s, p, t, now);
    forall x ensures SessionOk(s', x) {
      if x in s.log.made && x in s.st.sessions { SwapSession(cfg, s, p, t, now, x); }
    }
  }

  lemma SwapKeeps(cfg: Config, s: State, p: nat, t: nat, now: int)
    requires Inv(s) && p in s.pc && s.pc[p].Swap? && t !in s.log.rows && Exchangeable(s.st, s.pc[p].again.id)
    ensures Inv(SwapStep(cfg, s, p, t, now)) && LogGrows(s, SwapStep(cfg, s, p, t, now))
  {
    SwapRows(cfg, s, p, t, now);
    SwapMover(cfg, s, p, t, now);
    SwapSessions(cfg, s, p, t, now);
    MoveKeeps(s, SwapStep(cfg, s, p, t, now), p);
  }

  lemma HeadSessionGoes(s: State, f: nat)
    requires Inv(s) && f in s.log.head && f !in s.log.burned
    ensures s.log.head[f] in s.log.rows && s.log.rows[s.log.head[f]].session !in Revoke(s.st, f).sessions
  {
    var h := s.log.head[f];
    assert HeadOk(s, f) && HistoryOk(s, h) && RowOk(s, h);
    assert h in FamilyTokens(s.st, f);
    assert s.st.tokens[h].session in FamilySessions(s.st, f);
  }

  lemma BurnKeeps(s: State, f: nat)
    requires Inv(s)
    ensures Inv(BurnFamily(s, f)) && LogGrows(s, BurnFamily(s, f))
  {
    var s' := BurnFamily(s, f);
    forall u | u in s'.st.tokens ensures RowOk(s', u) { assert RowOk(s, u); }
    forall u | u in s'.log.rows ensures HistoryOk(s', u) {
      assert HistoryOk(s, u);
      if u in s.st.tokens { assert RowOk(s, u); }
    }
    forall g | g in s'.log.head ensures HeadOk(s', g) { assert HeadOk(s, g); }
    forall q | q in s'.pc ensures PcOk(s', q, s'.pc[q]) { PcGrows(s, s', q, s.pc[q]); }
    if f in s.log.head && f !in s.log.burned { HeadSessionGoes(s, f); }
    forall x ensures SessionOk(s', x) { assert SessionOk(s, x); }
  }

  lemma BurnStepKeeps(s: State, p: nat)
    requires Inv(s) && p in s.pc && s.pc[p].Burn?
    ensures Inv(BurnStep(s, p)) && LogGrows(s, BurnStep(s, p))
  {
    var mid := BurnFamily(s, s.pc[p].family);
    BurnKeeps(s, s.pc[p].family);
    assert PcOk(mid, p, mid.pc[p]);
    QuietKeeps(mid, BurnStep(s, p), p);
  }

  lemma LoserKeeps(cfg: Config, s: State, p: nat, t: nat, now: int)
    requires Inv(s) && p in s.pc && s.pc[p].Swap? && t !in s.log.rows && !Exchangeable(s.st, s.pc[p].again.id)
    ensures Inv(SwapStep(cfg, s, p, t, now)) && LogGrows(s, SwapStep(cfg, s, p, t, now))
  {
    var s' := SwapStep(cfg, s, p, t, now);
    var c := s.pc[p];
    assert PcOk(s, p, c) && HistoryOk(s, c.again.id);
    var mid := s'.(log := s.log);
    QuietKeeps(s, mid, p);
    SameButOutcome(mid, s');
  }

  lemma SameButOutcome(s: State, s': State)
    requires Inv(s) && s'.st == s.st && s'.pc == s.pc && s'.log == s.log.(outcome := s'.log.outcome)
    ensures Inv(s')
  {
    forall t | t in s'.st.tokens ensures RowOk(s', t) { assert RowOk(s, t); }
    forall t | t in s'.log.rows ensures HistoryOk(s', t) { assert HistoryOk(s, t); }
    forall f | f in s'.log.head ensures HeadOk(s', f) { assert HeadOk(s, f); }
    forall q | q in s'.pc ensures PcOk(s', q, s'.pc[q]) { PcGrows(s, s', q, s.pc[q]); }
    forall x ensures SessionOk(s', x) { assert SessionOk(s, x); }
  }

  lemma FinishKeeps(cfg: Config, s: State, p: nat, id: nat, now: int)
    requires Inv(s) && p in s.pc && (s.pc[p].LoadUser? || s.pc[p].DropOld? || s.pc[p].Cleanup? || s.pc[p].Done?)
    ensures Inv(Call(cfg, s, p, id, now)) && LogGrows(s, Call(cfg, s, p, id, now))
  {
    assert PcOk(s, p, s.pc[p]);
    QuietKeeps(s, Call(cfg, s, p, id, now), p);
  }

  lemma CallKeeps(cfg: Config, s: State, p: nat, id: nat, now: int)
    requires Inv(s) && p in s.pc
    ensures Inv(Call(cfg, s, p, id, now)) && LogGrows(s, Call(cfg, s, p, id, now))
  {
    var c := s.pc[p];
    if c.Issuing? { IssueKeeps(cfg, s, p, id, now); }
    else if c.MakeSession? { SessionKeeps(s, p, id); }
    else if c.Reload? { ReloadKeeps(cfg, s, p, now); }
    else if c.Swap? {
      if id !in s.log.rows {
        if Exchangeable(s.st, c.again.id) { SwapKeeps(cfg, s, p, id, now); } else { LoserKeeps(cfg, s, p, id, now); }
      }
    }
    else if c.Burn? { BurnStepKeeps(s, p); }
    else { FinishKeeps(cfg, s, p, id, now); }
  }

  lemma StartIssueKeeps(s: State, s': State, p: nat, x: nat, user: nat, auth: Option<int>)
    requires Inv(s) && p !in s.pc && x !in s.log.used
    requires s' == Goto(s, p, Issuing(x, user, auth)).(
                   st := AddSession(s.st, x, user), log := s.log.(used := s.log.used + {x}))
    ensures Inv(s') && LogGrows(s, s')
  {
    forall t | t in s'.st.tokens ensures RowOk(s', t) { assert RowOk(s, t); }
    forall t | t in s'.log.rows ensures HistoryOk(s', t) { assert HistoryOk(s, t); }
    forall f | f in s'.log.head ensures HeadOk(s', f) { assert HeadOk(s, f); }
    forall y ensures SessionOk(s', y) {
      assert SessionOk(s, y);
      if y in s'.log.made && y in s'.st.sessions &&
         exists q :: q in s.pc && Concerns(s.pc[q], s.log.made[y]) && Owes(s.pc[q], y) {
        DebtsCarry(s, s', p, y, s.log.made[y]);
      }
    }
    MoveKeeps(s, s', p);
  }

  lemma LoseSessionKeeps(s: State, id: nat)
    requires Inv(s)
    ensures var s' := s.(st := DropSession(s.st, id)); Inv(s') && LogGrows(s, s')
  {
    var s' := s.(st := DropSession(s.st, id));
    forall t | t in s'.st.tokens ensures RowOk(s', t) { assert RowOk(s, t); }
    forall t | t in s'.log.rows ensures HistoryOk(s', t) { assert HistoryOk(s, t); }
    forall f | f in s'.log.head ensures HeadOk(s', f) { assert HeadOk(s, f); }
    forall q | q in s'.pc ensures PcOk(s', q, s'.pc[q]) { PcGrows(s, s', q, s.pc[q]); }
    forall x ensures SessionOk(s', x) { assert SessionOk(s, x); }
  }

  lemma UserGoneKeeps(s: State, p: nat)
    requires Inv(s) && p in s.pc && s.pc[p].LoadUser?
    ensures var s' := Goto(s, p, Burn(s.pc[p].tok.family, None)); Inv(s') && LogGrows(s, s')
  {
    assert PcOk(s, p, s.pc[p]) && HistoryOk(s, s.pc[p].tok.id);
    QuietKeeps(s, Goto(s, p, Burn(s.pc[p].tok.family, None)), p);
  }

  lemma NextKeeps(cfg: Config, s: State, e: Event)
    requires Inv(s)
    ensures Inv(Next(cfg, s, e)) && LogGrows(s, Next(cfg, s, e))
  {
    match e
    case StartIssue(p, x, user, auth) =>
      if p !in s.pc && x !in s.log.used { StartIssueKeeps(s, Next(cfg, s, e), p, x, user, auth); }
    case StartRefresh(p, t, now) => if p !in s.pc { BeginKeeps(cfg, s, p, t, now); }
    case Advance(p, id, now) => if p in s.pc { CallKeeps(cfg, s, p, id, now); }
    case UserGone(p) => if p in s.pc && s.pc[p].LoadUser? { UserGoneKeeps(s, p); }
    case RevokeFamily(f) => BurnKeeps(s, f);
    case LoseSession(id) => LoseSessionKeeps(s, id);
  }

  lemma InitInv()
    ensures Inv(INIT)
  {
  }

  lemma {:induction false} InvExec(cfg: Config, s: State, es: seq<Event>)
    requires Inv(s)
    ensures Inv(Exec(cfg, s, es)) && LogGrows(s, Exec(cfg, s, es))
    decreases |es|
  {
    if es == [] {
    } else {
      NextKeeps(cfg, s, es[0]);
      InvExec(cfg, Next(cfg, s, es[0]), es[1..]);
    }
  }

  // ----- Quiescence -----

  ghost predicate InFlight(s: State, f: nat) {
    exists p :: p in s.pc && Concerns(s.pc[p], f)
  }

  /** The tokens of a family that could still be exchanged. */
  function Unconsumed(s: State, f: nat): set<nat> {
    set t | t in s.st.tokens && s.st.tokens[t].family == f && s.st.tokens[t].consumedAt.None?
  }

  /** The sessions created for a family that still exist. */
  function LiveSessions(s: State, f: nat): set<nat> {
    set x | x in s.st.sessions && x in s.log.made && s.log.made[x] == f
  }

  /**
   After any run, once no refresh of an issued family is in flight: a revoked family has no token and
   no session left; any other has exactly one unconsumed token, and no session but that token's.
   */
  lemma Quiescence(cfg: Config, es: seq<Event>, f: nat)
    requires f in Exec(cfg, INIT, es).log.head && !InFlight(Exec(cfg, INIT, es), f)
    ensures var s := Exec(cfg, INIT, es);
            if f in s.log.burned then FamilyTokens(s.st, f) == {} && LiveSessions(s, f) == {}
            else
              && s.log.head[f] in s.st.tokens
              && Unconsumed(s, f) == {s.log.head[f]}
              && LiveSessions(s, f) <= {s.st.tokens[s.log.head[f]].session}
  {
    InitInv();
    InvExec(cfg, INIT, es);
    var s := Exec(cfg, INIT, es);
    assert HeadOk(s, f) && HistoryOk(s, s.log.head[f]);
    assert forall t :: t in s.st.tokens ==> RowOk(s, t);
    forall x | x in LiveSessions(s, f)
      ensures f !in s.log.burned && s.log.rows[s.log.head[f]].session == x
    {
      assert SessionOk(s, x);
    }
  }

  /** The same, at any moment: at most one token of a family is ever exchangeable, and none once it is revoked. */
  lemma AtMostOneUnconsumed(cfg: Config, es: seq<Event>, f: nat)
    ensures |Unconsumed(Exec(cfg, INIT, es), f)| <= 1
    ensures f in Exec(cfg, INIT, es).log.burned ==> Unconsumed(Exec(cfg, INIT, es), f) == {}
  {
    InitInv();
    InvExec(cfg, INIT, es);
    var s := Exec(cfg, INIT, es);
    assert forall t :: t in s.st.tokens ==> RowOk(s, t);
    if f in s.log.head {
      assert Unconsumed(s, f) <= {s.log.head[f]};
      SubsetOfOne(Unconsumed(s, f), s.log.head[f]);
    } else {
      assert Unconsumed(s, f) == {};
    }
  }

  lemma SubsetOfOne(a: set<nat>, x: nat)
    requires a <= {x}
    ensures |a| <= 1
  {
    if x in a { assert a == {x}; } else { assert a == {}; }
  }

  // ----- Single exchange -----

  /** Who lost an exchange has revoked the family, or is about to. */
  ghost predicate ExchangeOk(s: State, p: nat) {
    p in s.log.outcome ==>
      var o := s.log.outcome[p];
      && p in s.pc && (s.pc[p].DropOld? || s.pc[p].Burn? || s.pc[p].Cleanup? || s.pc[p].Done?)
      && o.t in s.log.rows
      && (o.won ==> o.t in s.log.winner && s.log.winner[o.t] == p)
      && (!o.won ==> s.log.rows[o.t].family in s.log.burned
                     || (s.pc[p].Burn? && s.pc[p].family == s.log.rows[o.t].family))
  }

  /** A token with a recorded winner is no longer exchangeable, and its successor is recorded with it. */
  ghost predicate WinnerOk(s: State, t: nat) {
    && t in s.log.succ && t in s.log.rows && s.log.succ[t] in s.log.rows
    && s.log.rows[s.log.succ[t]].family == s.log.rows[t].family
    && !Exchangeable(s.st, t)
  }

  ghost predicate ExchangesInv(s: State) {
    && (forall p :: ExchangeOk(s, p))
    && s.log.winner.Keys == s.log.succ.Keys
    && (forall t :: t in s.log.winner ==> WinnerOk(s, t))
  }

  /** A step that records no exchange keeps the records as long as no exchanged token becomes exchangeable. */
  lemma RecordsStay(s: State, s': State, p: nat)
    requires ExchangesInv(s) && LogGrows(s, s') && OnlyMoves(s, s', p)
    requires s'.log.outcome == s.log.outcome && s'.log.winner == s.log.winner && s'.log.succ == s.log.succ
    requires forall t :: t in s.log.winner ==> !Exchangeable(s'.st, t)
    requires ExchangeOk(s', p)
    ensures ExchangesInv(s')
  {
    forall q ensures ExchangeOk(s', q) { assert ExchangeOk(s, q); }
    forall t | t in s'.log.winner ensures WinnerOk(s', t) { assert WinnerOk(s, t); }
  }

  ghost predicate SameSucc(s: State, s': State) {
    forall t :: t in s.log.succ ==> t in s'.log.succ && s'.log.succ[t] == s.log.succ[t]
  }

  lemma WinnerStays(cfg: Config, s: State, p: nat, t: nat, now: int, u: nat)
    requires p in s.pc && s.pc[p].Swap? && t !in s.log.rows && Exchangeable(s.st, s.pc[p].again.id)
    requires u in s.log.winner && WinnerOk(s, u) && u != s.pc[p].again.id
    ensures WinnerOk(SwapStep(cfg, s, p, t, now), u)
  {
  }

  lemma WinnerNew(cfg: Config, s: State, p: nat, t: nat, now: int)
    requires p in s.pc && s.pc[p].Swap? && t !in s.log.rows && PcOk(s, p, s.pc[p])
    requires RowOk(s, s.pc[p].again.id) && Exchangeable(s.st, s.pc[p].again.id)
    ensures WinnerOk(SwapStep(cfg, s, p, t, now), s.pc[p].again.id)
  {
  }

  /** The winner is recorded once: before it, nobody had exchanged this token. */
  lemma WinExchanges(cfg: Config, s: State, p: nat, t: nat, now: int)
    requires Inv(s) && ExchangesInv(s) && p in s.pc && s.pc[p].Swap? && t !in s.log.rows
    requires Exchangeable(s.st, s.pc[p].again.id)
    ensures ExchangesInv(SwapStep(cfg, s, p, t, now)) && SameSucc(s, SwapStep(cfg, s, p, t, now))
  {
    var s' := SwapStep(cfg, s, p, t, now);
    var cur := s.pc[p].again.id;
    assert cur in s.log.winner ==> WinnerOk(s, cur);
    forall q ensures ExchangeOk(s', q) { WinnerOutcome(cfg, s, p, t, now, q); }
    WinnersStay(cfg, s, p, t, now);
  }

  lemma WinnersStay(cfg: Config, s: State, p: nat, t: nat, now: int)
    requires Inv(s) && ExchangesInv(s) && p in s.pc && s.pc[p].Swap? && t !in s.log.rows
    requires Exchangeable(s.st, s.pc[p].again.id)
    ensures var s' := SwapStep(cfg, s, p, t, now);
            && s'.log.winner.Keys == s'.log.succ.Keys
            && forall u :: u in s'.log.winner ==> WinnerOk(s', u)
  {
    var s' := SwapStep(cfg, s, p, t, now);
    var cur := s.pc[p].again.id;
    forall u | u in s'.log.winner ensures WinnerOk(s', u) {
      if u == cur { WinnerNew(cfg, s, p, t, now); } else { WinnerStays(cfg, s, p, t, now, u); }
    }
  }

  lemma WinnerOutcome(cfg: Config, s: State, p: nat, t: nat, now: int, q: nat)
    requires ExchangesInv(s) && p in s.pc && s.pc[p].Swap? && PcOk(s, p, s.pc[p]) && t !in s.log.rows
    requires Exchangeable(s.st, s.pc[p].again.id) && s.pc[p].again.id !in s.log.winner
    ensures ExchangeOk(SwapStep(cfg, s, p, t, now), q)
  {
    assert ExchangeOk(s, q);
    SwapMover(cfg, s, p, t, now);
  }

  lemma LoseExchanges(cfg: Config, s: State, p: nat, t: nat, now: int)
    requires Inv(s) && ExchangesInv(s) && p in s.pc && s.pc[p].Swap? && t !in s.log.rows
    requires !Exchangeable(s.st, s.pc[p].again.id)
    ensures ExchangesInv(SwapStep(cfg, s, p, t, now)) && SameSucc(s, SwapStep(cfg, s, p, t, now))
  {
    var s' := SwapStep(cfg, s, p, t, now);
    assert PcOk(s, p, s.pc[p]) && HistoryOk(s, s.pc[p].again.id);
    forall q ensures ExchangeOk(s', q) { assert ExchangeOk(s, q); }
    forall u | u in s'.log.winner ensures WinnerOk(s', u) { assert WinnerOk(s, u); }
  }

  lemma BurnExchanges(s: State, f: nat, p: nat, s': State)
    requires Inv(s) && ExchangesInv(s) && LogGrows(s, s') && OnlyMoves(s, s', p)
    requires s'.st == Revoke(s.st, f) && s'.log == BurnFamily(s, f).log
    requires p in s.pc && p in s'.pc &&
             (s'.pc[p] == s.pc[p] || (s.pc[p].Burn? && s.pc[p].family == f && (s'.pc[p].Cleanup? || s'.pc[p].Done?)))
    ensures ExchangesInv(s') && SameSucc(s, s')
  {
    assert ExchangeOk(s, p) && PcOk(s, p, s.pc[p]);
    forall t | t in s.log.winner ensures !Exchangeable(s'.st, t) { assert WinnerOk(s, t); }
    RecordsStay(s, s', p);
  }

  lemma IssueExchanges(cfg: Config, s: State, p: nat, t: nat, now: int)
    requires Inv(s) && ExchangesInv(s) && p in s.pc && s.pc[p].Issuing?
    ensures ExchangesInv(IssueStep(cfg, s, p, t, now)) && SameSucc(s, IssueStep(cfg, s, p, t, now))
  {
    var s' := IssueStep(cfg, s, p, t, now);
    IssueKeeps(cfg, s, p, t, now);
    IssueSpares(cfg, s, p, t, now);
    if s' != s { RecordsStay(s, s', p); }
  }

  /** A first row is nobody's successor and touches no exchanged token. */
  lemma IssueSpares(cfg: Config, s: State, p: nat, t: nat, now: int)
    requires ExchangesInv(s) && p in s.pc && s.pc[p].Issuing?
    ensures var s' := IssueStep(cfg, s, p, t, now);
            && (forall u :: u in s.log.winner ==> !Exchangeable(s'.st, u)) && ExchangeOk(s', p)
  {
    assert ExchangeOk(s, p);
    forall u | u in s.log.winner ensures !Exchangeable(IssueStep(cfg, s, p, t, now).st, u) { assert WinnerOk(s, u); }
  }

  lemma CallExchanges(cfg: Config, s: State, p: nat, id: nat, now: int)
    requires Inv(s) && ExchangesInv(s) && p in s.pc
    ensures ExchangesInv(Call(cfg, s, p, id, now)) && SameSucc(s, Call(cfg, s, p, id, now))
  {
    var c := s.pc[p];
    var s' := Call(cfg, s, p, id, now);
    if c.Swap? { 
      if id !in s.log.rows {
        if Exchangeable(s.st, c.again.id) { WinExchanges(cfg, s, p, id, now); }
        else { LoseExchanges(cfg, s, p, id, now); }
      }
     }
    else if c.Issuing? { IssueExchanges(cfg, s, p, id, now); }
    else {
      CallKeeps(cfg, s, p, id, now);
      if c.Burn? { BurnExchanges(s, c.family, p, s'); }
      else { PlainExchanges(cfg, s, p, id, now); }
    }
  }

  lemma PlainExchanges(cfg: Config, s: State, p: nat, id: nat, now: int)
    requires Inv(s) && ExchangesInv(s) && p in s.pc && LogGrows(s, Call(cfg, s, p, id, now))
    requires !s.pc[p].Swap? && !s.pc[p].Issuing? && !s.pc[p].Burn?
    ensures ExchangesInv(Call(cfg, s, p, id, now)) && SameSucc(s, Call(cfg, s, p, id, now))
  {
    var s' := Call(cfg, s, p, id, now);
    PlainMoves(cfg, s, p, id, now);
    assert ExchangeOk(s, p);
    forall t | t in s.log.winner ensures !Exchangeable(s'.st, t) { assert WinnerOk(s, t); }
    RecordsStay(s, s', p);
  }

  lemma PlainMoves(cfg: Config, s: State, p: nat, id: nat, now: int)
    requires p in s.pc && !s.pc[p].Swap? && !s.pc[p].Issuing? && !s.pc[p].Burn?
    ensures var s' := Call(cfg, s, p, id, now);
            && s'.st.tokens == s.st.tokens && OnlyMoves(s, s', p) && p in s'.pc
            && s'.log.outcome == s.log.outcome && s'.log.winner == s.log.winner && s'.log.succ == s.log.succ
            && s'.log.burned == s.log.burned
            && (s.pc[p].DropOld? || s.pc[p].Cleanup? || s.pc[p].Done? ==> s'.pc[p].Done?)
  {
    if s.pc[p].Reload? { }
  }

  lemma NextExchanges(cfg: Config, s: State, e: Event)
    requires Inv(s) && ExchangesInv(s)
    ensures ExchangesInv(Next(cfg, s, e)) && SameSucc(s, Next(cfg, s, e))
  {
    NextKeeps(cfg, s, e);
    if e.Advance? { if e.p in s.pc { CallExchanges(cfg, s, e.p, e.id, e.now); } }
    else { OtherExchanges(cfg, s, e); }
  }

  lemma EnvExchanges(cfg: Config, s: State, e: Event)
    requires ExchangesInv(s) && (e.RevokeFamily? || e.LoseSession?)
    ensures ExchangesInv(Next(cfg, s, e)) && SameSucc(s, Next(cfg, s, e))
  {
    var s' := Next(cfg, s, e);
    forall q ensures ExchangeOk(s', q) { assert ExchangeOk(s, q); }
    forall t | t in s'.log.winner ensures WinnerOk(s', t) { assert WinnerOk(s, t); }
  }

  lemma StartMoves(cfg: Config, s: State, e: Event)
    requires e.StartIssue? || e.StartRefresh? || e.UserGone?
    requires Next(cfg, s, e) != s
    ensures var s' := Next(cfg, s, e);
            && s'.st.tokens == s.st.tokens && OnlyMoves(s, s', e.p)
            && s'.log == s.log.(used := s'.log.used)
            && (e.p !in s.pc || s.pc[e.p].LoadUser?)
  {
  }

  lemma OtherExchanges(cfg: Config, s: State, e: Event)
    requires Inv(s) && ExchangesInv(s) && !e.Advance? && LogGrows(s, Next(cfg, s, e))
    ensures ExchangesInv(Next(cfg, s, e)) && SameSucc(s, Next(cfg, s, e))
  {
    var s' := Next(cfg, s, e);
    if e.RevokeFamily? || e.LoseSession? { EnvExchanges(cfg, s, e); }
    else if s' != s {
      StartMoves(cfg, s, e);
      forall t | t in s.log.winner ensures !Exchangeable(s'.st, t) { assert WinnerOk(s, t); }
      assert ExchangeOk(s, e.p);
      RecordsStay(s, s', e.p);
    }
  }

  lemma {:induction false} ExchangesExec(cfg: Config, s: State, es: seq<Event>)
    requires Inv(s) && ExchangesInv(s)
    ensures var t := Exec(cfg, s, es); Inv(t) && ExchangesInv(t) && SameSucc(s, t)
    decreases |es|
  {
    if es == [] {
    } else {
      NextKeeps(cfg, s, es[0]);
      NextExchanges(cfg, s, es[0]);
      ExchangesExec(cfg, Next(cfg, s, es[0]), es[1..]);
    }
  }

  lemma InitExchanges()
    ensures ExchangesInv(INIT)
  {
  }

  /**
   Single exchange, for every run: a token's successor, once written, stays its only successor for
   the rest of the run and belongs to the same family.
   */
  lemma SingleSuccessor(cfg: Config, before: seq<Event>, after: seq<Event>, t: nat)
    requires t in Exec(cfg, INIT, before).log.succ
    ensures var s, s' := Exec(cfg, INIT, before), Exec(cfg, Exec(cfg, INIT, before), after);
            && t in s'.log.succ && s'.log.succ[t] == s.log.succ[t]
            && !Exchangeable(s'.st, t)
            && t in s.log.rows && s.log.succ[t] in s.log.rows
            && s.log.rows[s.log.succ[t]].family == s.log.rows[t].family
  {
    InitInv();
    InitExchanges();
    ExchangesExec(cfg, INIT, before);
    var s := Exec(cfg, INIT, before);
    ExchangesExec(cfg, s, after);
    assert WinnerOk(s, t) && WinnerOk(Exec(cfg, s, after), t);
  }

  /**
   Two calls that both get past the second `get_valid` on one token and both finish have revoked the
   family between them: it holds no token any more.
   */
  lemma DoubleExchangeBurns(cfg: Config, es: seq<Event>, p: nat, q: nat)
    requires p != q
    requires var s := Exec(cfg, INIT, es);
             && p in s.log.outcome && q in s.log.outcome && s.log.outcome[p].t == s.log.outcome[q].t
             && p in s.pc && s.pc[p].Done? && q in s.pc && s.pc[q].Done?
    ensures var s := Exec(cfg, INIT, es);
            && s.log.outcome[p].t in s.log.rows
            && var f := s.log.rows[s.log.outcome[p].t].family;
            && f in s.log.burned && FamilyTokens(s.st, f) == {}
  {
    InitInv();
    InitExchanges();
    ExchangesExec(cfg, INIT, es);
    var s := Exec(cfg, INIT, es);
    assert ExchangeOk(s, p) && ExchangeOk(s, q);
    assert forall t :: t in s.st.tokens ==> RowOk(s, t);
  }

  // ----- Reuse -----

  /** Event `e` of process `p` is a read of a token whose row is there and consumed, in family `f`. */
  ghost predicate FindsReuse(s: State, e: Event, p: nat, f: nat) {
    || (e.StartRefresh? && e.p == p && p !in s.pc && ConsumedIn(s, e.t, f))
    || (e.Advance? && e.p == p && p in s.pc && s.pc[p].Reload? && ConsumedIn(s, s.pc[p].tok.id, f))
  }

  predicate ConsumedIn(s: State, t: nat, f: nat) {
    t in s.st.tokens && s.st.tokens[t].consumedAt.Some? && s.st.tokens[t].family == f
  }

  /** The process is about to burn the family, or the family is burned. */
  ghost predicate Burning(s: State, p: nat, f: nat) {
    && p in s.pc && f in s.log.head
    && ((s.pc[p].Burn? && s.pc[p].family == f) || (f in s.log.burned && (s.pc[p].Cleanup? || s.pc[p].Done?)))
  }

  lemma ReuseBurning(cfg: Config, s: State, e: Event, p: nat, f: nat)
    requires Inv(s) && FindsReuse(s, e, p, f)
    ensures Burning(Next(cfg, s, e), p, f)
  {
    var t := if e.StartRefresh? then e.t else s.pc[p].tok.id;
    assert RowOk(s, t);
  }

  lemma BurningCall(cfg: Config, s: State, p: nat, id: nat, now: int, f: nat)
    requires Burning(s, p, f)
    ensures Burning(Call(cfg, s, p, id, now), p, f)
  {
  }

  lemma BurningNext(cfg: Config, s: State, e: Event, p: nat, f: nat)
    requires Burning(s, p, f) && LogGrows(s, Next(cfg, s, e))
    ensures Burning(Next(cfg, s, e), p, f)
  {
    if e.Advance? && e.p == p {
      BurningCall(cfg, s, p, e.id, e.now, f);
    } else {
      OthersNext(cfg, s, e, p);
    }
  }

  lemma OthersNext(cfg: Config, s: State, e: Event, p: nat)
    requires p in s.pc && !s.pc[p].LoadUser? && !(e.Advance? && e.p == p)
    ensures var s' := Next(cfg, s, e); p in s'.pc && s'.pc[p] == s.pc[p]
  {
    if e.Advance? && e.p in s.pc { OthersCall(cfg, s, e.p, e.id, e.now, p); }
  }

  lemma OthersCall(cfg: Config, s: State, q: nat, id: nat, now: int, p: nat)
    requires q in s.pc && p in s.pc && p != q
    ensures var s' := Call(cfg, s, q, id, now); p in s'.pc && s'.pc[p] == s.pc[p]
  {
  }

  lemma {:induction false} BurningExec(cfg: Config, s: State, es: seq<Event>, p: nat, f: nat)
    requires Inv(s) && Burning(s, p, f)
    ensures Burning(Exec(cfg, s, es), p, f)
    decreases |es|
  {
    if es == [] {
    } else {
      NextKeeps(cfg, s, es[0]);
      BurningNext(cfg, s, es[0], p, f);
      BurningExec(cfg, Next(cfg, s, es[0]), es[1..], p, f);
    }
  }

  /**
   Reuse detection, for every run: when the first or the second read of a refresh finds its token consumed, then
   once that refresh has finished the token's family is burned and holds no token, whatever others did meanwhile.
   */
  lemma ReuseBurnsFamily(cfg: Config, before: seq<Event>, e: Event, after: seq<Event>, p: nat, f: nat)
    requires FindsReuse(Exec(cfg, INIT, before), e, p, f)
    ensures var s := Exec(cfg, Next(cfg, Exec(cfg, INIT, before), e), after);
            && p in s.pc
            && (s.pc[p].Done? ==> f in s.log.burned && FamilyTokens(s.st, f) == {})
  {
    InitInv();
    InvExec(cfg, INIT, before);
    var s0 := Exec(cfg, INIT, before);
    NextKeeps(cfg, s0, e);
    ReuseBurning(cfg, s0, e, p, f);
    BurningExec(cfg, Next(cfg, s0, e), after, p, f);
    InvExec(cfg, Next(cfg, s0, e), after);
    var s := Exec(cfg, Next(cfg, s0, e), after);
    assert forall t :: t in s.st.tokens ==> RowOk(s, t);
  }
}
