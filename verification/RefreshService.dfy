/** One refresh from its first read to its answer, with nobody else running. */
module RefreshService {
  import opened Prelude
  import opened RefreshStore
  import opened RefreshFlow

  datatype Failure = TokenInvalid | TokenExpired | TokenReuse

  /** What the store looks like once `get_valid` has also revoked where it must. */
  function AfterValidate(st: Store, v: Verdict): Store {
    match v
    case Reused(f) => Revoke(st, f)
    case PastDeadline(f) => Revoke(st, f)
    case _ => st
  }

  function FailureOf(v: Verdict): Failure {
    match v
    case Reused(_) => TokenReuse
    case Expired => TokenExpired
    case PastDeadline(_) => TokenExpired
    case _ => TokenInvalid
  }

  datatype Answer = Refreshed(row: Token) | Refused(why: Failure)

  /** The fresh ids one call uses and the three clock readings it makes. */
  datatype Call = Call(session: nat, token: nat, first: int, second: int, exchange: int)

  /** The answer of one undisturbed refresh. */
  function RefreshAnswer(cfg: Config, st: Store, t: nat, userExists: bool, c: Call): Answer {
    match Validate(cfg, st, t, c.first)
    case Valid(tok) =>
      if !userExists then Refused(TokenInvalid)
      else if Validate(cfg, st, t, c.second).Valid? then Refreshed(NextRow(cfg, c.token, tok, c.session, c.exchange))
      else Refused(FailureOf(Validate(cfg, st, t, c.second)))
    case v => Refused(FailureOf(v))
  }

  /** The store after one undisturbed refresh. */
  function RefreshedStore(cfg: Config, st: Store, t: nat, userExists: bool, c: Call): Store {
    match Validate(cfg, st, t, c.first)
    case Valid(tok) =>
      if !userExists then Revoke(st, tok.family)
      else if Validate(cfg, st, t, c.second).Valid? then
        DropSession(Exchange(AddSession(st, c.session, tok.user), t,
                             NextRow(cfg, c.token, tok, c.session, c.exchange), c.exchange), tok.session)
      else AfterValidate(st, Validate(cfg, st, t, c.second))
    case v => AfterValidate(st, v)
  }

  class RefreshTokenService {
    const adapter: InMemoryAdapter
    const cfg: Config

    constructor (adapter: InMemoryAdapter, cfg: Config)
      ensures this.adapter == adapter && this.cfg == cfg
    {
      this.adapter, this.cfg := adapter, cfg;
    }

    method RevokeFamily(f: nat) returns (r: RevokedFamily)
      modifies adapter
      ensures adapter.View() == Revoke(old(adapter.View()), f)
      ensures r.sessionIds == FamilySessions(old(adapter.View()), f)
    {
      r := adapter.DeleteRefreshTokenFamily(f);
    }

    method GetValid(t: nat, now: int) returns (v: Verdict)
      modifies adapter
      ensures v == Validate(cfg, old(adapter.View()), t, now)
      ensures adapter.View() == AfterValidate(old(adapter.View()), v)
    {
      var existing := adapter.GetRefreshToken(t);
      if existing.None? { return Unknown; }
      var tok := existing.value;
      if tok.consumedAt.Some? {
        var _ := RevokeFamily(tok.family);
        return Reused(tok.family);
      }
      if tok.expiresAt <= now { return Expired; }
      if cfg.absoluteMaxAge.Some? {
        if now >= tok.familyCreatedAt + cfg.absoluteMaxAge.value {
          var _ := RevokeFamily(tok.family);
          return PastDeadline(tok.family);
        }
      }
      return Valid(tok);
    }

    method Issue(user: nat, session: nat, authenticatedAt: Option<int>, t: nat, now: int) returns (row: Token)
      modifies adapter
      ensures row == FirstRow(cfg, t, Issuing(session, user, authenticatedAt), now)
      ensures adapter.View() == AddToken(old(adapter.View()), row)
    {
      row := FirstRow(cfg, t, Issuing(session, user, authenticatedAt), now);
      adapter.CreateRefreshToken(row);
    }

    /** The exchange of a row that was read earlier; whoever finds it gone or consumed burns the family. */
    method ExchangeRow(existing: Token, session: nat, id: nat, now: int) returns (r: Answer)
      modifies adapter
      ensures var before := old(adapter.View());
              if Exchangeable(before, existing.id) then
                && r == Refreshed(NextRow(cfg, id, existing, session, now))
                && adapter.View() == Exchange(before, existing.id, NextRow(cfg, id, existing, session, now), now)
              else r == Refused(TokenReuse) && adapter.View() == Revoke(before, existing.family)
    {
      var rotated := adapter.RotateRefreshToken(existing.id, NextRow(cfg, id, existing, session, now), now);
      if rotated.None? {
        var _ := RevokeFamily(existing.family);
        return Refused(TokenReuse);
      }
      return Refreshed(rotated.value);
    }

    method Rotate(t: nat, session: nat, id: nat, checkedAt: int, now: int) returns (r: Answer)
      requires forall k :: k in adapter.tokens ==> adapter.tokens[k].id == k
      modifies adapter
      ensures var before := old(adapter.View());
              match Validate(cfg, before, t, checkedAt)
              case Valid(tok) =>
                && r == Refreshed(NextRow(cfg, id, tok, session, now))
                && adapter.View() == Exchange(before, t, NextRow(cfg, id, tok, session, now), now)
              case v => r == Refused(FailureOf(v)) && adapter.View() == AfterValidate(before, v)
    {
      var v := GetValid(t, checkedAt);
      if !v.Valid? { return Refused(FailureOf(v)); }
      r := ExchangeRow(v.tok, session, id, now);
    }

    /** What follows a won exchange: the row must be the user's, and the replaced session goes. */
    method Finish(existing: Token, row: Token, session: nat) returns (r: Answer)
      modifies adapter
      ensures if row.user != existing.user
              then r == Refused(TokenInvalid) && adapter.View() == DropSession(old(adapter.View()), session)
              else
                && r == Refreshed(row)
                && adapter.View() == if existing.session != session
                                     then DropSession(old(adapter.View()), existing.session)
                                     else old(adapter.View())
    {
      if row.user != existing.user {
        adapter.DeleteSession(session);
        return Refused(TokenInvalid);
      }
      if existing.session != session {
        adapter.DeleteSession(existing.session);
      }
      return Refreshed(row);
    }

    /** The flow: whatever the way out, a refused refresh leaves no session behind. */
    method RefreshSession(t: nat, userExists: bool, c: Call) returns (r: Answer)
      requires forall k :: k in adapter.tokens ==> adapter.tokens[k].id == k && adapter.tokens[k].session != c.session
      requires c.token !in adapter.tokens && c.session !in adapter.sessions
      modifies adapter
      ensures r == RefreshAnswer(cfg, old(adapter.View()), t, userExists, c)
      ensures adapter.View() == RefreshedStore(cfg, old(adapter.View()), t, userExists, c)
      ensures r.Refused? ==> adapter.View().sessions.Keys <= old(adapter.View().sessions.Keys)
    {
      var v := GetValid(t, c.first);
      if !v.Valid? { return Refused(FailureOf(v)); }
      var existing := v.tok;
      if !userExists {
        var _ := RevokeFamily(existing.family);
        return Refused(TokenInvalid);
      }
      ghost var before := adapter.View();
      adapter.CreateSession(c.session, existing.user);
      var rotated := Rotate(t, c.session, c.token, c.second, c.exchange);
      if rotated.Refused? {
        adapter.DeleteSession(c.session);
        CleanUpUndoes(before, c.session, existing.user, Validate(cfg, before, t, c.second));
        return rotated;
      }
      r := Finish(existing, rotated.row, c.session);
    }
  }

  /** Deleting the replacement session restores the sessions as the revocation alone would leave them. */
  lemma CleanUpUndoes(st: Store, session: nat, user: nat, v: Verdict)
    requires session !in st.sessions
    ensures DropSession(AfterValidate(AddSession(st, session, user), v), session) == AfterValidate(st, v)
  {
    var st1 := AddSession(st, session, user);
    forall f ensures FamilyTokens(st1, f) == FamilyTokens(st, f) && FamilySessions(st1, f) == FamilySessions(st, f) {
      assert FamilyTokens(st1, f) == FamilyTokens(st, f);
    }
    assert DropSession(st1, session).sessions == st.sessions;
    match v
    case Reused(f) => assert DropSession(Revoke(st1, f), session).sessions == Revoke(st, f).sessions;
    case PastDeadline(f) => assert DropSession(Revoke(st1, f), session).sessions == Revoke(st, f).sessions;
    case _ =>
  }

  // ----- The protocol's steps are this method's statements -----

  /** One process runs a whole refresh with nobody in between; finished processes ignore further steps. */
  function Script(p: nat, t: nat, userExists: bool, c: Call): seq<Event> {
    [StartRefresh(p, t, c.first), if userExists then Advance(p, 0, 0) else UserGone(p), Advance(p, c.session, 0),
     Advance(p, 0, c.second), Advance(p, c.token, c.exchange), Advance(p, 0, 0)]
  }

  lemma ExecSix(cfg: Config, s: State, es: seq<Event>)
    requires |es| == 6
    ensures Exec(cfg, s, es)
         == Next(cfg, Next(cfg, Next(cfg, Next(cfg, Next(cfg, Next(cfg, s, es[0]), es[1]), es[2]), es[3]), es[4]),
           es[5])
  {
    var s1 := Next(cfg, s, es[0]);
    var s2 := Next(cfg, s1, es[1]);
    var s3 := Next(cfg, s2, es[2]);
    var s4 := Next(cfg, s3, es[3]);
    var s5 := Next(cfg, s4, es[4]);
    assert es[1..][1..] == es[2..] && es[2..][1..] == es[3..] && es[3..][1..] == es[4..];
    assert es[4..][1..] == es[5..] && es[5..][1..] == [];
    assert Exec(cfg, s5, es[5..]) == Next(cfg, s5, es[5]);
    assert Exec(cfg, s4, es[4..]) == Exec(cfg, s5, es[5..]);
    assert Exec(cfg, s3, es[3..]) == Exec(cfg, s4, es[4..]);
    assert Exec(cfg, s2, es[2..]) == Exec(cfg, s3, es[3..]);
    assert Exec(cfg, s1, es[1..]) == Exec(cfg, s2, es[2..]);
  }

  /** Alone, the stepwise protocol does to the store exactly what the method does, and answers the same. */
  lemma LoneRefresh(cfg: Config, s: State, p: nat, t: nat, userExists: bool, c: Call)
    requires p !in s.pc && c.session !in s.log.used && c.session !in s.st.sessions && c.token !in s.log.rows
    requires t in s.st.tokens ==> s.st.tokens[t].id == t && s.st.tokens[t].session != c.session
    ensures var s' := Exec(cfg, s, Script(p, t, userExists, c));
            && s'.st == RefreshedStore(cfg, s.st, t, userExists, c)
            && p in s'.pc && s'.pc[p] == Done(RefreshAnswer(cfg, s.st, t, userExists, c).Refreshed?)
  {
    var es := Script(p, t, userExists, c);
    ExecSix(cfg, s, es);
    var v := Validate(cfg, s.st, t, c.first);
    var s1 := Begin(cfg, s, p, t, c.first);
    if v.Valid? && userExists {
      var s3 := SessionStep(Goto(s1, p, MakeSession(v.tok)), p, c.session);
      assert Next(cfg, Next(cfg, s1, es[1]), es[2]) == s3;
      LoneRest(cfg, s, s3, p, t, c);
    } else {
      LoneRefusal(cfg, s, p, t, userExists, c);
    }
  }

  /** A refresh refused at once, or whose user is gone, burns the family if it has to and is done. */
  lemma LoneRefusal(cfg: Config, s: State, p: nat, t: nat, userExists: bool, c: Call)
    requires p !in s.pc && (!Validate(cfg, s.st, t, c.first).Valid? || !userExists)
    ensures var es := Script(p, t, userExists, c);
            var s' := Next(cfg, Next(cfg, Next(cfg, s, es[0]), es[1]), es[2]);
            && s'.st == RefreshedStore(cfg, s.st, t, userExists, c)
            && p in s'.pc && s'.pc[p] == Done(false) && !RefreshAnswer(cfg, s.st, t, userExists, c).Refreshed?
            && Next(cfg, Next(cfg, Next(cfg, s', es[3]), es[4]), es[5]) == s'
  {
    var s1 := Begin(cfg, s, p, t, c.first);
    assert Next(cfg, s, StartRefresh(p, t, c.first)) == s1;
  }

  lemma LoneRest(cfg: Config, s: State, s3: State, p: nat, t: nat, c: Call)
    requires c.session !in s.st.sessions && c.token !in s3.log.rows
    requires Validate(cfg, s.st, t, c.first).Valid?
    requires var tok := Validate(cfg, s.st, t, c.first).tok;
             && tok.id == t && tok.session != c.session
             && s3.st == AddSession(s.st, c.session, tok.user)
             && p in s3.pc && s3.pc[p] == Reload(tok, c.session)
    ensures var s4 := Next(cfg, s3, Advance(p, 0, c.second));
            var s' := Next(cfg, Next(cfg, s4, Advance(p, c.token, c.exchange)), Advance(p, 0, 0));
            && s'.st == RefreshedStore(cfg, s.st, t, true, c)
            && p in s'.pc && s'.pc[p] == Done(RefreshAnswer(cfg, s.st, t, true, c).Refreshed?)
  {
    var tok := Validate(cfg, s.st, t, c.first).tok;
    var s4 := ReloadStep(cfg, s3, p, c.second);
    assert Validate(cfg, s3.st, t, c.second) == Validate(cfg, s.st, t, c.second);
    if Validate(cfg, s.st, t, c.second).Valid? {
      var s5 := SwapStep(cfg, s4, p, c.token, c.exchange);
      assert s5.pc[p] == DropOld(tok, c.session);
    } else {
      CleanUpUndoes(s.st, c.session, tok.user, Validate(cfg, s.st, t, c.second));
    }
  }
}
