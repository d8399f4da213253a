/** How long a refresh token is accepted, what becomes of it, and what a refresh answers, by the clock and the rows. */
module RefreshValidity {
  import opened Prelude
  import opened RefreshStore
  import opened RefreshFlow
  import opened RefreshQuiescence
  import opened RefreshService

  // ----- Rows say what happened to their tokens -----

  /** A stored row is consumed exactly if its token was exchanged, and then names the successor. */
  ghost predicate Told(s: State) {
    forall t :: t in s.st.tokens ==>
      if t in s.log.succ then s.st.tokens[t].consumedAt.Some? && s.st.tokens[t].replacedBy == Some(s.log.succ[t])
      else s.st.tokens[t].consumedAt.None? && s.st.tokens[t].replacedBy.None?
  }

  lemma FreshNotExchanged(s: State, t: nat)
    requires Inv(s) && ExchangesInv(s) && t !in s.log.rows
    ensures t !in s.log.succ && t !in s.st.tokens
  {
    assert t in s.log.winner ==> WinnerOk(s, t);
    assert t in s.st.tokens ==> RowOk(s, t);
  }

  lemma SwapTold(cfg: Config, s: State, p: nat, t: nat, now: int)
    requires Inv(s) && ExchangesInv(s) && Told(s) && p in s.pc && s.pc[p].Swap?
    ensures Told(SwapStep(cfg, s, p, t, now))
  {
    assert PcOk(s, p, s.pc[p]);
    if t !in s.log.rows {
      FreshNotExchanged(s, t);
      if Exchangeable(s.st, s.pc[p].again.id) { assert s.pc[p].again.id !in s.log.succ; }
    }
  }

  lemma IssueTold(cfg: Config, s: State, p: nat, t: nat, now: int)
    requires Inv(s) && ExchangesInv(s) && Told(s) && p in s.pc && s.pc[p].Issuing?
    ensures Told(IssueStep(cfg, s, p, t, now))
  {
    if t !in s.log.rows { FreshNotExchanged(s, t); }
  }

  /** Every other event leaves the rows it does not delete as they were, and exchanges nothing. */
  lemma OthersKeepRows(cfg: Config, s: State, e: Event)
    requires !(e.Advance? && e.p in s.pc && (s.pc[e.p].Issuing? || s.pc[e.p].Swap?))
    ensures var s' := Next(cfg, s, e);
            && s'.log.succ == s.log.succ && s'.log.rows == s.log.rows
            && forall t :: t in s'.st.tokens ==> t in s.st.tokens && s'.st.tokens[t] == s.st.tokens[t]
  {
    if e.Advance? && e.p in s.pc && s.pc[e.p].Reload? { }
  }

  lemma NextTold(cfg: Config, s: State, e: Event)
    requires Inv(s) && ExchangesInv(s) && Told(s)
    ensures Told(Next(cfg, s, e))
  {
    if e.Advance? && e.p in s.pc && s.pc[e.p].Swap? { SwapTold(cfg, s, e.p, e.id, e.now); }
    else if e.Advance? && e.p in s.pc && s.pc[e.p].Issuing? { IssueTold(cfg, s, e.p, e.id, e.now); }
    else { OthersKeepRows(cfg, s, e); }
  }

  lemma {:induction false} ToldExec(cfg: Config, s: State, es: seq<Event>)
    requires Inv(s) && ExchangesInv(s) && Told(s)
    ensures var t := Exec(cfg, s, es); Inv(t) && ExchangesInv(t) && Told(t) && LogGrows(s, t)
    decreases |es|
  {
    if es == [] {
    } else {
      NextKeeps(cfg, s, es[0]);
      NextExchanges(cfg, s, es[0]);
      NextTold(cfg, s, es[0]);
      ToldExec(cfg, Next(cfg, s, es[0]), es[1..]);
    }
  }

  // ----- How long a token is accepted -----

  /** Event `e` writes the row of token `t`: an issue or a won exchange. */
  ghost predicate Writes(cfg: Config, s: State, e: Event, t: nat) {
    t !in s.log.rows && t in Next(cfg, s, e).log.rows
  }

  lemma WrittenRow(cfg: Config, s: State, e: Event, t: nat, now: int)
    requires Writes(cfg, s, e, t)
    ensures e.Advance? && e.id == t
    ensures var row := Next(cfg, s, e).log.rows[t];
            now < row.expiresAt <==>
              && now < e.now + cfg.maxAge
              && (cfg.absoluteMaxAge.Some? ==> now < row.familyCreatedAt + cfg.absoluteMaxAge.value)
  {
    if !(e.Advance? && e.p in s.pc && (s.pc[e.p].Issuing? || s.pc[e.p].Swap?)) { OthersKeepRows(cfg, s, e); }
  }

  /** An issued row starts its own family, at the moment it is written, for the user and session it is issued to. */
  lemma IssuedRow(cfg: Config, s: State, p: nat, x: nat, user: nat, auth: Option<int>, t: nat, now: int)
    requires p !in s.pc && x !in s.log.used && t !in s.log.rows
    ensures var s' := Next(cfg, Next(cfg, s, StartIssue(p, x, user, auth)), Advance(p, t, now));
            && p in s'.pc && s'.pc[p] == Done(true) && x in s'.st.sessions && s'.st.sessions[x] == user
            && t in s'.st.tokens
            && var row := s'.st.tokens[t];
            && row.id == t && row.family == t && row.familyCreatedAt == now && row.authenticatedAt == auth
            && row.user == user && row.session == x && row.consumedAt.None? && row.replacedBy.None?
  {
  }

  /** The verdict on a row, as its own fields give it. */
  lemma VerdictOnRow(cfg: Config, st: Store, t: nat, now: int)
    requires t in st.tokens && (cfg.absoluteMaxAge.Some? ==>
               st.tokens[t].expiresAt <= st.tokens[t].familyCreatedAt + cfg.absoluteMaxAge.value)
    ensures Validate(cfg, st, t, now)
         == if st.tokens[t].consumedAt.Some? then Reused(st.tokens[t].family)
            else if now < st.tokens[t].expiresAt then Valid(st.tokens[t]) else Expired
  {
  }

  lemma StillAsWritten(cfg: Config, s: State, after: seq<Event>, t: nat)
    requires Inv(s) && ExchangesInv(s) && Told(s) && t in s.log.rows
    ensures var s' := Exec(cfg, s, after);
            && Told(s')
            && (t in s'.st.tokens ==>
                  && s'.st.tokens[t].expiresAt == s.log.rows[t].expiresAt
                  && s'.st.tokens[t].familyCreatedAt == s.log.rows[t].familyCreatedAt)
  {
    ToldExec(cfg, s, after);
    var s' := Exec(cfg, s, after);
    if t in s'.st.tokens { assert RowOk(s', t); }
  }

  lemma ReachedTold(cfg: Config, es: seq<Event>)
    ensures var s := Exec(cfg, INIT, es); Inv(s) && ExchangesInv(s) && Told(s)
  {
    InitInv();
    InitExchanges();
    ToldExec(cfg, INIT, es);
  }

  lemma NextReached(cfg: Config, s: State, e: Event)
    requires Inv(s) && ExchangesInv(s) && Told(s)
    ensures var s' := Next(cfg, s, e); Inv(s') && ExchangesInv(s') && Told(s')
  {
    NextKeeps(cfg, s, e);
    NextExchanges(cfg, s, e);
    NextTold(cfg, s, e);
  }

  /**
   The verdict on a token, for every run: unknown once its row is gone; reuse of its family once it was exchanged; and
   until then valid exactly while less than the maximum age has passed since it was written, by issue or by rotation,
   and less than the absolute age since its family was created; expired from then on.
   */
  lemma VerdictExactly(cfg: Config, before: seq<Event>, e: Event, after: seq<Event>, t: nat, now: int)
    requires Writes(cfg, Exec(cfg, INIT, before), e, t)
    ensures e.Advance?
    ensures var s := Exec(cfg, Next(cfg, Exec(cfg, INIT, before), e), after); var v := Validate(cfg, s.st, t, now);
            if t !in s.st.tokens then v == Unknown
            else if t in s.log.succ then v == Reused(s.st.tokens[t].family)
            else
              var created := s.st.tokens[t].familyCreatedAt;
              if now < e.now + cfg.maxAge && (cfg.absoluteMaxAge.Some? ==> now < created + cfg.absoluteMaxAge.value)
              then v == Valid(s.st.tokens[t]) else v == Expired
  {
    ReachedTold(cfg, before);
    var s0 := Exec(cfg, INIT, before);
    var s1 := Next(cfg, s0, e);
    WrittenRow(cfg, s0, e, t, now);
    NextReached(cfg, s0, e);
    StillAsWritten(cfg, s1, after, t);
    var s := Exec(cfg, s1, after);
    if t in s.st.tokens {
      if cfg.absoluteMaxAge.Some? { Capped(cfg, s0, e, t); }
      VerdictOnRow(cfg, s.st, t, now);
    }
  }

  /** No row is written to outlive its family's deadline. */
  lemma Capped(cfg: Config, s: State, e: Event, t: nat)
    requires Writes(cfg, s, e, t) && cfg.absoluteMaxAge.Some?
    ensures var row := Next(cfg, s, e).log.rows[t]; row.expiresAt <= row.familyCreatedAt + cfg.absoluteMaxAge.value
  {
    var row := Next(cfg, s, e).log.rows[t];
    WrittenRow(cfg, s, e, t, row.familyCreatedAt + cfg.absoluteMaxAge.value);
  }

  /** In every run, a stored row is consumed exactly if its token was exchanged, and names the successor. */
  lemma ConsumedExactly(cfg: Config, es: seq<Event>, t: nat)
    requires t in Exec(cfg, INIT, es).st.tokens
    ensures var s := Exec(cfg, INIT, es);
            && (s.st.tokens[t].consumedAt.Some? <==> t in s.log.succ)
            && s.st.tokens[t].replacedBy == (if t in s.log.succ then Some(s.log.succ[t]) else None)
  {
    InitInv();
    InitExchanges();
    ToldExec(cfg, INIT, es);
  }

  // ----- What an undisturbed refresh answers -----

  /** The row's token can be exchanged at `now`. */
  predicate Acceptable(cfg: Config, row: Token, now: int) {
    && row.consumedAt.None? && now < row.expiresAt
    && (cfg.absoluteMaxAge.Some? ==> now < row.familyCreatedAt + cfg.absoluteMaxAge.value)
  }

  /**
   A refresh that nobody disturbs succeeds exactly when the token's row is there and unconsumed, its user exists, and
   both readings of the clock are before the row's expiry and the family's deadline. The new row is the old one's
   heir, good at any time `now` within its own age and the family's; the old row is consumed and names it; the new
   session is there and the old one is not.
   */
  lemma RefreshSucceedsExactly(cfg: Config, st: Store, t: nat, userExists: bool, c: Call, now: int)
    requires t in st.tokens ==> st.tokens[t].session != c.session
    ensures RefreshAnswer(cfg, st, t, userExists, c).Refreshed? <==>
              && t in st.tokens && userExists
              && Acceptable(cfg, st.tokens[t], c.first) && Acceptable(cfg, st.tokens[t], c.second)
    ensures RefreshAnswer(cfg, st, t, userExists, c).Refreshed? && t != c.token ==>
              var row, was, st' := RefreshAnswer(cfg, st, t, userExists, c).row, st.tokens[t],
                                   RefreshedStore(cfg, st, t, userExists, c);
              && row.id == c.token && row.user == was.user && row.session == c.session && row.family == was.family
              && row.familyCreatedAt == was.familyCreatedAt && row.authenticatedAt == was.authenticatedAt
              && row.consumedAt.None? && row.replacedBy.None?
              && (now < row.expiresAt <==>
                    && now < c.exchange + cfg.maxAge
                    && (cfg.absoluteMaxAge.Some? ==> now < was.familyCreatedAt + cfg.absoluteMaxAge.value))
              && st'.tokens.Keys == st.tokens.Keys + {c.token} && st'.tokens[c.token] == row
              && st'.tokens[t] == was.(consumedAt := Some(c.exchange), replacedBy := Some(c.token))
              && (forall u :: u in st.tokens && u != t && u != c.token ==> st'.tokens[u] == st.tokens[u])
              && c.session in st'.sessions && st'.sessions[c.session] == was.user && was.session !in st'.sessions
              && forall x :: x in st.sessions && x != c.session && x != was.session ==>
                   x in st'.sessions && st'.sessions[x] == st.sessions[x]
  {
  }

  /**
   A refused undisturbed refresh says why, leaves the replacement session behind in no case, and burns the family
   exactly when the token was found consumed or past the family's deadline, or its user is gone.
   */
  lemma RefusalExactly(cfg: Config, st: Store, t: nat, userExists: bool, c: Call)
    requires RefreshAnswer(cfg, st, t, userExists, c).Refused? && t in st.tokens
    ensures var why, row := RefreshAnswer(cfg, st, t, userExists, c).why, st.tokens[t];
            && (row.consumedAt.Some? ==> why == TokenReuse)
            && (row.consumedAt.None? && row.expiresAt <= c.first ==> why == TokenExpired)
            && (Acceptable(cfg, row, c.first) && !userExists ==> why == TokenInvalid)
            && (Acceptable(cfg, row, c.first) && userExists && row.expiresAt <= c.second ==> why == TokenExpired)
    ensures var row, st' := st.tokens[t], RefreshedStore(cfg, st, t, userExists, c);
            && (row.consumedAt.Some? || (Acceptable(cfg, row, c.first) && !userExists) ==>
                  forall u :: u in st'.tokens <==> u in st.tokens && st.tokens[u].family != row.family)
            && (row.consumedAt.None? && row.expiresAt <= c.first ==> st' == st)
            && (Acceptable(cfg, row, c.first) && userExists && row.expiresAt <= c.second ==> st' == st)
  {
  }
}
