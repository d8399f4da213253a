/** The age limits of a refresh-token family along every rotation chain. */
module RefreshLifetime {
  import opened Prelude
  import opened RefreshStore
  import opened RefreshFlow
  import opened RefreshQuiescence

  /** A row agrees with its family's first row and does not outlive the family's deadline. */
  ghost predicate Bounded(cfg: Config, rows: map<nat, Token>, t: nat) {
    && t in rows && rows[t].family in rows
    && var r, root := rows[t], rows[rows[t].family];
    && r.user == root.user && r.familyCreatedAt == root.familyCreatedAt && r.authenticatedAt == root.authenticatedAt
    && r.expiresAt <= ExpiryLimit(cfg, r)
  }

  /** The latest moment a row may expire at; without an absolute limit the row's own expiry. */
  function ExpiryLimit(cfg: Config, r: Token): int {
    if cfg.absoluteMaxAge.None? then r.expiresAt else r.familyCreatedAt + cfg.absoluteMaxAge.value
  }

  ghost predicate AllBounded(cfg: Config, s: State) {
    forall t :: t in s.log.rows ==> Bounded(cfg, s.log.rows, t)
  }

  lemma RowsChange(cfg: Config, s: State, e: Event)
    requires !(e.Advance? && e.p in s.pc && (s.pc[e.p].Issuing? || s.pc[e.p].Swap?))
    ensures Next(cfg, s, e).log.rows == s.log.rows
  {
    if e.Advance? && e.p in s.pc {
      if s.pc[e.p].Reload? { }
    } else if e.StartRefresh? { }
  }

  lemma NextBounded(cfg: Config, s: State, e: Event)
    requires Inv(s) && AllBounded(cfg, s)
    ensures AllBounded(cfg, Next(cfg, s, e))
  {
    var s' := Next(cfg, s, e);
    if e.Advance? && e.p in s.pc && (s.pc[e.p].Issuing? || s.pc[e.p].Swap?) {
      var c := s.pc[e.p];
      assert PcOk(s, e.p, c);
      if e.id !in s.log.rows {
        if c.Issuing? { AddRow(cfg, s.log.rows, FirstRow(cfg, e.id, c, e.now), s'.log.rows); }
        else {
          assert HistoryOk(s, c.again.id) && Bounded(cfg, s.log.rows, c.again.id);
          if Exchangeable(s.st, c.again.id) {
            AddRow(cfg, s.log.rows, NextRow(cfg, e.id, c.again, c.session, e.now), s'.log.rows);
          }
        }
      }
    } else {
      RowsChange(cfg, s, e);
    }
  }

  lemma AddRow(cfg: Config, rows: map<nat, Token>, r: Token, rows': map<nat, Token>)
    requires r.id !in rows && forall t :: t in rows ==> Bounded(cfg, rows, t)
    requires rows' == rows[r.id := r] && Bounded(cfg, rows', r.id)
    ensures forall t :: t in rows' ==> Bounded(cfg, rows', t)
  {
    forall t | t in rows ensures Bounded(cfg, rows', t) { assert Bounded(cfg, rows, t); }
  }

  lemma {:induction false} BoundedExec(cfg: Config, s: State, es: seq<Event>)
    requires Inv(s) && AllBounded(cfg, s)
    ensures Inv(Exec(cfg, s, es)) && AllBounded(cfg, Exec(cfg, s, es))
    decreases |es|
  {
    if es == [] {
    } else {
      NextKeeps(cfg, s, es[0]);
      NextBounded(cfg, s, es[0]);
      BoundedExec(cfg, Next(cfg, s, es[0]), es[1..]);
    }
  }

  /**
   Along every chain of every run, user, creation time and authentication time are the first token's,
   and no token expires after the family's absolute deadline.
   */
  lemma FamilyLifetime(cfg: Config, es: seq<Event>, t: nat)
    requires t in Exec(cfg, INIT, es).st.tokens
    ensures var s := Exec(cfg, INIT, es);
            var tok := s.st.tokens[t];
            && tok.family in s.log.rows
            && var root := s.log.rows[tok.family];
            && root.id == tok.family && root.family == tok.family
            && tok.user == root.user && tok.familyCreatedAt == root.familyCreatedAt
            && tok.authenticatedAt == root.authenticatedAt
            && (cfg.absoluteMaxAge.Some? ==> tok.expiresAt <= root.familyCreatedAt + cfg.absoluteMaxAge.value)
  {
    InitInv();
    BoundedExec(cfg, INIT, es);
    var s := Exec(cfg, INIT, es);
    assert RowOk(s, t) && Bounded(cfg, s.log.rows, t) && HeadOk(s, s.st.tokens[t].family);
    assert HistoryOk(s, s.st.tokens[t].family);
  }

  /**
   No token is accepted at or after the deadline, and the check for it never decides: the row's own
   expiry always does first, so the revoking branch behind it is never taken.
   */
  lemma DeadlineIsExpiry(cfg: Config, es: seq<Event>, t: nat, now: int)
    ensures var s := Exec(cfg, INIT, es);
            && !Validate(cfg, s.st, t, now).PastDeadline?
            && (Validate(cfg, s.st, t, now).Valid? && cfg.absoluteMaxAge.Some?
                ==> now < s.st.tokens[t].familyCreatedAt + cfg.absoluteMaxAge.value)
  {
    InitInv();
    BoundedExec(cfg, INIT, es);
    var s := Exec(cfg, INIT, es);
    if t in s.st.tokens {
      assert RowOk(s, t) && Bounded(cfg, s.log.rows, t);
    }
  }
}
