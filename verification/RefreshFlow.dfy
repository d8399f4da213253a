/**
 Many refreshes of the same families at once, over the in-memory adapter with database sessions.

 `refresh_session` creates a session before it knows whether its exchange wins and cleans up on every
 way out.  Each awaited adapter call is one atomic step; a process runs one call of the flow.
 */
module RefreshFlow {
  import opened Prelude
  import opened RefreshStore

  datatype Config = Config(maxAge: int, absoluteMaxAge: Option<int>)

  function ExpiryFor(cfg: Config, now: int, familyCreatedAt: int): int {
    var next := now + cfg.maxAge;
    if cfg.absoluteMaxAge.None? then next
    else if familyCreatedAt + cfg.absoluteMaxAge.value < next then familyCreatedAt + cfg.absoluteMaxAge.value
    else next
  }

  datatype Verdict = Valid(tok: Token) | Unknown | Reused(family: nat) | Expired | PastDeadline(family: nat)

  /** The decision of `get_valid` on one read of the store. */
  function Validate(cfg: Config, st: Store, t: nat, now: int): Verdict {
    if t !in st.tokens then Unknown
    else
      var tok := st.tokens[t];
      if tok.consumedAt.Some? then Reused(tok.family)
      else if tok.expiresAt <= now then Expired
      else if cfg.absoluteMaxAge.Some? && now >= tok.familyCreatedAt + cfg.absoluteMaxAge.value then
        PastDeadline(tok.family)
      else Valid(tok)
  }

  datatype PC =
    | Issuing(session: nat, user: nat, authenticatedAt: Option<int>)
    | LoadUser(tok: Token)
    | MakeSession(tok: Token)
    | Reload(tok: Token, session: nat)
    | Swap(tok: Token, again: Token, session: nat)
    | DropOld(tok: Token, session: nat)
    | Burn(family: nat, extra: Option<nat>)
    | Cleanup(family: nat, session: nat)
    | Done(ok: bool)

  datatype Outcome = Outcome(t: nat, won: bool)

  /**
   The history: each row as it was first written, the newest token of each family, the revoked
   families, all session ids, the family each session was created for, the successor of each
   exchanged token, and who reached the adapter's exchange with which token and result.
   */
  datatype Log = Log(
    rows: map<nat, Token>,
    head: map<nat, nat>,
    burned: set<nat>,
    used: set<nat>,
    made: map<nat, nat>,
    succ: map<nat, nat>,
    outcome: map<nat, Outcome>,
    winner: map<nat, nat>)

  datatype State = State(st: Store, pc: map<nat, PC>, log: Log)

  const INIT := State(EMPTY, map[], Log(map[], map[], {}, {}, map[], map[], map[], map[]))

  /** `id` is the fresh session or token id a step allocates, `now` the clock it reads. */
  datatype Event =
    | StartIssue(p: nat, session: nat, user: nat, authenticatedAt: Option<int>)
    | StartRefresh(p: nat, t: nat, now: int)
    | Advance(p: nat, id: nat, now: int)
    | UserGone(p: nat)
    | RevokeFamily(f: nat)
    | LoseSession(id: nat)

  function Goto(s: State, p: nat, c: PC): State { s.(pc := s.pc[p := c]) }

  /** The first read of the flow; nothing has been created yet. */
  function Begin(cfg: Config, s: State, p: nat, t: nat, now: int): State {
    match Validate(cfg, s.st, t, now)
    case Valid(tok) => Goto(s, p, LoadUser(tok))
    case Unknown => Goto(s, p, Done(false))
    case Reused(f) => Goto(s, p, Burn(f, None))
    case Expired => Goto(s, p, Done(false))
    case PastDeadline(f) => Goto(s, p, Burn(f, None))
  }

  /** `rotate` reads the token again before it exchanges it. */
  function ReloadStep(cfg: Config, s: State, p: nat, now: int): State
    requires p in s.pc && s.pc[p].Reload?
  {
    var c := s.pc[p];
    match Validate(cfg, s.st, c.tok.id, now)
    case Valid(again) => Goto(s, p, Swap(c.tok, again, c.session))
    case Unknown => Goto(s, p, Cleanup(c.tok.family, c.session))
    case Reused(f) => Goto(s, p, Burn(f, Some(c.session)))
    case Expired => Goto(s, p, Cleanup(c.tok.family, c.session))
    case PastDeadline(f) => Goto(s, p, Burn(f, Some(c.session)))
  }

  function FirstRow(cfg: Config, t: nat, c: PC, now: int): Token
    requires c.Issuing?
  {
    Token(t, c.user, c.session, t, now, c.authenticatedAt, ExpiryFor(cfg, now, now), None, None)
  }

  function NextRow(cfg: Config, t: nat, tok: Token, session: nat, now: int): Token {
    Token(t, tok.user, session, tok.family, tok.familyCreatedAt, tok.authenticatedAt,
          ExpiryFor(cfg, now, tok.familyCreatedAt), None, None)
  }

  function IssueStep(cfg: Config, s: State, p: nat, t: nat, now: int): State
    requires p in s.pc && s.pc[p].Issuing?
  {
    if t in s.log.rows then s
    else
      var row := FirstRow(cfg, t, s.pc[p], now);
      Goto(s, p, Done(true)).(
      st := AddToken(s.st, row),
      log := s.log.(rows := s.log.rows[t := row], head := s.log.head[t := t], made := s.log.made[row.session := t]))
  }

  function SessionStep(s: State, p: nat, id: nat): State
    requires p in s.pc && s.pc[p].MakeSession?
  {
    var tok := s.pc[p].tok;
    if id in s.log.used then s
    else
      Goto(s, p, Reload(tok, id)).(
      st := AddSession(s.st, id, tok.user),
      log := s.log.(used := s.log.used + {id}, made := s.log.made[id := tok.family]))
  }

  /** The adapter's exchange, under its lock. */
  function SwapStep(cfg: Config, s: State, p: nat, t: nat, now: int): State
    requires p in s.pc && s.pc[p].Swap?
  {
    var c := s.pc[p];
    var cur := c.again.id;
    if t in s.log.rows then s
    else if !Exchangeable(s.st, cur) then
      Goto(s, p, Burn(c.again.family, Some(c.session))).(
      log := s.log.(outcome := s.log.outcome[p := Outcome(cur, false)]))
    else
      var row := NextRow(cfg, t, c.again, c.session, now);
      Goto(s, p, if row.user != c.tok.user then Cleanup(row.family, c.session) else DropOld(c.tok, c.session)).(
      st := Exchange(s.st, cur, row, now),
      log := s.log.(rows := s.log.rows[t := row], head := s.log.head[row.family := t], succ := s.log.succ[cur := t],
                    outcome := s.log.outcome[p := Outcome(cur, true)], winner := s.log.winner[cur := p]))
  }

  function BurnFamily(s: State, f: nat): State {
    s.(st := Revoke(s.st, f), log := s.log.(burned := s.log.burned + if f in s.log.head then {f} else {}))
  }

  function BurnStep(s: State, p: nat): State
    requires p in s.pc && s.pc[p].Burn?
  {
    var c := s.pc[p];
    Goto(BurnFamily(s, c.family), p, if c.extra.Some? then Cleanup(c.family, c.extra.value) else Done(false))
  }

  function Call(cfg: Config, s: State, p: nat, id: nat, now: int): State
    requires p in s.pc
  {
    var c := s.pc[p];
    match c
    case Issuing(_, _, _) => IssueStep(cfg, s, p, id, now)
    case LoadUser(tok) => Goto(s, p, MakeSession(tok))
    case MakeSession(_) => SessionStep(s, p, id)
    case Reload(_, _) => ReloadStep(cfg, s, p, now)
    case Swap(_, _, _) => SwapStep(cfg, s, p, id, now)
    case DropOld(tok, x) =>
      Goto(if tok.session != x then s.(st := DropSession(s.st, tok.session)) else s, p, Done(true))
    case Burn(_, _) => BurnStep(s, p)
    case Cleanup(_, x) => Goto(s.(st := DropSession(s.st, x)), p, Done(false))
    case Done(_) => s
  }

  function Next(cfg: Config, s: State, e: Event): State {
    match e
    case StartIssue(p, x, user, auth) =>
      if p in s.pc || x in s.log.used then s
      else
        Goto(s, p, Issuing(x, user, auth)).(
        st := AddSession(s.st, x, user), log := s.log.(used := s.log.used + {x}))
    case StartRefresh(p, t, now) => if p in s.pc then s else Begin(cfg, s, p, t, now)
    case Advance(p, id, now) => if p in s.pc then Call(cfg, s, p, id, now) else s
    case UserGone(p) => if p in s.pc && s.pc[p].LoadUser? then Goto(s, p, Burn(s.pc[p].tok.family, None)) else s
    case RevokeFamily(f) => BurnFamily(s, f)
    case LoseSession(id) => s.(st := DropSession(s.st, id))
  }

  function Exec(cfg: Config, s: State, es: seq<Event>): State
    decreases |es|
  {
    if es == [] then s else Exec(cfg, Next(cfg, s, es[0]), es[1..])
  }
}
