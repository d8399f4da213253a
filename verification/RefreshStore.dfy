/**
 The in-memory adapter's refresh tokens and sessions: the locked store every other store is
 compared with.  Ids stand for the hashed secrets, which identify one row each.
 */
module RefreshStore {
  import opened Prelude

  datatype Token = Token(
    id: nat,
    user: nat,
    session: nat,
    family: nat,
    familyCreatedAt: int,
    authenticatedAt: Option<int>,
    expiresAt: int,
    consumedAt: Option<int>,
    replacedBy: Option<nat>)

  /** Token rows by id, and the owner of each session row by session id. */
  datatype Store = Store(tokens: map<nat, Token>, sessions: map<nat, nat>)

  datatype RevokedFamily = RevokedFamily(deletedTokens: nat, deletedSessions: nat, sessionIds: set<nat>)

  const EMPTY := Store(map[], map[])

  function AddSession(st: Store, id: nat, user: nat): Store { st.(sessions := st.sessions[id := user]) }

  function DropSession(st: Store, id: nat): Store { st.(sessions := st.sessions - {id}) }

  function AddToken(st: Store, tok: Token): Store { st.(tokens := st.tokens[tok.id := tok]) }

  /** A token can be exchanged while its row exists and is not consumed. */
  predicate Exchangeable(st: Store, cur: nat) {
    cur in st.tokens && st.tokens[cur].consumedAt.None?
  }

  function Exchange(st: Store, cur: nat, tok: Token, at: int): Store {
    if !Exchangeable(st, cur) then st
    else if tok.id == cur then AddToken(st, tok)
    else
      var spent := st.tokens[cur].(consumedAt := Some(at), replacedBy := Some(tok.id));
      st.(tokens := st.tokens[tok.id := tok][cur := spent])
  }

  function FamilyTokens(st: Store, f: nat): set<nat> {
    set t | t in st.tokens && st.tokens[t].family == f
  }

  function FamilySessions(st: Store, f: nat): set<nat> {
    set t | t in FamilyTokens(st, f) :: st.tokens[t].session
  }

  function Revoke(st: Store, f: nat): Store {
    Store(st.tokens - FamilyTokens(st, f), st.sessions - FamilySessions(st, f))
  }

  lemma PopOne(m: map<nat, nat>, id: nat)
    ensures |m - {id}| == |m| - if id in m then 1 else 0
  {
    if id in m {
      assert m.Keys == (m - {id}).Keys + {id};
    } else {
      assert m - {id} == m;
    }
  }

  lemma PopAll(m: map<nat, nat>, ids: set<nat>)
    ensures |ids * m.Keys| == |m| - |m - ids|
  {
    assert m.Keys == (m - ids).Keys + ids * m.Keys;
  }

  class InMemoryAdapter {
    var tokens: map<nat, Token>
    var sessions: map<nat, nat>

    ghost function View(): Store
      reads this
    {
      Store(tokens, sessions)
    }

    constructor ()
      ensures View() == EMPTY
    {
      tokens, sessions := map[], map[];
    }

    method CreateSession(id: nat, user: nat)
      modifies this
      ensures View() == AddSession(old(View()), id, user)
    {
      sessions := sessions[id := user];
    }

    method DeleteSession(id: nat)
      modifies this
      ensures View() == DropSession(old(View()), id)
    {
      sessions := sessions - {id};
    }

    method CreateRefreshToken(tok: Token)
      modifies this
      ensures View() == AddToken(old(View()), tok)
    {
      tokens := tokens[tok.id := tok];
    }

    method GetRefreshToken(t: nat) returns (r: Option<Token>)
      ensures r == if t in tokens then Some(tokens[t]) else None
    {
      if t in tokens { r := Some(tokens[t]); } else { r := None; }
    }

    /** The successor is stored first; the old row is only found again when the ids differ. */
    method RotateRefreshToken(cur: nat, tok: Token, at: int) returns (r: Option<Token>)
      modifies this
      ensures View() == Exchange(old(View()), cur, tok, at)
      ensures r == if Exchangeable(old(View()), cur) then Some(tok) else None
    {
      if cur !in tokens || tokens[cur].consumedAt.Some? { return None; }
      var current := tokens[cur];
      tokens := tokens[tok.id := tok];
      if tok.id != cur {
        tokens := tokens[cur := current.(consumedAt := Some(at), replacedBy := Some(tok.id))];
      }
      return Some(tok);
    }

    /** The loop that deletes the doomed token rows. */
    method DropTokens(doomed: set<nat>)
      modifies this`tokens
      ensures tokens == old(tokens) - doomed
    {
      var todo := doomed;
      while todo != {}
        invariant todo <= doomed
        invariant tokens == old(tokens) - (doomed - todo)
      {
        var t :| t in todo;
        tokens, todo := tokens - {t}, todo - {t};
      }
    }

    method PopSession(id: nat) returns (popped: nat)
      modifies this`sessions
      ensures sessions == old(sessions) - {id} && popped == |old(sessions)| - |sessions|
    {
      PopOne(sessions, id);
      popped := if id in sessions then 1 else 0;
      sessions := sessions - {id};
    }

    /** The loop that pops the family's sessions and counts those that were there. */
    method PopSessions(ids: set<nat>) returns (count: nat)
      modifies this`sessions
      ensures sessions == old(sessions) - ids
      ensures count == |ids * old(sessions).Keys|
    {
      count := 0;
      var left := ids;
      ghost var present := |sessions|;
      while left != {}
        invariant left <= ids
        invariant sessions == old(sessions) - (ids - left)
        invariant count == present - |sessions|
      {
        var id :| id in left;
        var popped := PopSession(id);
        count, left := count + popped, left - {id};
      }
      PopAll(old(sessions), ids);
    }

    method DeleteRefreshTokenFamily(f: nat) returns (r: RevokedFamily)
      modifies this
      ensures View() == Revoke(old(View()), f)
      ensures r.sessionIds == FamilySessions(old(View()), f)
      ensures r.deletedTokens == |FamilyTokens(old(View()), f)|
      ensures r.deletedSessions == |FamilySessions(old(View()), f) * old(sessions).Keys|
    {
      var doomed := set t | t in tokens && tokens[t].family == f;
      var ids := set t | t in doomed :: tokens[t].session;
      assert doomed == FamilyTokens(View(), f) && ids == FamilySessions(View(), f);
      DropTokens(doomed);
      var count := PopSessions(ids);
      r := RevokedFamily(|doomed|, count, ids);
    }
  }
}
