/**
 Signing keys shared by many workers: rotation publishes a replacement before it retires the keys it
 saw, and every signer picks the newest active key.  One store call, or one look at the clock, is one step.
 */
module Jwks {
  import opened Prelude

  /** Times are in microseconds; options and claims are in whole seconds. */
  const SECOND := 1_000_000

  datatype Key = Key(alg: nat, created: int, rotatedAt: Option<int>, expiresAt: Option<int>)

  type Keys = map<nat, Key>

  /** Token lifetime, grace period and rotation interval. */
  datatype Config = Config(ttl: int, grace: int, interval: Option<int>)

  /** The grace rule the options enforce. */
  predicate Allowed(cfg: Config) { 0 < cfg.ttl <= cfg.grace }

  // ----- Choosing a key -----

  predicate Active(keys: Keys, alg: nat, k: nat) {
    k in keys && keys[k].rotatedAt.None? && keys[k].alg == alg
  }

  /** The order of `(created_at, kid)`. */
  predicate Later(keys: Keys, a: nat, b: nat)
    requires a in keys && b in keys
  {
    keys[a].created > keys[b].created || (keys[a].created == keys[b].created && a > b)
  }

  ghost predicate IsNewest(keys: Keys, alg: nat, k: nat) {
    Active(keys, alg, k) && forall j :: Active(keys, alg, j) && j != k ==> Later(keys, k, j)
  }

  /** The first of the active keys in reverse `(created_at, kid)` order. */
  ghost function Newest(keys: Keys, alg: nat): (r: Option<nat>)
    ensures r.Some? ==> IsNewest(keys, alg, r.value)
    ensures r.None? <==> forall k :: !Active(keys, alg, k)
  {
    if exists k :: Active(keys, alg, k) then
      NewestExists(keys, alg);
      var k :| IsNewest(keys, alg, k);
      Some(k)
    else None
  }

  lemma NewestExists(keys: Keys, alg: nat)
    requires exists k :: Active(keys, alg, k)
    ensures exists k :: IsNewest(keys, alg, k)
  {
    var k :| Active(keys, alg, k);
    var ks := set j | j in keys && Active(keys, alg, j);
    assert k in ks;
    LatestExists(keys, ks);
    var m :| m in ks && forall j :: j in ks && j != m ==> Later(keys, m, j);
    assert forall j :: Active(keys, alg, j) ==> j in ks;
    assert IsNewest(keys, alg, m);
  }

  lemma {:induction false} LatestExists(keys: Keys, ks: set<nat>)
    requires ks != {} && ks <= keys.Keys
    ensures exists k :: k in ks && forall j :: j in ks && j != k ==> Later(keys, k, j)
  {
    var a :| a in ks;
    if ks == {a} {
      assert forall j :: j in ks ==> j == a;
    } else {
      LatestExists(keys, ks - {a});
      var b :| b in ks - {a} && forall j :: j in ks - {a} && j != b ==> Later(keys, b, j);
      LatestOfTwo(keys, ks, a, b);
    }
  }

  lemma LatestOfTwo(keys: Keys, ks: set<nat>, a: nat, b: nat)
    requires ks <= keys.Keys && a in ks && b in ks && a != b
    requires forall j :: j in ks && j != a && j != b ==> Later(keys, b, j)
    ensures exists k :: k in ks && forall j :: j in ks && j != k ==> Later(keys, k, j)
  {
    var k := if Later(keys, a, b) then a else b;
    forall j | j in ks && j != k ensures Later(keys, k, j) {
      assert j == a || j == b || Later(keys, b, j);
    }
  }

  /** Section 5 of RFC 7517: the published set holds the active keys and the retired ones still in grace. */
  predicate Published(keys: Keys, k: nat, now: int) {
    k in keys && (keys[k].rotatedAt.None? || (keys[k].expiresAt.Some? && keys[k].expiresAt.value > now))
  }

  // ----- The workers -----

  datatype PC =
    | Idle
      // rotate_if_due
    | DueList(iat: int, alg: nat)
    | DueMake(iat: int, alg: nat)
    | DueInsert(iat: int, alg: nat, kid: nat, key: Key)
    | DueDecide(iat: int, alg: nat, created: int)
      // rotate_now, on its own or while signing
    | RotList(sign: Option<int>, alg: nat)
    | RotMake(sign: Option<int>, alg: nat, seen: Keys)
    | RotInsert(sign: Option<int>, alg: nat, seen: Keys, kid: nat, key: Key)
    | RotStamp(sign: Option<int>, alg: nat, seen: Keys)
    | Retire(sign: Option<int>, alg: nat, pending: Keys, stamp: int)
      // the second ensure_key of a signature
    | SignList(iat: int, alg: nat)
    | SignMake(iat: int, alg: nat)
    | SignInsert(iat: int, alg: nat, kid: nat, key: Key)

  /** A signed token: its key, when it was issued, and its `exp` claim in seconds. */
  datatype Issued = Issued(kid: nat, iat: int, exp: int)

  /** `born` records the creation time of every key ever made, inserted or not. */
  datatype State = State(keys: Keys, clock: int, pc: map<nat, PC>, born: map<nat, int>, issued: set<Issued>)

  const INIT := State(map[], 0, map[], map[], {})

  /** Every event reads the clock at `at`; `pick` is the fresh key id, or the next key to retire. */
  datatype Event =
    | StartSign(w: nat, alg: nat, at: int)
    | StartRotate(w: nat, alg: nat, at: int)
    | Advance(w: nat, at: int, pick: nat)

  function At(s: State, w: nat): PC { if w in s.pc then s.pc[w] else Idle }

  function Goto(s: State, w: nat, c: PC): State { s.(pc := s.pc[w := c]) }

  /** The `exp` claim is cut to whole seconds. */
  function Exp(cfg: Config, iat: int): int { (iat + cfg.ttl * SECOND) / SECOND }

  function Sign(cfg: Config, s: State, w: nat, kid: nat, iat: int): State {
    Goto(s, w, Idle).(issued := s.issued + {Issued(kid, iat, Exp(cfg, iat))})
  }

  function NewKey(alg: nat, at: int): Key { Key(alg, at, None, None) }

  function Mint(s: State, w: nat, kid: nat, c: PC): State {
    Goto(s, w, c).(born := s.born[kid := s.clock])
  }

  function Insert(s: State, kid: nat, key: Key): State { s.(keys := s.keys[kid := key]) }

  /** `rotate_if_due`: make sure a key exists, then decide by its age. */
  ghost function DueCall(cfg: Config, s: State, w: nat, pick: nat): State {
    match At(s, w)
    case DueList(iat, alg) =>
      if Newest(s.keys, alg).Some? then Goto(s, w, DueDecide(iat, alg, s.keys[Newest(s.keys, alg).value].created))
      else Goto(s, w, DueMake(iat, alg))
    case DueMake(iat, alg) =>
      if pick in s.born then s else Mint(s, w, pick, DueInsert(iat, alg, pick, NewKey(alg, s.clock)))
    case DueInsert(iat, alg, kid, key) => Goto(Insert(s, kid, key), w, DueDecide(iat, alg, key.created))
    case DueDecide(iat, alg, created) =>
      if cfg.interval.Some? && s.clock - created >= cfg.interval.value * SECOND then Goto(s, w, RotList(Some(iat), alg))
      else Goto(s, w, SignList(iat, alg))
    case _ => s
  }

  /** The listed copy of a key, marked as rotated and kept for the grace period. */
  function Retired(cfg: Config, key: Key, stamp: int): Key {
    key.(rotatedAt := Some(stamp), expiresAt := Some(stamp + cfg.grace * SECOND))
  }

  /** `rotate_now`: list, publish the replacement, look at the clock, retire what was listed. */
  function RotateCall(cfg: Config, s: State, w: nat, pick: nat): State {
    match At(s, w)
    case RotList(sign, alg) => Goto(s, w, RotMake(sign, alg, s.keys))
    case RotMake(sign, alg, seen) =>
      if pick in s.born then s else Mint(s, w, pick, RotInsert(sign, alg, seen, pick, NewKey(alg, s.clock)))
    case RotInsert(sign, alg, seen, kid, key) => Goto(Insert(s, kid, key), w, RotStamp(sign, alg, seen))
    case RotStamp(sign, alg, seen) =>
      Goto(s, w, Retire(sign, alg, map k | k in seen && Active(seen, alg, k) :: seen[k], s.clock))
    case Retire(sign, alg, pending, stamp) =>
      if pending == map[] then Goto(s, w, if sign.Some? then SignList(sign.value, alg) else Idle)
      else if pick !in pending || pick !in s.keys then s
      else
        Goto(Insert(s, pick, Retired(cfg, pending[pick], stamp)), w, Retire(sign, alg, pending - {pick}, stamp))
    case _ => s
  }

  /** The signature itself: the newest active key, or a new one when there is none. */
  ghost function SignCall(cfg: Config, s: State, w: nat, pick: nat): State {
    match At(s, w)
    case SignList(iat, alg) =>
      if Newest(s.keys, alg).Some? then Sign(cfg, s, w, Newest(s.keys, alg).value, iat)
      else Goto(s, w, SignMake(iat, alg))
    case SignMake(iat, alg) =>
      if pick in s.born then s else Mint(s, w, pick, SignInsert(iat, alg, pick, NewKey(alg, s.clock)))
    case SignInsert(iat, alg, kid, key) => Sign(cfg, Insert(s, kid, key), w, kid, iat)
    case _ => s
  }

  predicate InRotation(c: PC) { c.RotList? || c.RotMake? || c.RotInsert? || c.RotStamp? || c.Retire? }

  predicate InDue(c: PC) { c.DueList? || c.DueMake? || c.DueInsert? || c.DueDecide? }

  ghost function Call(cfg: Config, s: State, w: nat, pick: nat): State {
    if InDue(At(s, w)) then DueCall(cfg, s, w, pick)
    else if InRotation(At(s, w)) then RotateCall(cfg, s, w, pick)
    else SignCall(cfg, s, w, pick)
  }

  /** Steps happen at strictly increasing times. */
  ghost function Next(cfg: Config, s: State, e: Event): State {
    if e.at <= s.clock then s
    else
      var t := s.(clock := e.at);
      match e
      case StartSign(w, alg, at) => if At(s, w) == Idle then Goto(t, w, DueList(at, alg)) else t
      case StartRotate(w, alg, _) => if At(s, w) == Idle then Goto(t, w, RotList(None, alg)) else t
      case Advance(w, _, pick) => Call(cfg, t, w, pick)
  }

  ghost function Exec(cfg: Config, s: State, es: seq<Event>): State
    decreases |es|
  {
    if es == [] then s else Exec(cfg, Next(cfg, s, es[0]), es[1..])
  }
}
