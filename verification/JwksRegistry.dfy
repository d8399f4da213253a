/** One worker's registry with nobody else running: the loops of `ensure_key` and `rotate_now`. */
module JwksRegistry {
  import opened Prelude
  import opened Jwks

  /** The listed keys in `pending`, retired at one moment; all others as they are. */
  function RetireAll(cfg: Config, keys: Keys, pending: Keys, stamp: int): Keys {
    map k | k in keys :: if k in pending then Retired(cfg, pending[k], stamp) else keys[k]
  }

  function ActiveKeys(keys: Keys, alg: nat): Keys {
    map k | k in keys && Active(keys, alg, k) :: keys[k]
  }

  /** The store after a whole rotation: the replacement, and the previously active keys in grace. */
  function RotatedKeys(cfg: Config, keys: Keys, alg: nat, kid: nat, made: int, stamp: int): Keys {
    RetireAll(cfg, keys[kid := NewKey(alg, made)], ActiveKeys(keys, alg), stamp)
  }

  class Registry {
    const cfg: Config
    const alg: nat
    var keys: Keys
    var currentKey: Option<nat>

    constructor (cfg: Config, alg: nat)
      ensures this.cfg == cfg && this.alg == alg && keys == map[] && currentKey == None
    {
      this.cfg, this.alg, keys, currentKey := cfg, alg, map[], None;
    }

    method CreateKey(kid: nat, made: int)
      requires kid !in keys
      modifies this
      ensures keys == old(keys)[kid := NewKey(alg, made)] && currentKey == Some(kid)
    {
      keys := keys[kid := NewKey(alg, made)];
      currentKey := Some(kid);
    }

    /** Goes through the active keys and keeps the latest; makes a key when there is none. */
    method EnsureKey(kid: nat, made: int) returns (r: nat)
      requires kid !in keys
      modifies this
      ensures match Newest(old(keys), alg)
              case Some(k) => r == k && keys == old(keys)
              case None => r == kid && keys == old(keys)[kid := NewKey(alg, made)]
      ensures Newest(keys, alg) == Some(r) && currentKey == Some(r)
    {
      var best: Option<nat> := None;
      var left := keys.Keys;
      while left != {}
        invariant left <= keys.Keys
        invariant best.None? ==> forall k :: Active(keys, alg, k) ==> k in left
        invariant best.Some? ==>
                    && Active(keys, alg, best.value)
                    && forall k :: Active(keys, alg, k) && k !in left && k != best.value ==> Later(keys, best.value, k)
      {
        var k :| k in left;
        left := left - {k};
        if Active(keys, alg, k) && (best.None? || Later(keys, k, best.value)) { best := Some(k); }
      }
      if best.Some? {
        assert IsNewest(keys, alg, best.value);
        NewestIsUnique(keys, alg, best.value);
        currentKey := best;
        return best.value;
      }
      ghost var before := keys;
      assert forall k :: !Active(before, alg, k);
      CreateKey(kid, made);
      forall j | Active(keys, alg, j) ensures j == kid { assert j != kid ==> Active(before, alg, j); }
      assert IsNewest(keys, alg, kid);
      NewestIsUnique(keys, alg, kid);
      return kid;
    }

    method RotateNow(kid: nat, made: int, stamp: int) returns (replacement: nat)
      requires kid !in keys
      modifies this
      ensures replacement == kid && currentKey == Some(kid)
      ensures keys == RotatedKeys(cfg, old(keys), alg, kid, made, stamp)
    {
      var previous := keys;
      CreateKey(kid, made);
      replacement := kid;
      ghost var published := keys;
      var left := previous.Keys;
      while left != {}
        invariant left <= previous.Keys && currentKey == Some(kid)
        invariant keys.Keys == published.Keys
        invariant forall k :: k in keys ==>
                                keys[k] == if Active(previous, alg, k) && k !in left
                                           then Retired(cfg, previous[k], stamp)
                                           else published[k]
      {
        var k :| k in left;
        left := left - {k};
        if previous[k].rotatedAt.None? && previous[k].alg == alg {
          keys := keys[k := Retired(cfg, previous[k], stamp)];
        }
      }
    }
  }

  lemma NewestIsUnique(keys: Keys, alg: nat, k: nat)
    requires IsNewest(keys, alg, k)
    ensures Newest(keys, alg) == Some(k)
  {
  }

  /**
   A rotation takes no key out of the published set before the grace period after it is over, and
   leaves the replacement as the only active key of its algorithm.
   */
  lemma RotationKeepsPublished(cfg: Config, keys: Keys, alg: nat, kid: nat, made: int, stamp: int, k: nat, now: int)
    requires kid !in keys && Published(keys, k, now) && now < stamp + cfg.grace * SECOND
    ensures var after := RotatedKeys(cfg, keys, alg, kid, made, stamp);
            && Published(after, k, now) && Newest(after, alg) == Some(kid)
            && forall j :: Active(after, alg, j) <==> j == kid
  {
    var after := RotatedKeys(cfg, keys, alg, kid, made, stamp);
    assert forall j :: Active(after, alg, j) ==> j == kid;
    assert IsNewest(after, alg, kid);
    NewestIsUnique(after, alg, kid);
  }

  /**
   The same in the protocol: a worker left alone with its list, whatever order it goes through it in,
   ends with exactly the listed keys retired.
   */
  lemma {:induction false} LoneRetirement(cfg: Config, s: State, w: nat, order: seq<nat>) returns (es: seq<Event>)
    requires At(s, w).Retire? && At(s, w).pending.Keys <= s.keys.Keys
    requires forall k :: k in order <==> k in At(s, w).pending
    requires forall i, j :: 0 <= i < j < |order| ==> order[i] != order[j]
    ensures var c := At(s, w);
            var t := Exec(cfg, s, es);
            t.keys == RetireAll(cfg, s.keys, c.pending, c.stamp) && At(t, w) == Retire(c.sign, c.alg, map[], c.stamp)
    decreases |order|
  {
    var c := At(s, w);
    if order == [] {
      es := [];
      assert forall k :: k in c.pending ==> k in order;
      assert c.pending == map[];
      assert RetireAll(cfg, s.keys, c.pending, c.stamp) == s.keys;
    } else {
      var k := order[0];
      var e := Advance(w, s.clock + 1, k);
      var s' := Next(cfg, s, e);
      assert k in order;
      assert At(s', w) == Retire(c.sign, c.alg, c.pending - {k}, c.stamp);
      forall j ensures j in order[1..] <==> j in c.pending - {k} { assert j in order <==> j == k || j in order[1..]; }
      var rest := LoneRetirement(cfg, s', w, order[1..]);
      es := [e] + rest;
      assert es[1..] == rest;
      assert RetireAll(cfg, s'.keys, c.pending - {k}, c.stamp) == RetireAll(cfg, s.keys, c.pending, c.stamp);
    }
  }
}
