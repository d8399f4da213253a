/** What the key set and a signature say: how long a key is published, how long a token lives, which key signs. */
module JwksAnswers {
  import opened Prelude
  import opened Jwks
  import opened JwksSafety
  import opened JwksRegistry

  // ----- The published set -----

  /**
   In every run, a key is in the published set exactly when it is stored and either not retired, or retired less than
   the grace period ago.
   */
  lemma PublishedExactly(cfg: Config, es: seq<Event>, k: nat, now: int)
    ensures var keys := Exec(cfg, INIT, es).keys;
            Published(keys, k, now)
            <==> k in keys && (keys[k].rotatedAt.Some? ==> now < keys[k].rotatedAt.value + cfg.grace * SECOND)
  {
    InitInv(cfg);
    InvExec(cfg, INIT, es);
    var s := Exec(cfg, INIT, es);
    assert k in s.keys ==> KeyOk(cfg, s, k);
  }

  /** A rotation takes every key that was active out of the set when its grace period is over, and not before. */
  lemma RotationUnpublishes(cfg: Config, keys: Keys, alg: nat, kid: nat, made: int, stamp: int, k: nat, now: int)
    requires kid !in keys && Active(keys, alg, k)
    ensures Published(RotatedKeys(cfg, keys, alg, kid, made, stamp), k, now) <==> now < stamp + cfg.grace * SECOND
  {
  }

  // ----- The life of a token -----

  /** In every run, a token's `exp` is its issue plus the lifetime, cut to the whole second. */
  lemma TokenLivesItsTime(cfg: Config, es: seq<Event>, tk: Issued)
    requires tk in Exec(cfg, INIT, es).issued
    ensures tk.exp * SECOND <= tk.iat + cfg.ttl * SECOND < (tk.exp + 1) * SECOND
  {
    InitInv(cfg);
    InvExec(cfg, INIT, es);
    assert TokenOk(cfg, Exec(cfg, INIT, es), tk);
  }

  // ----- Which key signs -----

  lemma ExecStep(cfg: Config, s: State, e: Event, rest: seq<Event>)
    ensures Exec(cfg, s, [e] + rest) == Exec(cfg, Next(cfg, s, e), rest)
  {
    assert ([e] + rest)[1..] == rest;
  }

  lemma ExecTwo(cfg: Config, s: State, e: Event, e': Event)
    ensures Exec(cfg, s, [e, e']) == Next(cfg, Next(cfg, s, e), e')
  {
    ExecStep(cfg, Next(cfg, s, e), e', []);
    ExecStep(cfg, s, e, [e']);
    assert [e] + [e'] == [e, e'] && [e'] + [] == [e'];
  }

  lemma {:induction false} ExecAppend(cfg: Config, s: State, xs: seq<Event>, ys: seq<Event>)
    ensures Exec(cfg, s, xs + ys) == Exec(cfg, Exec(cfg, s, xs), ys)
    decreases |xs|
  {
    if xs == [] {
      assert xs + ys == ys;
    } else {
      assert (xs + ys)[1..] == xs[1..] + ys;
      ExecAppend(cfg, Next(cfg, s, xs[0]), xs[1..], ys);
    }
  }

  /**
   A signature whose newest key `k` has not reached the rotation interval, left alone, is made with that key, is dated
   at its start, and changes no key.
   */
  lemma YoungKeySigns(cfg: Config, s: State, w: nat, alg: nat, k: nat, at: int, listed: int, decided: int, signed: int)
    requires s.clock < at < listed < decided < signed
    requires At(s, w) == Idle && Newest(s.keys, alg) == Some(k)
    requires cfg.interval.None? || decided - s.keys[k].created < cfg.interval.value * SECOND
    ensures var es := [StartSign(w, alg, at), Advance(w, listed, 0)] + [Advance(w, decided, 0), Advance(w, signed, 0)];
            var t := Exec(cfg, s, es);
            && At(t, w) == Idle && t.keys == s.keys
            && t.issued == s.issued + {Issued(k, at, (at + cfg.ttl * SECOND) / SECOND)}
  {
    var e0, e1 := StartSign(w, alg, at), Advance(w, listed, 0);
    ExecAppend(cfg, s, [e0, e1], [Advance(w, decided, 0), Advance(w, signed, 0)]);
    ExecTwo(cfg, s, e0, e1);
    var s2 := Next(cfg, Next(cfg, s, e0), e1);
    assert At(s2, w) == DueDecide(at, alg, s.keys[k].created) && s2.keys == s.keys && s2.clock == listed;
    ExecTwo(cfg, s2, Advance(w, decided, 0), Advance(w, signed, 0));
    assert At(Next(cfg, s2, Advance(w, decided, 0)), w) == SignList(at, alg);
  }

  /** One whose newest key has reached the interval first rotates. */
  lemma OldKeyRotates(cfg: Config, s: State, w: nat, alg: nat, k: nat, at: int, listed: int, decided: int)
    requires s.clock < at < listed < decided
    requires At(s, w) == Idle && Newest(s.keys, alg) == Some(k)
    requires cfg.interval.Some? && decided - s.keys[k].created >= cfg.interval.value * SECOND
    ensures var s1 := Next(cfg, s, StartSign(w, alg, at));
            var t := Next(cfg, Next(cfg, s1, Advance(w, listed, 0)), Advance(w, decided, 0));
            && At(t, w) == RotList(Some(at), alg) && t.keys == s.keys && t.born == s.born && t.issued == s.issued
  {
  }

  /** A rotation asked for is begun by an idle worker, and signs nothing in the end. */
  lemma RotationStarts(cfg: Config, s: State, w: nat, alg: nat, at: int, stamp: int)
    requires s.clock < at && At(s, w) == Idle
    ensures At(Next(cfg, s, StartRotate(w, alg, at)), w) == RotList(None, alg)
    ensures var done := Goto(s, w, Retire(None, alg, map[], stamp));
            var t := Next(cfg, done, Advance(w, at, 0));
            At(t, w) == Idle && t.keys == s.keys && t.issued == s.issued
  {
  }

  /** A rotation up to its clock reading: list, make, publish. */
  lemma RotationPublishes(cfg: Config, s: State, w: nat, kid: nat)
    requires At(s, w).RotList? && kid !in s.born && kid !in s.keys
    ensures var c := At(s, w);
            var es := [Advance(w, s.clock + 1, kid), Advance(w, s.clock + 2, kid)]
                      + [Advance(w, s.clock + 3, kid), Advance(w, s.clock + 4, kid)];
            var t := Exec(cfg, s, es);
            && t.keys == s.keys[kid := NewKey(c.alg, s.clock + 2)] && t.issued == s.issued
            && At(t, w) == Retire(c.sign, c.alg, ActiveKeys(s.keys, c.alg), s.clock + 4)
  {
    var c := At(s, w);
    var e1, e2 := Advance(w, s.clock + 1, kid), Advance(w, s.clock + 2, kid);
    var e3, e4 := Advance(w, s.clock + 3, kid), Advance(w, s.clock + 4, kid);
    ExecAppend(cfg, s, [e1, e2], [e3, e4]);
    ExecTwo(cfg, s, e1, e2);
    var s2 := Next(cfg, Next(cfg, s, e1), e2);
    assert At(s2, w) == RotInsert(c.sign, c.alg, s.keys, kid, NewKey(c.alg, s.clock + 2)) && s2.keys == s.keys;
    ExecTwo(cfg, s2, e3, e4);
  }

  /**
   A rotation left alone does to the keys what the whole operation does: the replacement is stored, and exactly the
   keys of its algorithm that were active are in grace.
   */
  lemma LoneRotation(cfg: Config, s: State, w: nat, kid: nat, order: seq<nat>) returns (es: seq<Event>)
    requires At(s, w).RotList? && kid !in s.born && kid !in s.keys
    requires forall k :: k in order <==> k in ActiveKeys(s.keys, At(s, w).alg)
    requires forall i, j :: 0 <= i < j < |order| ==> order[i] != order[j]
    ensures var c, t := At(s, w), Exec(cfg, s, es);
            && t.keys == RotatedKeys(cfg, s.keys, c.alg, kid, s.clock + 2, s.clock + 4)
            && At(t, w) == Retire(c.sign, c.alg, map[], s.clock + 4)
  {
    RotationPublishes(cfg, s, w, kid);
    var first := [Advance(w, s.clock + 1, kid), Advance(w, s.clock + 2, kid)]
                 + [Advance(w, s.clock + 3, kid), Advance(w, s.clock + 4, kid)];
    var mid := Exec(cfg, s, first);
    var rest := LoneRetirement(cfg, mid, w, order);
    es := first + rest;
    ExecAppend(cfg, s, first, rest);
  }

  /** And then it signs with the replacement, if it was started by a signature. */
  lemma RotatedKeySigns(cfg: Config, s: State, w: nat, iat: int, alg: nat, kid: nat, stamp: int)
    requires At(s, w) == Retire(Some(iat), alg, map[], stamp) && Newest(s.keys, alg) == Some(kid)
    ensures var t := Exec(cfg, s, [Advance(w, s.clock + 1, 0), Advance(w, s.clock + 2, 0)]);
            && At(t, w) == Idle && t.keys == s.keys
            && t.issued == s.issued + {Issued(kid, iat, (iat + cfg.ttl * SECOND) / SECOND)}
  {
    ExecTwo(cfg, s, Advance(w, s.clock + 1, 0), Advance(w, s.clock + 2, 0));
    assert At(Next(cfg, s, Advance(w, s.clock + 1, 0)), w) == SignList(iat, alg);
  }

  /** The first signature of an algorithm makes its key and signs with it. */
  lemma FirstKeySigns(cfg: Config, s: State, w: nat, alg: nat, kid: nat, iat: int)
    requires At(s, w) == SignList(iat, alg) && Newest(s.keys, alg) == None && kid !in s.born && kid !in s.keys
    ensures var t := Next(cfg, Next(cfg, Next(cfg, s, Advance(w, s.clock + 1, 0)), Advance(w, s.clock + 2, kid)),
                          Advance(w, s.clock + 3, 0));
            && At(t, w) == Idle && t.keys == s.keys[kid := NewKey(alg, s.clock + 2)]
            && t.issued == s.issued + {Issued(kid, iat, (iat + cfg.ttl * SECOND) / SECOND)}
  {
    var s1 := Next(cfg, s, Advance(w, s.clock + 1, 0));
    assert At(s1, w) == SignMake(iat, alg) && s1.keys == s.keys && s1.born == s.born;
    var s2 := Next(cfg, s1, Advance(w, s.clock + 2, kid));
    assert At(s2, w) == SignInsert(iat, alg, kid, NewKey(alg, s.clock + 2)) && s2.keys == s.keys;
  }
}
