/** Coverage of signed tokens and liveness of signing, for any number of workers in any interleaving. */
module JwksSafety {
  import opened Prelude
  import opened Jwks

  /** Some stored key of the same algorithm is newer. */
  ghost predicate Overtaken(s: State, k: nat) {
    && k in s.keys && k in s.born
    && exists j :: j in s.keys && s.keys[j].alg == s.keys[k].alg && j in s.born && s.born[j] > s.born[k]
  }

  ghost predicate KeyOk(cfg: Config, s: State, k: nat) {
    && k in s.keys && k in s.born && s.keys[k].created == s.born[k]
    && (s.keys[k].rotatedAt.Some? ==>
          s.keys[k].expiresAt == Some(s.keys[k].rotatedAt.value + cfg.grace * SECOND) && Overtaken(s, k))
  }

  /** A copy of a stored key: its identity never changes. */
  ghost predicate Copy(s: State, k: nat, key: Key) {
    k in s.keys && k in s.born && key.created == s.born[k] && key.alg == s.keys[k].alg
  }

  ghost predicate SeenOk(s: State, seen: Keys) {
    forall k :: k in seen ==> Copy(s, k, seen[k])
  }

  /** The listed keys of the worker's algorithm that it is about to retire all have a newer key in the store. */
  ghost predicate OutdatedOk(s: State, seen: Keys, alg: nat) {
    forall k :: k in seen && Active(seen, alg, k) ==> Overtaken(s, k)
  }

  ghost predicate FreshOk(s: State, kid: nat, key: Key, alg: nat) {
    kid in s.born && kid !in s.keys && key == NewKey(alg, s.born[kid])
  }

  /** Tokens signed with a key that is about to be retired at `stamp` were issued before `stamp`. */
  ghost predicate StampOk(s: State, pending: Keys, stamp: int) {
    forall tk :: tk in s.issued && tk.kid in pending ==> tk.iat < stamp
  }

  ghost predicate PcOk(s: State, c: PC) {
    match c
    case DueInsert(iat, alg, kid, key) => iat <= s.clock && FreshOk(s, kid, key, alg)
    case SignInsert(iat, alg, kid, key) => iat <= s.clock && FreshOk(s, kid, key, alg)
    case RotMake(sign, alg, seen) => SignOk(s, sign) && SeenOk(s, seen)
    case RotInsert(sign, alg, seen, kid, key) =>
      && SignOk(s, sign) && SeenOk(s, seen) && FreshOk(s, kid, key, alg)
      && forall k :: k in seen ==> s.born[k] < s.born[kid]
    case RotStamp(sign, alg, seen) => SignOk(s, sign) && SeenOk(s, seen) && OutdatedOk(s, seen, alg)
    case Retire(sign, alg, pending, stamp) =>
      && SignOk(s, sign) && SeenOk(s, pending)
      && (forall k :: k in pending ==> Active(pending, alg, k)) && OutdatedOk(s, pending, alg)
      && StampOk(s, pending, stamp) && stamp <= s.clock
    case DueList(iat, _) => iat <= s.clock
    case DueMake(iat, _) => iat <= s.clock
    case DueDecide(iat, _, _) => iat <= s.clock
    case RotList(sign, _) => SignOk(s, sign)
    case SignList(iat, _) => iat <= s.clock
    case SignMake(iat, _) => iat <= s.clock
    case Idle => true
  }

  ghost predicate SignOk(s: State, sign: Option<int>) { sign.Some? ==> sign.value <= s.clock }

  /** A token's key is stored, and if it was retired, that was stamped after the token was issued. */
  ghost predicate TokenOk(cfg: Config, s: State, tk: Issued) {
    && tk.kid in s.keys && tk.iat <= s.clock && tk.exp == Exp(cfg, tk.iat)
    && (s.keys[tk.kid].rotatedAt.Some? ==> tk.iat < s.keys[tk.kid].rotatedAt.value)
  }

  /** The key id a worker has made and not inserted yet. */
  function Making(c: PC): Option<nat> {
    if c.DueInsert? || c.RotInsert? || c.SignInsert? then Some(c.kid) else None
  }

  ghost predicate Inv(cfg: Config, s: State) {
    && (forall k :: k in s.keys ==> KeyOk(cfg, s, k))
    && (forall k :: k in s.born ==> s.born[k] <= s.clock)
    && (forall j, k :: j in s.born && k in s.born && j != k ==> s.born[j] != s.born[k])
    && (forall w :: PcOk(s, At(s, w)))
    && (forall v, w :: v != w && Making(At(s, v)).Some? ==> Making(At(s, w)) != Making(At(s, v)))
    && (forall tk :: tk in s.issued ==> TokenOk(cfg, s, tk))
  }

  /** Keys are never removed and never change identity; the clock and the records only grow. */
  ghost predicate Grows(s: State, s': State) {
    && s.clock <= s'.clock
    && (forall k :: k in s.keys ==> k in s'.keys && s'.keys[k].alg == s.keys[k].alg)
    && (forall k :: k in s.born ==> k in s'.born && s'.born[k] == s.born[k])
    && s.issued <= s'.issued
  }

  lemma OvertakenGrows(s: State, s': State, k: nat)
    requires Overtaken(s, k) && Grows(s, s')
    ensures Overtaken(s', k)
  {
    var j :| j in s.keys && s.keys[j].alg == s.keys[k].alg && j in s.born && s.born[j] > s.born[k];
    assert j in s'.keys && s'.keys[j].alg == s'.keys[k].alg && s'.born[j] > s'.born[k];
  }

  /** A waiting worker stays good: no key it made is inserted by another, no new token uses a key it is retiring. */
  lemma PcGrows(s: State, s': State, c: PC)
    requires PcOk(s, c) && Grows(s, s')
    requires Making(c).Some? ==> Making(c).value !in s'.keys
    requires forall tk :: tk in s'.issued && tk !in s.issued && c.Retire? ==> tk.kid !in c.pending
    ensures PcOk(s', c)
  {
    forall k | Overtaken(s, k) ensures Overtaken(s', k) { OvertakenGrows(s, s', k); }
  }

  ghost predicate OnlyMoves(s: State, s': State, w: nat) { forall v :: v != w ==> At(s', v) == At(s, v) }

  /** The clock has moved on since every creation and every issue. */
  ghost predicate Ahead(s: State) {
    && (forall k :: k in s.born ==> s.born[k] < s.clock)
    && (forall tk :: tk in s.issued ==> tk.iat < s.clock)
  }

  lemma WaitersKeep(cfg: Config, s: State, s': State, w: nat)
    requires Inv(cfg, s) && Grows(s, s') && OnlyMoves(s, s', w)
    requires forall k :: k in s'.keys && k !in s.keys ==> Making(At(s, w)) == Some(k)
    requires forall tk :: tk in s'.issued && tk !in s.issued ==>
                            forall v :: v != w && At(s, v).Retire? ==> tk.kid !in At(s, v).pending
    ensures forall v :: v != w ==> PcOk(s', At(s', v))
  {
    forall v | v != w ensures PcOk(s', At(s', v)) {
      assert PcOk(s, At(s, v));
      assert Making(At(s, v)).Some? ==> Making(At(s, w)) != Making(At(s, v));
      PcGrows(s, s', At(s, v));
    }
  }

  lemma MakersKeep(cfg: Config, s: State, s': State, w: nat)
    requires Inv(cfg, s) && OnlyMoves(s, s', w)
    requires Making(At(s', w)).Some? ==> Making(At(s', w)) == Making(At(s, w)) || Making(At(s', w)).value !in s.born
    ensures forall u, v :: u != v && Making(At(s', u)).Some? ==> Making(At(s', v)) != Making(At(s', u))
  {
    forall u, v | u != v && Making(At(s', u)).Some? ensures Making(At(s', v)) != Making(At(s', u)) {
      assert PcOk(s, At(s, u)) && PcOk(s, At(s, v));
    }
  }

  /** A step keeps the invariant when the mover, the keys and the new tokens are good. */
  lemma MoveKeeps(cfg: Config, s: State, s': State, w: nat)
    requires Inv(cfg, s) && Grows(s, s') && OnlyMoves(s, s', w) && PcOk(s', At(s', w))
    requires forall k :: k in s'.keys ==> KeyOk(cfg, s', k)
    requires s'.clock == s.clock && forall k :: k in s'.born && k !in s.born ==> s'.born[k] == s.clock && Ahead(s)
    requires forall j, k :: j in s'.born && k in s'.born && j !in s.born && k !in s.born ==> j == k
    requires forall k :: k in s'.keys && k !in s.keys ==> Making(At(s, w)) == Some(k)
    requires Making(At(s', w)).Some? ==> Making(At(s', w)) == Making(At(s, w)) || Making(At(s', w)).value !in s.born
    requires forall tk :: tk in s'.issued && tk !in s.issued ==>
                            forall v :: v != w && At(s, v).Retire? ==> tk.kid !in At(s, v).pending
    requires forall tk :: tk in s'.issued ==> TokenOk(cfg, s', tk)
    ensures Inv(cfg, s')
  {
    WaitersKeep(cfg, s, s', w);
    MakersKeep(cfg, s, s', w);
  }

  lemma TickKeeps(cfg: Config, s: State, at: int)
    requires Inv(cfg, s) && at > s.clock
    ensures var t := s.(clock := at); Inv(cfg, t) && Ahead(t) && Grows(s, t)
  {
    var t := s.(clock := at);
    forall k | k in t.keys ensures KeyOk(cfg, t, k) {
      assert KeyOk(cfg, s, k);
      if Overtaken(s, k) { OvertakenGrows(s, t, k); }
    }
    forall v ensures PcOk(t, At(t, v)) {
      assert PcOk(s, At(s, v)) && At(t, v) == At(s, v);
      assert Making(At(s, v)).Some? ==> Making(At(s, v)).value !in t.keys;
      PcGrows(s, t, At(s, v));
    }
    forall tk | tk in t.issued ensures TokenOk(cfg, t, tk) { assert TokenOk(cfg, s, tk); }
    forall u, v | u != v && Making(At(t, u)).Some? ensures Making(At(t, v)) != Making(At(t, u)) {
      assert At(t, u) == At(s, u) && At(t, v) == At(s, v);
    }
  }

  /** Only the worker moves. */
  lemma GotoKeeps(cfg: Config, s: State, w: nat, c: PC)
    requires Inv(cfg, s) && PcOk(s, c) && Making(c).None?
    ensures Inv(cfg, Goto(s, w, c)) && Grows(s, Goto(s, w, c))
  {
    var s' := Goto(s, w, c);
    assert Grows(s, s');
    forall k | k in s'.keys ensures KeyOk(cfg, s', k) {
      assert KeyOk(cfg, s, k);
      if Overtaken(s, k) { OvertakenGrows(s, s', k); }
    }
    forall tk | tk in s'.issued ensures TokenOk(cfg, s', tk) { assert TokenOk(cfg, s, tk); }
    PcGrows(s, s', c);
    MoveKeeps(cfg, s, s', w);
  }

  /** A worker makes a key under a fresh id; its creation time is the newest of all. */
  lemma MintKeeps(cfg: Config, s: State, w: nat, kid: nat, c: PC)
    requires Inv(cfg, s) && Ahead(s) && kid !in s.born && Making(c) == Some(kid)
    requires PcOk(Mint(s, w, kid, c), c)
    ensures Inv(cfg, Mint(s, w, kid, c)) && Grows(s, Mint(s, w, kid, c))
  {
    var s' := Mint(s, w, kid, c);
    assert Grows(s, s');
    forall k | k in s'.keys ensures KeyOk(cfg, s', k) {
      assert KeyOk(cfg, s, k);
      if Overtaken(s, k) { OvertakenGrows(s, s', k); }
    }
    forall tk | tk in s'.issued ensures TokenOk(cfg, s', tk) { assert TokenOk(cfg, s, tk); }
    MoveKeeps(cfg, s, s', w);
  }

  /** Inserting a made key overwrites nothing. */
  lemma InsertGrows(cfg: Config, s: State, kid: nat, key: Key, alg: nat)
    requires Inv(cfg, s) && FreshOk(s, kid, key, alg)
    ensures Grows(s, Insert(s, kid, key))
    ensures forall k :: k in Insert(s, kid, key).keys ==> KeyOk(cfg, Insert(s, kid, key), k)
    ensures forall tk :: tk in s.issued ==> TokenOk(cfg, Insert(s, kid, key), tk)
  {
    var s' := Insert(s, kid, key);
    forall k | k in s'.keys ensures KeyOk(cfg, s', k) {
      if k != kid {
        assert KeyOk(cfg, s, k);
        if Overtaken(s, k) { OvertakenGrows(s, s', k); }
      }
    }
    forall tk | tk in s.issued ensures TokenOk(cfg, s', tk) { assert TokenOk(cfg, s, tk); }
  }

  /** Keys stay good in a state that has the same ones. */
  lemma KeysCarry(cfg: Config, s: State, s': State)
    requires Grows(s, s') && s'.keys == s.keys && forall k :: k in s.keys ==> KeyOk(cfg, s, k)
    ensures forall k :: k in s'.keys ==> KeyOk(cfg, s', k)
  {
    forall k | k in s'.keys ensures KeyOk(cfg, s', k) {
      assert KeyOk(cfg, s, k);
      if Overtaken(s, k) { OvertakenGrows(s, s', k); }
    }
  }

  lemma TokensCarry(cfg: Config, s: State, s': State)
    requires Grows(s, s') && s'.keys == s.keys && forall tk :: tk in s.issued ==> TokenOk(cfg, s, tk)
    ensures forall tk :: tk in s.issued ==> TokenOk(cfg, s', tk)
  {
    forall tk | tk in s.issued ensures TokenOk(cfg, s', tk) { assert TokenOk(cfg, s, tk); }
  }

  lemma InsertKeeps(cfg: Config, s: State, w: nat, kid: nat, key: Key, alg: nat, c: PC)
    requires Inv(cfg, s) && Making(At(s, w)) == Some(kid) && FreshOk(s, kid, key, alg)
    requires Making(c).None? && PcOk(Goto(Insert(s, kid, key), w, c), c)
    ensures var s' := Goto(Insert(s, kid, key), w, c); Inv(cfg, s') && Grows(s, s')
  {
    var mid := Insert(s, kid, key);
    var s' := Goto(mid, w, c);
    InsertGrows(cfg, s, kid, key, alg);
    KeysCarry(cfg, mid, s');
    TokensCarry(cfg, mid, s');
    MoveKeeps(cfg, s, s', w);
  }

  // ----- The newest key -----

  /** The key with the greatest creation time among the stored keys of its algorithm. */
  ghost predicate IsLatest(s: State, k: nat) {
    && k in s.keys && k in s.born
    && forall j :: j in s.keys && s.keys[j].alg == s.keys[k].alg && j in s.born ==> s.born[j] <= s.born[k]
  }

  lemma LatestIsActive(cfg: Config, s: State, k: nat)
    requires Inv(cfg, s) && IsLatest(s, k)
    ensures Active(s.keys, s.keys[k].alg, k) && Newest(s.keys, s.keys[k].alg) == Some(k)
  {
    assert KeyOk(cfg, s, k);
    var alg := s.keys[k].alg;
    assert Active(s.keys, alg, k);
    var m := Newest(s.keys, alg).value;
    assert KeyOk(cfg, s, m);
    assert IsNewest(s.keys, alg, m);
  }

  lemma LatestExists(cfg: Config, s: State, alg: nat)
    requires Inv(cfg, s) && exists k :: k in s.keys && s.keys[k].alg == alg
    ensures exists k :: IsLatest(s, k) && s.keys[k].alg == alg
  {
    var k :| k in s.keys && s.keys[k].alg == alg;
    var ks := set j | j in s.keys && s.keys[j].alg == alg;
    assert k in ks;
    Jwks.LatestExists(s.keys, ks);
    var m :| m in ks && forall j :: j in ks && j != m ==> Later(s.keys, m, j);
    assert KeyOk(cfg, s, m);
    forall j | j in s.keys && s.keys[j].alg == s.keys[m].alg && j in s.born ensures s.born[j] <= s.born[m] {
      assert j in ks && KeyOk(cfg, s, j);
      if j != m { assert Later(s.keys, m, j); }
    }
    assert IsLatest(s, m);
  }

  /** The newest active key is the latest of all, so nobody has it on a list to retire. */
  lemma NewestIsNotOvertaken(cfg: Config, s: State, alg: nat)
    requires Inv(cfg, s) && Newest(s.keys, alg).Some?
    ensures !Overtaken(s, Newest(s.keys, alg).value)
  {
    var k := Newest(s.keys, alg).value;
    LatestExists(cfg, s, alg);
    var m :| IsLatest(s, m) && s.keys[m].alg == alg;
    LatestIsActive(cfg, s, m);
  }

  // ----- Every step -----

  lemma DueKeeps(cfg: Config, s: State, w: nat, pick: nat)
    requires Inv(cfg, s) && Ahead(s) && InDue(At(s, w))
    ensures Inv(cfg, DueCall(cfg, s, w, pick)) && Grows(s, DueCall(cfg, s, w, pick))
  {
    var c := At(s, w);
    assert PcOk(s, c);
    if c.DueList? {
      if Newest(s.keys, c.alg).Some? {
        GotoKeeps(cfg, s, w, DueDecide(c.iat, c.alg, s.keys[Newest(s.keys, c.alg).value].created));
      } else { GotoKeeps(cfg, s, w, DueMake(c.iat, c.alg)); }
    } else if c.DueMake? {
      if pick !in s.born { MintKeeps(cfg, s, w, pick, DueInsert(c.iat, c.alg, pick, NewKey(c.alg, s.clock))); }
    } else if c.DueInsert? {
      InsertKeeps(cfg, s, w, c.kid, c.key, c.alg, DueDecide(c.iat, c.alg, c.key.created));
    } else {
      GotoKeeps(cfg, s, w, At(DueCall(cfg, s, w, pick), w));
    }
  }

  lemma MintRotation(cfg: Config, s: State, w: nat, pick: nat)
    requires Inv(cfg, s) && Ahead(s) && At(s, w).RotMake? && pick !in s.born
    ensures Inv(cfg, RotateCall(cfg, s, w, pick)) && Grows(s, RotateCall(cfg, s, w, pick))
  {
    var c := At(s, w);
    assert PcOk(s, c);
    var c' := RotInsert(c.sign, c.alg, c.seen, pick, NewKey(c.alg, s.clock));
    var s' := Mint(s, w, pick, c');
    assert pick in s.keys ==> KeyOk(cfg, s, pick);
    assert SeenOk(s', c.seen);
    assert forall k :: k in c.seen ==> s'.born[k] < s'.born[pick];
    MintKeeps(cfg, s, w, pick, c');
  }

  /** The replacement is stored before the clock is read: everything listed is now overtaken by it. */
  lemma PublishRotation(cfg: Config, s: State, w: nat, pick: nat)
    requires Inv(cfg, s) && At(s, w).RotInsert?
    ensures Inv(cfg, RotateCall(cfg, s, w, pick)) && Grows(s, RotateCall(cfg, s, w, pick))
  {
    var c := At(s, w);
    assert PcOk(s, c);
    var c' := RotStamp(c.sign, c.alg, c.seen);
    var s' := Goto(Insert(s, c.kid, c.key), w, c');
    assert SeenOk(s', c.seen);
    forall k | k in c.seen && Active(c.seen, c.alg, k) ensures Overtaken(s', k) {
      assert c.kid in s'.keys && s'.keys[c.kid].alg == s'.keys[k].alg && s'.born[c.kid] > s'.born[k];
    }
    InsertKeeps(cfg, s, w, c.kid, c.key, c.alg, c');
  }

  lemma StampRotation(cfg: Config, s: State, w: nat, pick: nat)
    requires Inv(cfg, s) && Ahead(s) && At(s, w).RotStamp?
    ensures Inv(cfg, RotateCall(cfg, s, w, pick)) && Grows(s, RotateCall(cfg, s, w, pick))
  {
    var c := At(s, w);
    assert PcOk(s, c);
    var pending: Keys := map k | k in c.seen && Active(c.seen, c.alg, k) :: c.seen[k];
    StampMover(s, c, pending);
    GotoKeeps(cfg, s, w, Retire(c.sign, c.alg, pending, s.clock));
  }

  lemma StampMover(s: State, c: PC, pending: Keys)
    requires Ahead(s) && c.RotStamp? && PcOk(s, c)
    requires pending == map k | k in c.seen && Active(c.seen, c.alg, k) :: c.seen[k]
    ensures PcOk(s, Retire(c.sign, c.alg, pending, s.clock))
  {
    assert forall k :: k in pending ==> Active(pending, c.alg, k);
  }

  /** Retiring an overtaken key leaves every other key alone and stays after the tokens it signed. */
  lemma RetireRows(cfg: Config, s: State, pick: nat, key: Key, stamp: int)
    requires Inv(cfg, s) && Copy(s, pick, key) && Overtaken(s, pick)
    requires forall tk :: tk in s.issued && tk.kid == pick ==> tk.iat < stamp
    ensures var s' := Insert(s, pick, Retired(cfg, key, stamp));
            && Grows(s, s')
            && (forall k :: k in s'.keys ==> KeyOk(cfg, s', k))
            && (forall tk :: tk in s'.issued ==> TokenOk(cfg, s', tk))
  {
    var s' := Insert(s, pick, Retired(cfg, key, stamp));
    assert Grows(s, s');
    forall k | Overtaken(s, k) ensures Overtaken(s', k) { OvertakenGrows(s, s', k); }
    forall k | k in s'.keys ensures KeyOk(cfg, s', k) { assert KeyOk(cfg, s, k); }
    forall tk | tk in s'.issued ensures TokenOk(cfg, s', tk) { assert TokenOk(cfg, s, tk); }
  }

  lemma RetireMover(s: State, s': State, c: PC, pick: nat)
    requires c.Retire? && PcOk(s, c) && Grows(s, s') && s'.issued == s.issued
    ensures PcOk(s', Retire(c.sign, c.alg, c.pending - {pick}, c.stamp))
  {
    var rest := c.pending - {pick};
    forall k | k in rest ensures Copy(s', k, rest[k]) && Active(rest, c.alg, k) && Overtaken(s', k) {
      assert Copy(s, k, c.pending[k]) && Active(c.pending, c.alg, k);
      OvertakenGrows(s, s', k);
    }
  }

  lemma RetireFacts(s: State, c: PC, pick: nat)
    requires c.Retire? && PcOk(s, c) && pick in c.pending
    ensures Copy(s, pick, c.pending[pick]) && Overtaken(s, pick)
    ensures forall tk :: tk in s.issued && tk.kid == pick ==> tk.iat < c.stamp
  {
    assert Active(c.pending, c.alg, pick);
  }

  lemma RetireOne(cfg: Config, s: State, w: nat, pick: nat)
    requires Inv(cfg, s) && At(s, w).Retire? && pick in At(s, w).pending && pick in s.keys
    ensures var c := At(s, w);
            var s' := Goto(Insert(s, pick, Retired(cfg, c.pending[pick], c.stamp)), w,
                           Retire(c.sign, c.alg, c.pending - {pick}, c.stamp));
            Inv(cfg, s') && Grows(s, s')
  {
    var c := At(s, w);
    var mid := Insert(s, pick, Retired(cfg, c.pending[pick], c.stamp));
    RetireFacts(s, c, pick);
    RetireRows(cfg, s, pick, c.pending[pick], c.stamp);
    RetireMover(s, mid, c, pick);
    RetireGoto(cfg, s, mid, w, Retire(c.sign, c.alg, c.pending - {pick}, c.stamp));
  }

  lemma RetireGoto(cfg: Config, s: State, mid: State, w: nat, c: PC)
    requires Inv(cfg, s) && Grows(s, mid) && mid == s.(keys := mid.keys) && mid.keys.Keys == s.keys.Keys
    requires forall k :: k in mid.keys ==> KeyOk(cfg, mid, k)
    requires forall tk :: tk in mid.issued ==> TokenOk(cfg, mid, tk)
    requires c.Retire? && PcOk(mid, c)
    ensures Inv(cfg, Goto(mid, w, c)) && Grows(s, Goto(mid, w, c))
  {
    var s' := Goto(mid, w, c);
    MovedOnly(cfg, mid, w, c);
    MoveKeeps(cfg, s, s', w);
  }

  /** A worker's move changes no key and no token. */
  lemma MovedOnly(cfg: Config, s: State, w: nat, c: PC)
    requires forall k :: k in s.keys ==> KeyOk(cfg, s, k)
    requires forall tk :: tk in s.issued ==> TokenOk(cfg, s, tk)
    requires c.Retire? && PcOk(s, c)
    ensures var s' := Goto(s, w, c);
      && PcOk(s', c)
      && (forall k :: k in s'.keys ==> KeyOk(cfg, s', k)) && (forall tk :: tk in s'.issued ==> TokenOk(cfg, s', tk))
  {
    var s' := Goto(s, w, c);
    forall k | Overtaken(s, k) ensures Overtaken(s', k) { OvertakenGrows(s, s', k); }
    forall k | k in s'.keys ensures KeyOk(cfg, s', k) { assert KeyOk(cfg, s, k); }
    forall tk | tk in s'.issued ensures TokenOk(cfg, s', tk) { assert TokenOk(cfg, s, tk); }
    PcGrows(s, s', c);
  }

  lemma RotateKeeps(cfg: Config, s: State, w: nat, pick: nat)
    requires Inv(cfg, s) && Ahead(s) && InRotation(At(s, w))
    ensures Inv(cfg, RotateCall(cfg, s, w, pick)) && Grows(s, RotateCall(cfg, s, w, pick))
  {
    var c := At(s, w);
    assert PcOk(s, c);
    if c.RotList? {
      assert SeenOk(s, s.keys) by { assert forall k :: k in s.keys ==> KeyOk(cfg, s, k); }
      GotoKeeps(cfg, s, w, RotMake(c.sign, c.alg, s.keys));
    } else if c.RotMake? { if pick !in s.born { MintRotation(cfg, s, w, pick); } }
    else if c.RotInsert? { PublishRotation(cfg, s, w, pick); }
    else if c.RotStamp? { StampRotation(cfg, s, w, pick); }
    else if c.pending == map[] { GotoKeeps(cfg, s, w, if c.sign.Some? then SignList(c.sign.value, c.alg) else Idle); }
    else if pick in c.pending && pick in s.keys { RetireOne(cfg, s, w, pick); }
  }

  /** Signing with a stored key nobody is about to retire. */
  lemma SignKeeps(cfg: Config, s: State, w: nat, kid: nat, iat: int)
    requires Inv(cfg, s) && iat <= s.clock && Making(At(s, w)).None?
    requires kid in s.keys && s.keys[kid].rotatedAt.None? && !Overtaken(s, kid)
    ensures Inv(cfg, Sign(cfg, s, w, kid, iat)) && Grows(s, Sign(cfg, s, w, kid, iat))
  {
    var s' := Sign(cfg, s, w, kid, iat);
    assert Grows(s, s');
    forall k | k in s'.keys ensures KeyOk(cfg, s', k) {
      assert KeyOk(cfg, s, k);
      if Overtaken(s, k) { OvertakenGrows(s, s', k); }
    }
    forall tk | tk in s'.issued ensures TokenOk(cfg, s', tk) { if tk in s.issued { assert TokenOk(cfg, s, tk); } }
    forall tk | tk in s'.issued && tk !in s.issued
      ensures forall v :: v != w && At(s, v).Retire? ==> tk.kid !in At(s, v).pending
    {
      forall v | v != w && At(s, v).Retire? ensures kid !in At(s, v).pending {
        assert PcOk(s, At(s, v));
      }
    }
    MoveKeeps(cfg, s, s', w);
  }

  /** A key that has just been stored is on nobody's list. */
  lemma SignNewKeeps(cfg: Config, s: State, w: nat, kid: nat, key: Key, alg: nat, iat: int)
    requires Inv(cfg, s) && At(s, w) == SignInsert(iat, alg, kid, key)
    ensures var s' := Sign(cfg, Insert(s, kid, key), w, kid, iat); Inv(cfg, s') && Grows(s, s')
  {
    var mid := Insert(s, kid, key);
    var s' := Sign(cfg, mid, w, kid, iat);
    assert PcOk(s, At(s, w));
    InsertGrows(cfg, s, kid, key, alg);
    KeysCarry(cfg, mid, s');
    TokensCarry(cfg, mid, s');
    OnNoList(cfg, s, w, kid);
    MoveKeeps(cfg, s, s', w);
  }

  lemma OnNoList(cfg: Config, s: State, w: nat, kid: nat)
    requires Inv(cfg, s) && kid !in s.keys
    ensures forall v :: v != w && At(s, v).Retire? ==> kid !in At(s, v).pending
  {
    forall v | v != w && At(s, v).Retire? ensures kid !in At(s, v).pending {
      assert PcOk(s, At(s, v));
      assert kid in At(s, v).pending ==> Copy(s, kid, At(s, v).pending[kid]);
    }
  }

  lemma SignCallKeeps(cfg: Config, s: State, w: nat, pick: nat)
    requires Inv(cfg, s) && Ahead(s)
    ensures Inv(cfg, SignCall(cfg, s, w, pick)) && Grows(s, SignCall(cfg, s, w, pick))
  {
    var c := At(s, w);
    assert PcOk(s, c);
    if c.SignList? {
      if Newest(s.keys, c.alg).Some? {
        NewestIsNotOvertaken(cfg, s, c.alg);
        SignKeeps(cfg, s, w, Newest(s.keys, c.alg).value, c.iat);
      } else { GotoKeeps(cfg, s, w, SignMake(c.iat, c.alg)); }
    } else if c.SignMake? {
      if pick !in s.born { MintKeeps(cfg, s, w, pick, SignInsert(c.iat, c.alg, pick, NewKey(c.alg, s.clock))); }
    } else if c.SignInsert? {
      SignNewKeeps(cfg, s, w, c.kid, c.key, c.alg, c.iat);
    }
  }

  lemma NextKeeps(cfg: Config, s: State, e: Event)
    requires Inv(cfg, s)
    ensures Inv(cfg, Next(cfg, s, e)) && Grows(s, Next(cfg, s, e))
  {
    if e.at > s.clock {
      TickKeeps(cfg, s, e.at);
      var t := s.(clock := e.at);
      if e.StartSign? { if At(s, e.w) == Idle { GotoKeeps(cfg, t, e.w, DueList(e.at, e.alg)); } }
      else if e.StartRotate? { if At(s, e.w) == Idle { GotoKeeps(cfg, t, e.w, RotList(None, e.alg)); } }
      else if InDue(At(t, e.w)) { DueKeeps(cfg, t, e.w, e.pick); }
      else if InRotation(At(t, e.w)) { RotateKeeps(cfg, t, e.w, e.pick); }
      else { SignCallKeeps(cfg, t, e.w, e.pick); }
    }
  }

  lemma {:induction false} InvExec(cfg: Config, s: State, es: seq<Event>)
    requires Inv(cfg, s)
    ensures Inv(cfg, Exec(cfg, s, es)) && Grows(s, Exec(cfg, s, es))
    decreases |es|
  {
    if es == [] {
    } else {
      NextKeeps(cfg, s, es[0]);
      InvExec(cfg, Next(cfg, s, es[0]), es[1..]);
    }
  }

  lemma InitInv(cfg: Config)
    ensures Inv(cfg, INIT)
  {
  }

  /**
   Coverage (section 5 of RFC 7517, section 4.1.4 of RFC 7519): in every run, the key that signed a
   token is in the published set at every moment before the token's `exp`, however slow a rotation is
   and however many run at once, as long as the grace period covers the token lifetime.
   */
  lemma Coverage(cfg: Config, es: seq<Event>, tk: Issued, now: int)
    requires Allowed(cfg) && tk in Exec(cfg, INIT, es).issued && now < tk.exp * SECOND
    ensures Published(Exec(cfg, INIT, es).keys, tk.kid, now)
  {
    InitInv(cfg);
    InvExec(cfg, INIT, es);
    var s := Exec(cfg, INIT, es);
    assert TokenOk(cfg, s, tk) && KeyOk(cfg, s, tk.kid);
    assert tk.exp * SECOND <= tk.iat + cfg.ttl * SECOND;
    assert cfg.ttl * SECOND <= cfg.grace * SECOND;
  }

  /**
   Liveness of signing: in every run, once an algorithm has a key, the key made last among the stored
   ones is active, and it is the one every signer chooses.
   */
  lemma NewestNeverRetired(cfg: Config, es: seq<Event>, alg: nat)
    requires exists k :: k in Exec(cfg, INIT, es).keys && Exec(cfg, INIT, es).keys[k].alg == alg
    ensures var s := Exec(cfg, INIT, es);
            && Newest(s.keys, alg).Some?
            && IsLatest(s, Newest(s.keys, alg).value)
            && s.keys[Newest(s.keys, alg).value].rotatedAt.None?
  {
    InitInv(cfg);
    InvExec(cfg, INIT, es);
    var s := Exec(cfg, INIT, es);
    LatestExists(cfg, s, alg);
    var m :| IsLatest(s, m) && s.keys[m].alg == alg;
    LatestIsActive(cfg, s, m);
  }

  /** Once there is an active key there always is one. */
  lemma SigningStaysPossible(cfg: Config, before: seq<Event>, after: seq<Event>, alg: nat)
    requires Newest(Exec(cfg, INIT, before).keys, alg).Some?
    ensures Newest(Exec(cfg, Exec(cfg, INIT, before), after).keys, alg).Some?
  {
    InitInv(cfg);
    InvExec(cfg, INIT, before);
    var s := Exec(cfg, INIT, before);
    InvExec(cfg, s, after);
    var k := Newest(s.keys, alg).value;
    var t := Exec(cfg, s, after);
    assert k in t.keys && t.keys[k].alg == alg;
    LatestExists(cfg, t, alg);
    var m :| IsLatest(t, m) && t.keys[m].alg == alg;
    LatestIsActive(cfg, t, m);
  }
}
