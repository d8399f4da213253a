/** API-key verification: the gates a presented key passes, its quota and its refill. Times are microseconds. */
module ApiKeys {
  import opened Prelude
  import opened RateLimits

  type Permissions = map<string, seq<string>>

  datatype ApiKey = ApiKey(
    id: string,
    keyHash: string,
    enabled: bool,
    expiresAt: Option<int>,
    remaining: Option<int>,
    refillAmount: Option<int>,
    refillIntervalMs: Option<int>,
    rateLimitEnabled: bool,
    rateLimitMax: Option<int>,
    rateLimitWindowMs: Option<int>,
    lastRefillAt: Option<int>,
    lastRequestAt: Option<int>,
    requestCount: int,
    permissions: Permissions)

  datatype Verdict =
    | InvalidKey
    | Denied(code: string)
    | KeyExpired
    | RateLimited
    | InsufficientPermissions
    | QuotaExhausted
    | Valid(key: ApiKey)

  // ----- Encoding -----

  function EncodeApiKey(prefix: string, plain: string): string { prefix + plain }

  function SplitApiKey(value: string, prefix: string): Option<string> {
    if prefix <= value then Some(value[|prefix|..]) else None
  }

  /** Splitting inverts encoding, and only an encoded key splits. */
  lemma SplitInvertsEncode(value: string, prefix: string, plain: string)
    ensures SplitApiKey(value, prefix) == Some(plain) <==> value == EncodeApiKey(prefix, plain)
  {
    if prefix <= value { assert value == value[..|prefix|] + value[|prefix|..]; }
    assert EncodeApiKey(prefix, plain)[|prefix|..] == plain;
  }

  // ----- One visit -----

  /**
   What one call brings: the clock, the policy's refusal if any, the rate limiter's count, the permissions asked for.
   */
  datatype Visit = Visit(now: int, refusal: Option<string>, hits: int, requested: Option<Permissions>)

  predicate Expired(k: ApiKey, now: int) { k.expiresAt.Some? && k.expiresAt.value < now }

  predicate Limited(k: ApiKey) { k.rateLimitEnabled && k.rateLimitMax.Some? && k.rateLimitWindowMs.Some? }

  predicate OverLimit(k: ApiKey, hits: int) { Limited(k) && hits > k.rateLimitMax.value }

  predicate RefillDue(k: ApiKey, now: int) {
    && k.refillAmount.Some? && k.refillIntervalMs.Some? && k.lastRefillAt.Some?
    && now - k.lastRefillAt.value >= k.refillIntervalMs.value * 1000
  }

  function Refilled(k: ApiKey, now: int): ApiKey {
    if RefillDue(k, now) then k.(remaining := k.refillAmount, lastRefillAt := Some(now)) else k
  }

  predicate GrantsAll(granted: Permissions, resource: string, actions: seq<string>) {
    forall a :: a in actions ==> resource in granted && a in granted[resource]
  }

  predicate Grants(granted: Permissions, requested: Permissions) {
    forall r :: r in requested ==> GrantsAll(granted, r, requested[r])
  }

  predicate Permitted(k: ApiKey, requested: Option<Permissions>) {
    requested.Some? ==> Grants(k.permissions, requested.value)
  }

  function Counted(k: ApiKey, now: int): ApiKey { k.(requestCount := k.requestCount + 1, lastRequestAt := Some(now)) }

  function Spend(k: ApiKey): ApiKey { if k.remaining.Some? then k.(remaining := Some(k.remaining.value - 1)) else k }

  /** The answer to one visit, and the row it leaves stored. */
  function Judge(k: ApiKey, v: Visit): (Verdict, ApiKey) {
    if !k.enabled then (InvalidKey, k)
    else if v.refusal.Some? then (Denied(v.refusal.value), k)
    else if Expired(k, v.now) then (KeyExpired, k)
    else if OverLimit(k, v.hits) then (RateLimited, Counted(k, v.now))
    else Charge(k, v.now, v.requested)
  }

  /** The last gates: permissions, then the quota as it is after any refill that is due. */
  function Charge(k: ApiKey, now: int, requested: Option<Permissions>): (Verdict, ApiKey) {
    if Permitted(k, requested) then Used(Refilled(k, now), now) else (InsufficientPermissions, k)
  }

  function Used(k: ApiKey, now: int): (Verdict, ApiKey) {
    if k.remaining.Some? && k.remaining.value <= 0 then (QuotaExhausted, Counted(k, now))
    else (Valid(Counted(Spend(k), now)), Counted(Spend(k), now))
  }

  /**
   The verdict, gate by gate: the key must be enabled, its owner allowed, the key not past its expiry, the rate limit
   not passed, every action asked for granted, and the quota, as a due refill leaves it, not used up.
   */
  lemma VerdictExactly(k: ApiKey, v: Visit)
    ensures var verdict := Judge(k, v).0;
            var late := k.expiresAt.Some? && k.expiresAt.value < v.now;
            var limited := k.rateLimitEnabled && k.rateLimitMax.Some? && k.rateLimitWindowMs.Some?
                           && v.hits > k.rateLimitMax.value;
            var granted := v.requested.Some? ==>
              forall r :: r in v.requested.value ==>
                forall a :: a in v.requested.value[r] ==> r in k.permissions && a in k.permissions[r];
            var due := k.refillAmount.Some? && k.refillIntervalMs.Some? && k.lastRefillAt.Some?
                       && v.now - k.lastRefillAt.value >= k.refillIntervalMs.value * 1000;
            var left := if due then k.refillAmount.value > 0 else k.remaining.Some? ==> k.remaining.value > 0;
            && (verdict.InvalidKey? <==> !k.enabled)
            && (verdict.Denied? <==> k.enabled && v.refusal.Some?)
            && (verdict.KeyExpired? <==> k.enabled && v.refusal.None? && late)
            && (verdict.RateLimited? <==> k.enabled && v.refusal.None? && !late && limited)
            && (verdict.InsufficientPermissions? <==> k.enabled && v.refusal.None? && !late && !limited && !granted)
            && (verdict.QuotaExhausted? <==> k.enabled && v.refusal.None? && !late && !limited && granted && !left)
            && (verdict.Valid? <==> k.enabled && v.refusal.None? && !late && !limited && granted && left)
  {
  }

  /**
   The row left stored: a valid answer spends one unit, of the refilled quota if a refill is due; an exhausted one
   keeps a due refill; those two and a rate-limited one are counted and dated; every other verdict stores nothing.
   */
  lemma StoredExactly(k: ApiKey, v: Visit)
    ensures var (verdict, after) := Judge(k, v);
            var due := k.refillAmount.Some? && k.refillIntervalMs.Some? && k.lastRefillAt.Some?
                       && v.now - k.lastRefillAt.value >= k.refillIntervalMs.value * 1000;
            var quota := if due then k.refillAmount else k.remaining;
            if verdict.Valid? || verdict.QuotaExhausted? then
              && after == k.(remaining := after.remaining, lastRefillAt := after.lastRefillAt,
                             requestCount := k.requestCount + 1, lastRequestAt := Some(v.now))
              && after.lastRefillAt == (if due then Some(v.now) else k.lastRefillAt)
              && after.remaining == (if verdict.Valid? && quota.Some? then Some(quota.value - 1) else quota)
              && (verdict.Valid? ==> verdict.key == after)
            else if verdict.RateLimited? then
              after == k.(requestCount := k.requestCount + 1, lastRequestAt := Some(v.now))
            else after == k
  {
  }

  /** The resources of a request some of whose actions are not granted. */
  method MissingPermissions(granted: Permissions, requested: Permissions) returns (missing: set<string>)
    ensures missing == {} <==> Grants(granted, requested)
  {
    missing := {};
    var todo := requested.Keys;
    while todo != {}
      invariant todo <= requested.Keys
      invariant missing == {} <==>
                forall r :: r in requested && r !in todo ==> GrantsAll(granted, r, requested[r])
      decreases |todo|
    {
      var r :| r in todo;
      var allowed := if r in granted then granted[r] else [];
      if exists a :: a in requested[r] && a !in allowed { missing := missing + {r}; }
      todo := todo - {r};
    }
  }

  /** The verdict, the stored rows and the rate-limit buckets after a call that found `row`. */
  ghost predicate Answers(row: ApiKey, now: int, refusal: Option<string>, requested: Option<Permissions>,
                          keys: map<string, ApiKey>, buckets: Buckets,
                          verdict: Verdict, newKeys: map<string, ApiKey>, newBuckets: Buckets) {
    var window := if Limited(row) then row.rateLimitWindowMs.value else 0;
    var hit := Hit(Find(buckets, RateKey(row)), window, now / 1000);
    && verdict == Judge(row, Visit(now, refusal, hit.count, requested)).0
    && newKeys == keys[row.id := Judge(row, Visit(now, refusal, hit.count, requested)).1]
    && newBuckets == if row.enabled && refusal.None? && !Expired(row, now) && Limited(row)
                     then buckets[RateKey(row) := hit] else buckets
  }

  function RateKey(k: ApiKey): string { "api-key:" + k.id }

  /** Every key has its own bucket, apart from those of the request limiter and of the lockouts. */
  lemma RateKeysDiffer(a: ApiKey, b: ApiKey, ip: string, path: string, identifier: string)
    ensures RateKey(a) == RateKey(b) <==> a.id == b.id
    ensures RateKey(a) != "ip:" + ip + ":" + path && RateKey(a) != LockoutKey(identifier)
  {
    assert RateKey(a)[8..] == a.id && RateKey(b)[8..] == b.id;
    assert RateKey(a)[0] == 'a' && ("ip:" + ip + ":" + path)[0] == 'i' && LockoutKey(identifier)[0] == 'l';
  }

  class ApiKeyPlugin {
    const prefix: string
    const storage: MemoryRateLimitStorage
    var keys: map<string, ApiKey>

    /** Rows are filed under their ids; hashes identify keys. */
    ghost predicate Consistent()
      reads this
    {
      && (forall id :: id in keys ==> keys[id].id == id)
      && (forall a, b :: a in keys && b in keys && keys[a].keyHash == keys[b].keyHash ==> a == b)
    }

    constructor (prefix: string, storage: MemoryRateLimitStorage)
      ensures Consistent() && keys == map[] && this.prefix == prefix && this.storage == storage
    {
      this.prefix, this.storage, keys := prefix, storage, map[];
    }

    method GetByHash(hash: string) returns (found: Option<ApiKey>)
      requires Consistent()
      ensures found.Some? ==>
              found.value.id in keys && keys[found.value.id] == found.value && found.value.keyHash == hash
      ensures found.None? ==> forall id :: id in keys ==> keys[id].keyHash != hash
    {
      var todo := keys.Keys;
      while todo != {}
        invariant todo <= keys.Keys
        invariant forall id :: id in keys && id !in todo ==> keys[id].keyHash != hash
        decreases |todo|
      {
        var id :| id in todo;
        if keys[id].keyHash == hash { return Some(keys[id]); }
        todo := todo - {id};
      }
      return None;
    }

    /** The answer for a key whose row was found. */
    method Judged(row: ApiKey, now: int, refusal: Option<string>,
                  requested: Option<Permissions>) returns (verdict: Verdict)
      requires Consistent() && row.id in keys && keys[row.id] == row
      modifies this, storage
      ensures Consistent()
      ensures Answers(row, now, refusal, requested, old(keys), old(storage.state), verdict, keys, storage.state)
    {
      var k := row;
      if !k.enabled { return InvalidKey; }
      if refusal.Some? { return Denied(refusal.value); }
      if k.expiresAt.Some? && k.expiresAt.value < now { return KeyExpired; }
      if k.rateLimitEnabled && k.rateLimitMax.Some? && k.rateLimitWindowMs.Some? {
        var count, _ := storage.Increment(RateKey(k), k.rateLimitWindowMs.value, now / 1000);
        if count > k.rateLimitMax.value {
          k := k.(requestCount := k.requestCount + 1, lastRequestAt := Some(now));
          keys := keys[k.id := k];
          return RateLimited;
        }
      }
      verdict := Admitted(k, now, requested);
    }

    method Admitted(row: ApiKey, now: int, requested: Option<Permissions>) returns (verdict: Verdict)
      requires Consistent() && row.id in keys && keys[row.id] == row
      modifies this
      ensures Consistent()
      ensures (verdict, keys) == (Charge(row, now, requested).0, old(keys)[row.id := Charge(row, now, requested).1])
    {
      assert keys[row.id := row] == keys;
      var k := row;
      if k.refillAmount.Some? && k.refillIntervalMs.Some? && k.lastRefillAt.Some?
         && now - k.lastRefillAt.value >= k.refillIntervalMs.value * 1000 {
        k := k.(remaining := k.refillAmount, lastRefillAt := Some(now));
      }
      if requested.Some? {
        var missing := MissingPermissions(k.permissions, requested.value);
        if missing != {} { return InsufficientPermissions; }
      }
      verdict := Use(k, now);
    }

    /** Spends the quota of a row whose refill is settled, and stores it. */
    method Use(row: ApiKey, now: int) returns (verdict: Verdict)
      requires Consistent() && row.id in keys && keys[row.id].keyHash == row.keyHash
      modifies this
      ensures Consistent()
      ensures (verdict, keys) == (Used(row, now).0, old(keys)[row.id := Used(row, now).1])
    {
      var k := row;
      if k.remaining.Some? {
        if k.remaining.value <= 0 {
          k := k.(requestCount := k.requestCount + 1, lastRequestAt := Some(now));
          keys := keys[k.id := k];
          return QuotaExhausted;
        }
        k := k.(remaining := Some(k.remaining.value - 1));
      }
      k := k.(requestCount := k.requestCount + 1, lastRequestAt := Some(now));
      keys := keys[k.id := k];
      return Valid(k);
    }

    /** `hash` is the hash function; `refusal` is what the policy answers for the key's owner. */
    method VerifyKey(value: string, hash: string -> string, now: int, refusal: Option<string>,
                     requested: Option<Permissions>) returns (verdict: Verdict)
      requires Consistent()
      modifies this, storage
      ensures Consistent()
      ensures SplitApiKey(value, prefix).None?
              || (forall id :: id in old(keys) ==> old(keys)[id].keyHash != hash(SplitApiKey(value, prefix).value)) ==>
                verdict == InvalidKey && keys == old(keys) && storage.state == old(storage.state)
      ensures SplitApiKey(value, prefix).Some? ==>
                forall id :: id in old(keys) && old(keys)[id].keyHash == hash(SplitApiKey(value, prefix).value) ==>
                  Answers(old(keys)[id], now, refusal, requested, old(keys), old(storage.state), verdict, keys,
                    storage.state)
    {
      var plain := SplitApiKey(value, prefix);
      if plain.None? { return InvalidKey; }
      var found := GetByHash(hash(plain.value));
      if found.None? { return InvalidKey; }
      verdict := Judged(found.value, now, refusal, requested);
    }
  }

  // ----- Runs of visits to one key -----

  function Run(k: ApiKey, vs: seq<Visit>): ApiKey
    decreases |vs|
  {
    if vs == [] then k else Judge(Run(k, vs[..|vs| - 1]), vs[|vs| - 1]).1
  }

  function ValidCount(k: ApiKey, vs: seq<Visit>): nat
    decreases |vs|
  {
    if vs == [] then 0
    else ValidCount(k, vs[..|vs| - 1]) + if Judge(Run(k, vs[..|vs| - 1]), vs[|vs| - 1]).0.Valid? then 1 else 0
  }

  /** Refills that reach the stored row: one that a missing permission follows is forgotten. */
  function RefillCount(k: ApiKey, vs: seq<Visit>): nat
    decreases |vs|
  {
    if vs == [] then 0
    else
      var before := Run(k, vs[..|vs| - 1]);
      var judged := Judge(before, vs[|vs| - 1]);
      RefillCount(k, vs[..|vs| - 1])
      + if RefillDue(before, vs[|vs| - 1].now) && (judged.0.Valid? || judged.0.QuotaExhausted?) then 1 else 0
  }

  predicate InOrder(from: int, vs: seq<Visit>) {
    && (forall i :: 0 <= i < |vs| ==> from <= vs[i].now)
    && (forall i, j :: 0 <= i <= j < |vs| ==> vs[i].now <= vs[j].now)
  }

  /** As created: a finite quota, and either no refill or one whose interval starts at creation. */
  predicate Created(k: ApiKey, at: int) {
    && k.remaining.Some? && k.remaining.value >= 0
    && (k.refillAmount.Some? <==> k.refillIntervalMs.Some?)
    && (k.refillAmount.Some? ==>
         k.refillAmount.value >= 1 && k.refillIntervalMs.value > 0 && k.lastRefillAt == Some(at))
  }

  predicate SameTerms(a: ApiKey, b: ApiKey) {
    && a.refillAmount == b.refillAmount && a.refillIntervalMs == b.refillIntervalMs
    && (a.lastRefillAt.Some? <==> b.lastRefillAt.Some?)
  }

  /**
   One visit: a valid answer costs one unit of whatever the quota is after a due refill, and nothing else costs
   anything.
   */
  lemma VisitCosts(k: ApiKey, v: Visit)
    requires k.remaining.Some?
    ensures var (verdict, after) := Judge(k, v);
      && SameTerms(after, k) && after.remaining.Some?
      && (k.remaining.value >= 0 && (k.refillAmount.Some? ==> k.refillAmount.value >= 0) ==> after.remaining.value >= 0)
      && (if verdict.Valid? || verdict.QuotaExhausted?
          then after.remaining.value == Refilled(k, v.now).remaining.value - (if verdict.Valid? then 1 else 0)
               && after.lastRefillAt == Refilled(k, v.now).lastRefillAt
          else after.remaining == k.remaining && after.lastRefillAt == k.lastRefillAt)
  {
  }

  function Amount(k: ApiKey): int { if k.refillAmount.Some? then k.refillAmount.value else 0 }

  /** What the quota of `k` and the refills of a run have paid for. */
  ghost predicate Budget(k: ApiKey, at: int, vs: seq<Visit>)
    requires Created(k, at)
  {
    var after := Run(k, vs);
    && SameTerms(after, k) && after.remaining.Some? && after.remaining.value >= 0
    && ValidCount(k, vs) + after.remaining.value <= k.remaining.value + RefillCount(k, vs) * Amount(k)
    && (k.refillAmount.None? ==> RefillCount(k, vs) == 0)
    && (k.refillAmount.Some? ==>
          RefillCount(k, vs) * (k.refillIntervalMs.value * 1000) <= after.lastRefillAt.value - at
          && after.lastRefillAt.value <= Latest(at, vs))
  }

  function Latest(at: int, vs: seq<Visit>): int { if vs == [] then at else vs[|vs| - 1].now }

  lemma BudgetStep(k: ApiKey, at: int, vs: seq<Visit>)
    requires Created(k, at) && vs != [] && Budget(k, at, vs[..|vs| - 1])
    requires Latest(at, vs[..|vs| - 1]) <= vs[|vs| - 1].now
    ensures Budget(k, at, vs)
  {
    var pre, v := vs[..|vs| - 1], vs[|vs| - 1];
    var before := Run(k, pre);
    VisitCosts(before, v);
    var n := RefillCount(k, pre);
    if RefillCount(k, vs) != n {
      OneMore(n, Amount(k));
      OneMore(n, k.refillIntervalMs.value * 1000);
    }
  }

  lemma OneMore(n: int, c: int)
    ensures (n + 1) * c == n * c + c
  {
  }

  lemma {:induction false} BudgetHolds(k: ApiKey, at: int, vs: seq<Visit>)
    requires Created(k, at) && InOrder(at, vs)
    ensures Budget(k, at, vs)
    decreases |vs|
  {
    if vs == [] {
    } else {
      BudgetHolds(k, at, vs[..|vs| - 1]);
      BudgetStep(k, at, vs);
    }
  }

  /** One refill amount for every whole interval of an elapsed time. */
  function Refillable(k: ApiKey, elapsed: int): int
    requires k.refillAmount.Some? ==> k.refillIntervalMs.Some? && k.refillIntervalMs.value > 0
  {
    if k.refillAmount.Some? then (elapsed / (k.refillIntervalMs.value * 1000)) * k.refillAmount.value else 0
  }

  /**
   The quota bound: on a key created with a finite quota at `at`, the valid answers by the time of the last visit
   number at most the initial quota plus one refill amount for every whole interval elapsed.
   */
  lemma QuotaBound(k: ApiKey, at: int, vs: seq<Visit>, now: int)
    requires Created(k, at) && InOrder(at, vs) && at <= now && (vs != [] ==> vs[|vs| - 1].now <= now)
    ensures ValidCount(k, vs) <= k.remaining.value + Refillable(k, now - at)
  {
    BudgetHolds(k, at, vs);
    if k.refillAmount.Some? {
      var n, interval := RefillCount(k, vs), k.refillIntervalMs.value * 1000;
      assert Run(k, vs).lastRefillAt.value <= now;
      AtMostQuotient(n, interval, now - at);
      Monotone(n, (now - at) / interval, k.refillAmount.value);
    }
  }

  lemma AtMostQuotient(n: nat, d: int, t: int)
    requires d > 0 && n * d <= t
    ensures n <= t / d
  {
    if n > t / d { Monotone(t / d + 1, n, d); }
  }

  lemma Monotone(a: int, b: int, c: int)
    requires a <= b && c >= 0
    ensures a * c <= b * c
  {
  }

  /** While no refill is stored, quota is conserved: what was spent is exactly what was answered valid. */
  lemma {:induction false} QuotaConserved(k: ApiKey, vs: seq<Visit>)
    requires k.remaining.Some? && RefillCount(k, vs) == 0
    ensures Run(k, vs).remaining.Some? && Run(k, vs).remaining.value + ValidCount(k, vs) == k.remaining.value
    decreases |vs|
  {
    if vs == [] {
    } else {
      QuotaConserved(k, vs[..|vs| - 1]);
      VisitCosts(Run(k, vs[..|vs| - 1]), vs[|vs| - 1]);
    }
  }

  /** A key without a quota has none until its first stored refill, and then never loses it. */
  lemma {:induction false} UnlimitedUntilRefill(k: ApiKey, vs: seq<Visit>)
    requires k.remaining.None?
    ensures Run(k, vs).remaining.None? <==> RefillCount(k, vs) == 0
    decreases |vs|
  {
    if vs == [] {
    } else {
      UnlimitedUntilRefill(k, vs[..|vs| - 1]);
    }
  }

  /** Visits that get as far as the quota or are rate limited are the ones counted. */
  function CountedVisits(k: ApiKey, vs: seq<Visit>): nat
    decreases |vs|
  {
    if vs == [] then 0
    else
      var verdict := Judge(Run(k, vs[..|vs| - 1]), vs[|vs| - 1]).0;
      CountedVisits(k, vs[..|vs| - 1])
      + if verdict.Valid? || verdict.QuotaExhausted? || verdict.RateLimited? then 1 else 0
  }

  lemma {:induction false} RequestsCounted(k: ApiKey, vs: seq<Visit>)
    ensures Run(k, vs).requestCount == k.requestCount + CountedVisits(k, vs)
    decreases |vs|
  {
    if vs == [] {
    } else {
      RequestsCounted(k, vs[..|vs| - 1]);
    }
  }
}
