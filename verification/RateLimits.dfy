/** Fixed-window counters: the in-memory storage, the locked Postgres rekey, the request limiter and account lockout. */
module RateLimits {
  import opened Prelude

  /** A window's hit count and its first instant, in milliseconds. */
  datatype Bucket = Bucket(count: int, start: int)

  type Buckets = map<string, Bucket>

  predicate Active(b: Bucket, window: int, now: int) { b.start + window > now }

  /** Ordered by count, then by start. */
  predicate AtLeast(a: Bucket, b: Bucket) { a.count > b.count || (a.count == b.count && a.start >= b.start) }

  function Hit(b: Option<Bucket>, window: int, now: int): Bucket {
    if b.None? || !Active(b.value, window, now) then Bucket(1, now) else Bucket(b.value.count + 1, b.value.start)
  }

  /** Only buckets whose window is still open take part in a merge. */
  function Open(b: Option<Bucket>, window: int, now: int): Option<Bucket> {
    if b.Some? && Active(b.value, window, now) then b else None
  }

  function Stricter(a: Option<Bucket>, b: Option<Bucket>): Option<Bucket> {
    if a.None? then b
    else if b.None? then a
    else if AtLeast(a.value, b.value) then a else b
  }

  function Rekeyed(st: Buckets, oldKey: string, newKey: string, window: int, now: int): Buckets {
    match Stricter(Open(Find(st, oldKey), window, now), Open(Find(st, newKey), window, now))
    case Some(b) => st[newKey := b] - {oldKey}
    case None => st - {newKey, oldKey}
  }

  class MemoryRateLimitStorage {
    var state: Buckets

    constructor ()
      ensures state == map[]
    {
      state := map[];
    }

    method Increment(key: string, window: int, now: int) returns (count: int, start: int)
      modifies this
      ensures state == old(state)[key := Hit(Find(old(state), key), window, now)]
      ensures Bucket(count, start) == state[key]
    {
      var updated;
      if key !in state || state[key].start + window <= now {
        updated := Bucket(1, now);
      } else {
        updated := Bucket(state[key].count + 1, state[key].start);
      }
      state := state[key := updated];
      return updated.count, updated.start;
    }

    method Rekey(oldKey: string, newKey: string, window: int, now: int)
      modifies this
      ensures state == Rekeyed(old(state), oldKey, newKey, window, now)
    {
      var active := [];
      if oldKey in state && state[oldKey].start + window > now { active := active + [state[oldKey]]; }
      if newKey in state && state[newKey].start + window > now { active := active + [state[newKey]]; }
      if active != [] {
        var selected := MaxBucket(active);
        assert active[0] in active && active[|active| - 1] in active;
        state := state[newKey := selected];
      } else {
        state := state - {newKey};
      }
      state := state - {oldKey};
    }

    method Delete(key: string)
      modifies this
      ensures state == old(state) - {key}
    {
      state := state - {key};
    }
  }

  /** The greatest bucket by (count, start). */
  method MaxBucket(bs: seq<Bucket>) returns (best: Bucket)
    requires bs != []
    ensures best in bs && forall b :: b in bs ==> AtLeast(best, b)
  {
    best := bs[0];
    var i := 1;
    while i < |bs|
      invariant 1 <= i <= |bs| && best in bs
      invariant forall j :: 0 <= j < i ==> AtLeast(best, bs[j])
    {
      if !AtLeast(best, bs[i]) { best := bs[i]; }
      i := i + 1;
    }
  }

  /** One transaction: materialize the destination, lock both rows, keep the stricter open one. */
  class PostgresRateLimits {
    var rows: Buckets

    constructor ()
      ensures rows == map[]
    {
      rows := map[];
    }

    method Rekey(oldKey: string, newKey: string, window: int, now: int)
      modifies this
      ensures rows == Rekeyed(old(rows), oldKey, newKey, window, now)
    {
      if newKey !in rows { rows := rows[newKey := Bucket(0, now - window)]; }
      var active := [];
      if oldKey in rows && rows[oldKey].start + window > now { active := active + [rows[oldKey]]; }
      if newKey != oldKey && rows[newKey].start + window > now { active := active + [rows[newKey]]; }
      if active != [] {
        var selected := MaxBucket(active);
        assert active[0] in active && active[|active| - 1] in active;
        rows := rows[newKey := selected];
      } else {
        rows := rows - {newKey};
      }
      rows := rows - {oldKey};
    }
  }

  // ----- The request limiter -----

  /** A window length in microseconds, as a timedelta holds it. */
  datatype RateLimitRule = RateLimitRule(path: string, window: int, maxRequests: int)

  datatype Rule = Rule(seconds: int, maxRequests: int)

  /** int() of a number of seconds drops the fraction, toward zero. */
  function WholeSeconds(micros: int): int {
    if micros >= 0 then micros / 1000000 else -(-micros / 1000000)
  }

  const DEFAULT_STRICT_RULES: map<string, Rule> := map[
    "/sign-in/email" := Rule(10, 3),
    "/sign-in/username" := Rule(10, 3),
    "/send-verification-email" := Rule(60, 5),
    "/forgot-password" := Rule(60, 5),
    "/reset-password" := Rule(10, 3)]

  /** The last rule a plugin list gives for a path. */
  function PluginRule(rules: seq<RateLimitRule>, path: string): Option<Rule>
    decreases |rules|
  {
    if rules == [] then None
    else
      var r := rules[|rules| - 1];
      if r.path == path then Some(Rule(WholeSeconds(r.window), r.maxRequests))
      else PluginRule(rules[..|rules| - 1], path)
  }

  /** Plugin rules come before the strict defaults, and those before the configured default. */
  function EffectiveRule(plugins: seq<RateLimitRule>, fallback: Rule, path: string): Rule {
    if PluginRule(plugins, path).Some? then PluginRule(plugins, path).value
    else if path in DEFAULT_STRICT_RULES then DEFAULT_STRICT_RULES[path]
    else fallback
  }

  lemma {:induction false} LastPluginRule(rules: seq<RateLimitRule>, path: string, i: nat)
    requires i < |rules| && rules[i].path == path && forall j :: i < j < |rules| ==> rules[j].path != path
    ensures PluginRule(rules, path) == Some(Rule(WholeSeconds(rules[i].window), rules[i].maxRequests))
    decreases |rules|
  {
    if i == |rules| - 1 {
    } else {
      LastPluginRule(rules[..|rules| - 1], path, i);
    }
  }

  lemma {:induction false} NoPluginRule(rules: seq<RateLimitRule>, path: string)
    requires forall j :: 0 <= j < |rules| ==> rules[j].path != path
    ensures PluginRule(rules, path) == None
    decreases |rules|
  {
    if rules == [] {
    } else {
      NoPluginRule(rules[..|rules| - 1], path);
    }
  }

  /** A path with a plugin rule gets the last one given for it, in whole seconds, whatever the defaults say. */
  lemma PluginRuleWins(rules: seq<RateLimitRule>, fallback: Rule, path: string, i: nat)
    requires i < |rules| && rules[i].path == path && forall j :: i < j < |rules| ==> rules[j].path != path
    ensures var rule := EffectiveRule(rules, fallback, path);
            && rule.maxRequests == rules[i].maxRequests
            && (rules[i].window >= 0 ==> rule.seconds * 1000000 <= rules[i].window < (rule.seconds + 1) * 1000000)
            && (rules[i].window < 0 ==> (rule.seconds - 1) * 1000000 < rules[i].window <= rule.seconds * 1000000)
  {
    LastPluginRule(rules, path, i);
  }

  /** Without a plugin rule, the sensitive paths have their strict rules, and any other path the configured one. */
  lemma DefaultRules(rules: seq<RateLimitRule>, fallback: Rule, path: string)
    requires forall j :: 0 <= j < |rules| ==> rules[j].path != path
    ensures EffectiveRule(rules, fallback, path)
         == if path == "/sign-in/email" || path == "/sign-in/username" || path == "/reset-password" then Rule(10, 3)
            else if path == "/send-verification-email" || path == "/forgot-password" then Rule(60, 5)
            else fallback
  {
    NoPluginRule(rules, path);
  }

  function Max(a: int, b: int): int { if a >= b then a else b }

  class RateLimiter {
    const enabled: bool
    const fallback: Rule
    const storage: MemoryRateLimitStorage
    const pluginRules: map<string, Rule>
    ghost const plugins: seq<RateLimitRule>

    ghost predicate Valid()
    {
      forall path :: PluginRule(plugins, path) == Find(pluginRules, path)
    }

    constructor (enabled: bool, fallback: Rule, storage: MemoryRateLimitStorage, rules: seq<RateLimitRule>)
      ensures Valid() && this.enabled == enabled && this.fallback == fallback && this.storage == storage &&
              plugins == rules
    {
      this.enabled, this.fallback, this.storage, plugins := enabled, fallback, storage, rules;
      var table: map<string, Rule> := map[];
      for i := 0 to |rules|
        invariant forall path :: PluginRule(rules[..i], path) == Find(table, path)
      {
        table := table[rules[i].path := Rule(WholeSeconds(rules[i].window), rules[i].maxRequests)];
        assert rules[..i + 1][..i] == rules[..i];
      }
      assert rules[..|rules|] == rules;
      pluginRules := table;
    }

    method RuleFor(path: string) returns (rule: Rule)
      requires Valid()
      ensures rule == EffectiveRule(plugins, fallback, path)
    {
      if path in pluginRules { return pluginRules[path]; }
      if path in DEFAULT_STRICT_RULES { return DEFAULT_STRICT_RULES[path]; }
      return fallback;
    }

    /**
     None lets the request through; Some(s) is the error asking to retry after s seconds. `ip` is the normalised
     address, when there is one.
     */
    method Check(path: string, ip: Option<string>, now: int) returns (retryAfter: Option<int>)
      requires Valid()
      modifies storage
      ensures !enabled || ip.None? ==> retryAfter.None? && storage.state == old(storage.state)
      ensures enabled && ip.Some? ==>
                var rule := EffectiveRule(plugins, fallback, path);
                var key := "ip:" + ip.value + ":" + path;
                var hit := Hit(Find(old(storage.state), key), rule.seconds * 1000, now);
                && storage.state == old(storage.state)[key := hit]
                && (retryAfter.None? <==> hit.count <= rule.maxRequests)
                && (retryAfter.Some? ==> RetryFits(retryAfter.value, hit.start + rule.seconds * 1000 - now))
    {
      if !enabled || ip.None? { return None; }
      var rule := RuleFor(path);
      var key := "ip:" + ip.value + ":" + path;
      var count, start := storage.Increment(key, rule.seconds * 1000, now);
      if count > rule.maxRequests {
        return Some(Max(1, (start + rule.seconds * 1000 - now) / 1000));
      }
      return None;
    }
  }

  /** The announced wait is the whole seconds left of the window, and at least one. */
  predicate RetryFits(retryAfter: int, remainingMs: int) {
    if remainingMs < 1000 then retryAfter == 1 else retryAfter * 1000 <= remainingMs < (retryAfter + 1) * 1000
  }

  /** So less than one second more than announced is left. */
  lemma RetryCovers(retryAfter: int, remainingMs: int)
    requires RetryFits(retryAfter, remainingMs)
    ensures retryAfter >= 1 && remainingMs < (retryAfter + 1) * 1000
  {
  }

  // ----- Account lockout -----

  function LockoutKey(identifier: string): string { "lockout:" + identifier }

  lemma LockoutKeyInjective(a: string, b: string)
    ensures LockoutKey(a) == LockoutKey(b) ==> a == b
  {
    assert LockoutKey(a)[8..] == a && LockoutKey(b)[8..] == b;
  }

  /** Locked from the failure past the limit until the window closes. */
  predicate Locked(b: Option<Bucket>, maxFailures: int, window: int, now: int) {
    b.Some? && b.value.count > maxFailures && Active(b.value, window, now)
  }

  /** What recording a failure answers, given the bucket as it then is. */
  function FailureWait(hit: Bucket, maxFailures: int, window: int, now: int): Option<int> {
    if hit.count <= maxFailures then None else Some(Max(1, (hit.start + window - now) / 1000))
  }

  /** The wait is answered on every failure past the limit: here on the sixth, which crosses it, and on the seventh. */
  lemma WaitIsRepeated()
    ensures var window := 900000;
      var fifth := Bucket(5, 0);
      var sixth := Hit(Some(fifth), window, 1000);
      var seventh := Hit(Some(sixth), window, 2000);
      && FailureWait(fifth, 5, window, 0) == None
      && FailureWait(sixth, 5, window, 1000) == Some(899)
      && FailureWait(seventh, 5, window, 2000) == Some(898)
  {
  }

  class AccountLockoutTracker {
    const enabled: bool
    const maxFailures: int
    const windowSeconds: int
    const storage: MemoryRateLimitStorage

    constructor (enabled: bool, maxFailures: int, windowSeconds: int, storage: MemoryRateLimitStorage)
      ensures this.enabled == enabled && this.maxFailures == maxFailures
      ensures this.windowSeconds == windowSeconds && this.storage == storage
    {
      this.enabled, this.maxFailures, this.windowSeconds, this.storage := enabled, maxFailures, windowSeconds, storage;
    }

    /** Some(s) is the lock error asking to retry after s seconds. */
    method CheckLocked(identifier: string, now: int) returns (retryAfter: Option<int>)
      ensures retryAfter.Some? <==>
              enabled && Locked(Find(storage.state, LockoutKey(identifier)), maxFailures, windowSeconds * 1000, now)
      ensures retryAfter.Some? ==>
                RetryFits(retryAfter.value, storage.state[LockoutKey(identifier)].start + windowSeconds * 1000 - now)
    {
      if !enabled { return None; }
      var key := LockoutKey(identifier);
      if key !in storage.state { return None; }
      var existing := storage.state[key];
      if existing.count <= maxFailures { return None; }
      var unlockAt := existing.start + windowSeconds * 1000;
      if unlockAt <= now { return None; }
      return Some(Max(1, (unlockAt - now) / 1000));
    }

    /** Answers with a wait on every failure past the limit, not only on the one that crosses it. */
    method RecordFailure(identifier: string, now: int) returns (retryAfter: Option<int>)
      modifies storage
      ensures !enabled ==> retryAfter.None? && storage.state == old(storage.state)
      ensures enabled ==>
                var hit := Hit(Find(old(storage.state), LockoutKey(identifier)), windowSeconds * 1000, now);
                && storage.state == old(storage.state)[LockoutKey(identifier) := hit]
                && retryAfter == FailureWait(hit, maxFailures, windowSeconds * 1000, now)
                && (retryAfter.Some? ==> RetryFits(retryAfter.value, hit.start + windowSeconds * 1000 - now))
    {
      if !enabled { return None; }
      var count, start := storage.Increment(LockoutKey(identifier), windowSeconds * 1000, now);
      if count <= maxFailures { return None; }
      return Some(Max(1, (start + windowSeconds * 1000 - now) / 1000));
    }

    method Reset(identifier: string)
      modifies storage
      ensures storage.state == if enabled then old(storage.state) - {LockoutKey(identifier)} else old(storage.state)
    {
      if !enabled { return; }
      storage.Delete(LockoutKey(identifier));
    }

    method Rekey(oldIdentifier: string, newIdentifier: string, now: int)
      modifies storage
      ensures storage.state ==
              if !enabled || oldIdentifier == newIdentifier then old(storage.state)
              else Rekeyed(old(storage.state), LockoutKey(oldIdentifier), LockoutKey(newIdentifier),
                  windowSeconds * 1000, now)
    {
      if !enabled || oldIdentifier == newIdentifier { return; }
      storage.Rekey(LockoutKey(oldIdentifier), LockoutKey(newIdentifier), windowSeconds * 1000, now);
    }
  }

  /**
   A rekey removes the old key; the new one is then there exactly if one of the two had an open window, and holds one
   of those open buckets, no other being greater by count and then by start; every other key is as it was.
   */
  lemma RekeyedExactly(st: Buckets, a: string, b: string, window: int, now: int)
    requires a != b
    ensures var after := Rekeyed(st, a, b, window, now);
            && a !in after
            && (b in after <==> exists k :: (k == a || k == b) && k in st && now < st[k].start + window)
            && (b in after ==>
                  && (exists k :: (k == a || k == b) && k in st && now < st[k].start + window && after[b] == st[k])
                  && forall k :: (k == a || k == b) && k in st && now < st[k].start + window ==>
                       st[k].count < after[b].count || (st[k].count == after[b].count && st[k].start <= after[b].start))
            && forall k :: k != a && k != b ==> Find(after, k) == Find(st, k)
  {
  }

  /** The limiter's buckets and the lockouts never share a key. */
  lemma KeysDoNotMeet(ip: string, path: string, identifier: string)
    ensures "ip:" + ip + ":" + path != LockoutKey(identifier)
  {
    assert ("ip:" + ip + ":" + path)[0] == 'i' && LockoutKey(identifier)[0] == 'l';
  }

  /** Renaming an identifier keeps a lock exactly when either name was locked. */
  lemma RekeyKeepsLocks(st: Buckets, a: string, b: string, maxFailures: int, window: int, now: int)
    requires a != b
    ensures var after := Rekeyed(st, LockoutKey(a), LockoutKey(b), window, now);
      && Find(after, LockoutKey(a)).None?
      && (Locked(Find(after, LockoutKey(b)), maxFailures, window, now) <==>
            Locked(Find(st, LockoutKey(a)), maxFailures, window, now) ||
              Locked(Find(st, LockoutKey(b)), maxFailures, window, now))
      && (forall k :: k != LockoutKey(a) && k != LockoutKey(b) ==> Find(after, k) == Find(st, k))
  {
    LockoutKeyInjective(a, b);
  }
}
