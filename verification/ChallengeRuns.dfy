/** What a whole run of issuances and attempts can and cannot do to one challenge. */
module ChallengeRuns {
  import opened Prelude
  import opened Challenges

  datatype Event =
    | Issue(key: Key, challenge: Challenge)
    | Try(key: Key, hash: string, now: int, consume: bool)

  function Step(cap: Option<int>, st: Store, e: Event): Store {
    match e
    case Issue(key, c) => st[key := c]
    case Try(key, hash, now, consume) => AfterAttempt(st, key, hash, now, cap, consume)
  }

  function Run(cap: Option<int>, st: Store, es: seq<Event>): Store
    decreases |es|
  {
    if es == [] then st else Step(cap, Run(cap, st, es[..|es| - 1]), es[|es| - 1])
  }

  lemma RunAppend(cap: Option<int>, st: Store, es: seq<Event>, e: Event)
    ensures Run(cap, st, es + [e]) == Step(cap, Run(cap, st, es), e)
  {
    assert (es + [e])[..|es|] == es;
  }

  function Answer(cap: Option<int>, st: Store, e: Event): Attempt
    requires e.Try?
  {
    Decide(Find(st, e.key), e.hash, e.now, cap, e.consume)
  }

  predicate TriesOf(e: Event, key: Key) { e.Try? && e.key == key }

  predicate NoIssueOf(key: Key, es: seq<Event>) {
    forall i :: 0 <= i < |es| ==> !(es[i].Issue? && es[i].key == key)
  }

  // ----- Exactly when a code is accepted -----

  /** The attempts against `key` that present something other than `hash`. */
  function WrongTries(key: Key, hash: string, es: seq<Event>): nat
    decreases |es|
  {
    if es == [] then 0
    else
      var e := es[|es| - 1];
      WrongTries(key, hash, es[..|es| - 1]) + if TriesOf(e, key) && e.hash != hash then 1 else 0
  }

  /** Nobody attempted the challenge after it expired, and nobody redeemed its code. */
  predicate Unspent(key: Key, v: Challenge, es: seq<Event>) {
    forall i :: 0 <= i < |es| && TriesOf(es[i], key) ==>
      es[i].now < v.expiresAt && !(es[i].hash == v.valueHash && es[i].consume)
  }

  predicate Live(cap: Option<int>, key: Key, v: Challenge, es: seq<Event>) {
    Unspent(key, v, es) && !AtCap(cap, WrongTries(key, v.valueHash, es))
  }

  predicate Fresh(v: Challenge) { v.attemptCount == 0 && v.consumedAt.None? }

  predicate Follows(cap: Option<int>, st: Store, key: Key, v: Challenge, es: seq<Event>) {
    && key in st
    && (Live(cap, key, v, es) ==>
          st[key].consumedAt.None? && st[key].attemptCount == WrongTries(key, v.valueHash, es)
          && st[key].valueHash == v.valueHash && st[key].expiresAt == v.expiresAt)
    && (!Live(cap, key, v, es) ==> st[key].consumedAt.Some?)
  }

  lemma FollowsStep(cap: Option<int>, st: Store, key: Key, v: Challenge, es: seq<Event>, e: Event)
    requires ValidCap(cap) && Follows(cap, st, key, v, es) && !(e.Issue? && e.key == key)
    ensures Follows(cap, Step(cap, st, e), key, v, es + [e])
  {
    assert (es + [e])[..|es|] == es && (es + [e])[|es|] == e;
    if Unspent(key, v, es + [e]) {
      forall i | 0 <= i < |es| && TriesOf(es[i], key)
        ensures es[i].now < v.expiresAt && !(es[i].hash == v.valueHash && es[i].consume)
      {
        assert (es + [e])[i] == es[i];
      }
    }
  }

  lemma {:induction false} FollowsRun(cap: Option<int>, st: Store, key: Key, v: Challenge, es: seq<Event>)
    requires ValidCap(cap) && Fresh(v) && Find(st, key) == Some(v) && NoIssueOf(key, es)
    ensures Follows(cap, Run(cap, st, es), key, v, es)
    decreases |es|
  {
    if es == [] {
    } else {
      var pre, e := es[..|es| - 1], es[|es| - 1];
      FollowsRun(cap, st, key, v, pre);
      FollowsStep(cap, Run(cap, st, pre), key, v, pre, e);
      assert pre + [e] == es;
    }
  }

  /**
   Whatever happened before a challenge was issued, and whatever was attempted since, an attempt is accepted
   exactly when it presents the issued code in time and the challenge was not used up: no attempt came too late,
   no attempt redeemed it, and fewer wrong codes than the cap were presented. A correct check that does not
   consume appears nowhere in the condition.
   */
  lemma AcceptedExactly(cap: Option<int>, st: Store, before: seq<Event>, key: Key, v: Challenge, since: seq<Event>,
                        e: Event)
    requires ValidCap(cap) && Fresh(v) && NoIssueOf(key, since) && TriesOf(e, key)
    ensures Answer(cap, Run(cap, Run(cap, st, before + [Issue(key, v)]), since), e).status == Accepted
       <==> Live(cap, key, v, since) && e.hash == v.valueHash && e.now < v.expiresAt
  {
    RunAppend(cap, st, before, Issue(key, v));
    FollowsRun(cap, Run(cap, st, before + [Issue(key, v)]), key, v, since);
  }

  /** Against a challenge that was never issued, nothing is accepted. */
  lemma {:induction false} NothingIssued(cap: Option<int>, st: Store, es: seq<Event>, key: Key)
    requires key !in st && NoIssueOf(key, es)
    ensures key !in Run(cap, st, es)
    decreases |es|
  {
    if es == [] {
    } else {
      NothingIssued(cap, st, es[..|es| - 1], key);
    }
  }

  // ----- What every attempt is answered -----

  predicate Tried(key: Key, es: seq<Event>) { exists i :: 0 <= i < |es| && TriesOf(es[i], key) }

  /**
   Nobody came too late or redeemed the challenge, and since the first attempt the wrong codes, together with the count
   it was issued with, have stayed below the cap.
   */
  predicate StillOpen(cap: Option<int>, key: Key, v: Challenge, es: seq<Event>) {
    && Unspent(key, v, es)
    && (Tried(key, es) ==> !AtCap(cap, v.attemptCount + WrongTries(key, v.valueHash, es)))
  }

  predicate Tracks(cap: Option<int>, st: Store, key: Key, v: Challenge, es: seq<Event>) {
    && key in st
    && if StillOpen(cap, key, v, es) then
         && st[key].consumedAt.None? && st[key].attemptCount == v.attemptCount + WrongTries(key, v.valueHash, es)
         && st[key].valueHash == v.valueHash && st[key].expiresAt == v.expiresAt
       else st[key].consumedAt.Some?
  }

  lemma UnspentStep(key: Key, v: Challenge, es: seq<Event>, e: Event)
    ensures Unspent(key, v, es + [e]) <==>
              Unspent(key, v, es)
              && (TriesOf(e, key) ==> e.now < v.expiresAt && !(e.hash == v.valueHash && e.consume))
    ensures Tried(key, es + [e]) <==> Tried(key, es) || TriesOf(e, key)
  {
    assert (es + [e])[|es|] == e;
    assert forall i :: 0 <= i < |es| ==> (es + [e])[i] == es[i];
  }

  lemma TracksStep(cap: Option<int>, st: Store, key: Key, v: Challenge, es: seq<Event>, e: Event)
    requires ValidCap(cap) && Tracks(cap, st, key, v, es) && !(e.Issue? && e.key == key)
    ensures Tracks(cap, Step(cap, st, e), key, v, es + [e])
  {
    UnspentStep(key, v, es, e);
    assert (es + [e])[..|es|] == es && (es + [e])[|es|] == e;
    NoTryNoWrong(key, v.valueHash, es);
  }

  lemma {:induction false} NoTryNoWrong(key: Key, hash: string, es: seq<Event>)
    ensures !Tried(key, es) ==> WrongTries(key, hash, es) == 0
    decreases |es|
  {
    if es == [] {
    } else {
      NoTryNoWrong(key, hash, es[..|es| - 1]);
      assert Tried(key, es[..|es| - 1]) ==> Tried(key, es);
      assert TriesOf(es[|es| - 1], key) ==> Tried(key, es);
    }
  }

  lemma {:induction false} TracksRun(cap: Option<int>, st: Store, key: Key, v: Challenge, es: seq<Event>)
    requires ValidCap(cap) && v.consumedAt.None? && Find(st, key) == Some(v) && NoIssueOf(key, es)
    ensures Tracks(cap, Run(cap, st, es), key, v, es)
    decreases |es|
  {
    if es == [] {
    } else {
      var pre, e := es[..|es| - 1], es[|es| - 1];
      TracksRun(cap, st, key, v, pre);
      TracksStep(cap, Run(cap, st, pre), key, v, pre, e);
      assert pre + [e] == es;
    }
  }

  lemma IssuedTracks(cap: Option<int>, st: Store, before: seq<Event>, key: Key, v: Challenge, since: seq<Event>)
    requires ValidCap(cap) && v.consumedAt.None? && NoIssueOf(key, since)
    ensures Tracks(cap, Run(cap, Run(cap, st, before + [Issue(key, v)]), since), key, v, since)
  {
    RunAppend(cap, st, before, Issue(key, v));
    TracksRun(cap, Run(cap, st, before + [Issue(key, v)]), key, v, since);
  }

  /** The failed codes so far, with those the challenge was issued with. */
  function Failures(key: Key, v: Challenge, since: seq<Event>): int {
    v.attemptCount + WrongTries(key, v.valueHash, since)
  }

  /**
   The answer to an attempt, whatever happened before the challenge was issued and since. Once the challenge was
   used up there is none. Until then: expired from its expiry on; exhausted if it was issued with a count at the cap,
   or if this wrong code brings the count to the cap; invalid for any other wrong code; and accepted for the right one.
   */
  lemma AnsweredExactly(cap: Option<int>, st: Store, before: seq<Event>, key: Key, v: Challenge, since: seq<Event>,
                        e: Event)
    requires ValidCap(cap) && v.consumedAt.None? && NoIssueOf(key, since) && TriesOf(e, key)
    ensures var status := Answer(cap, Run(cap, Run(cap, st, before + [Issue(key, v)]), since), e).status;
            var n := Failures(key, v, since);
            && (status == Absent <==> !StillOpen(cap, key, v, since))
            && (status == Expired <==> StillOpen(cap, key, v, since) && v.expiresAt <= e.now)
            && (status == Exhausted <==>
                  && StillOpen(cap, key, v, since) && e.now < v.expiresAt
                  && (AtCap(cap, n) || (e.hash != v.valueHash && AtCap(cap, n + 1))))
            && (status == Invalid <==>
                  && StillOpen(cap, key, v, since) && e.now < v.expiresAt
                  && e.hash != v.valueHash && !AtCap(cap, n) && !AtCap(cap, n + 1))
            && (status == Accepted <==>
                  StillOpen(cap, key, v, since) && e.now < v.expiresAt && e.hash == v.valueHash && !AtCap(cap, n))
  {
    IssuedTracks(cap, st, before, key, v, since);
  }

  /**
   The count reported is that of the failed codes, this one included if it is wrong, in time and below the cap; and the
   challenge comes with an acceptance only, consumed by it or not.
   */
  lemma ReportedExactly(cap: Option<int>, st: Store, before: seq<Event>, key: Key, v: Challenge, since: seq<Event>,
                        e: Event)
    requires ValidCap(cap) && v.consumedAt.None? && NoIssueOf(key, since) && TriesOf(e, key)
    ensures var a := Answer(cap, Run(cap, Run(cap, st, before + [Issue(key, v)]), since), e);
            var n := Failures(key, v, since);
            && (a.status == Absent ==> a.attemptCount == 0)
            && (a.status != Absent ==>
                  a.attemptCount == n + if e.now < v.expiresAt && e.hash != v.valueHash && !AtCap(cap, n) then 1 else 0)
            && (a.verification.Some? <==> a.status == Accepted)
            && (a.verification.Some? ==>
                  && a.verification.value.valueHash == v.valueHash && a.verification.value.expiresAt == v.expiresAt
                  && a.verification.value.consumedAt == (if e.consume then Some(e.now) else None))
  {
    IssuedTracks(cap, st, before, key, v, since);
  }

  /** What an attempt leaves of an unspent challenge: spent or not, counted or not, dated if it did anything in time. */
  lemma LeavesExactly(cap: Option<int>, c: Challenge, e: Event)
    requires e.Try? && c.consumedAt.None?
    ensures var after := Attempted(c, e.hash, e.now, cap, e.consume);
            var heard := e.now < c.expiresAt && !(cap.Some? && c.attemptCount >= cap.value);
            var wrong := heard && e.hash != c.valueHash;
            && after.valueHash == c.valueHash && after.expiresAt == c.expiresAt
            && after.attemptCount == c.attemptCount + (if wrong then 1 else 0)
            && after.updatedAt == (if wrong || (heard && e.consume) then e.now else c.updatedAt)
            && after.consumedAt == (
                 if !heard || (wrong && cap.Some? && c.attemptCount + 1 >= cap.value) || (!wrong && e.consume)
                 then Some(e.now) else None)
  {
  }

  /** An attempt on a key that nothing was issued for finds nothing. */
  lemma NothingIssuedIsAbsent(cap: Option<int>, st: Store, es: seq<Event>, e: Event)
    requires e.Try? && e.key !in st && NoIssueOf(e.key, es)
    ensures Answer(cap, Run(cap, st, es), e) == Attempt(Absent, 0, None)
  {
    NothingIssued(cap, st, es, e.key);
  }

  // ----- One redemption, and a bounded number of misses -----

  predicate Redeems(cap: Option<int>, st: Store, e: Event) {
    e.Try? && e.consume && Answer(cap, st, e).status == Accepted
  }

  lemma {:induction false} SpentStaysSpent(cap: Option<int>, st: Store, es: seq<Event>, key: Key)
    requires key in st && st[key].consumedAt.Some? && NoIssueOf(key, es)
    ensures key in Run(cap, st, es) && Run(cap, st, es)[key] == st[key]
    decreases |es|
  {
    if es == [] {
    } else {
      SpentStaysSpent(cap, st, es[..|es| - 1], key);
    }
  }

  lemma RunSplit(cap: Option<int>, st: Store, es: seq<Event>, i: nat, j: nat)
    requires i <= j <= |es|
    ensures Run(cap, st, es[..j]) == Run(cap, Run(cap, st, es[..i]), es[i..j])
    decreases j
  {
    if i < j {
      RunSplit(cap, st, es, i, j - 1);
      assert es[..j][..j - 1] == es[..j - 1] && es[i..j][..j - 1 - i] == es[i..j - 1];
    } else {
      assert es[i..j] == [];
    }
  }

  /** Between two redemptions of the same key there is a new issuance. */
  lemma OneRedemption(cap: Option<int>, st: Store, es: seq<Event>, i: nat, j: nat)
    requires ValidCap(cap) && i < j < |es| && es[i].key == es[j].key
    requires Redeems(cap, Run(cap, st, es[..i]), es[i]) && Redeems(cap, Run(cap, st, es[..j]), es[j])
    ensures exists k :: i < k < j && es[k].Issue? && es[k].key == es[i].key
  {
    var mid := es[i + 1..j];
    if NoIssueOf(es[i].key, mid) {
      assert es[..i + 1][..i] == es[..i];
      RunSplit(cap, st, es, i + 1, j);
      SpentStaysSpent(cap, Run(cap, st, es[..i + 1]), mid, es[i].key);
      assert false;
    }
    var k :| 0 <= k < |mid| && mid[k].Issue? && mid[k].key == es[i].key;
    assert es[i + 1 + k] == mid[k];
  }

  /** A miss presents another code while the challenge is unspent, in time and below its cap. */
  predicate Misses(cap: Option<int>, st: Store, e: Event) {
    && e.Try? && e.key in st && st[e.key].consumedAt.None? && e.now < st[e.key].expiresAt
    && !AtCap(cap, st[e.key].attemptCount) && e.hash != st[e.key].valueHash
  }

  function MissCount(cap: Option<int>, st: Store, es: seq<Event>, key: Key): nat
    decreases |es|
  {
    if es == [] then 0
    else
      var e := es[|es| - 1];
      MissCount(cap, st, es[..|es| - 1], key)
      + if TriesOf(e, key) && Misses(cap, Run(cap, st, es[..|es| - 1]), e) then 1 else 0
  }

  /** The stored counter is exactly the number of misses since issuance, and the cap is never passed. */
  lemma {:induction false} MissesAreCountedAndCapped(cap: Option<int>, st: Store, es: seq<Event>, key: Key)
    requires ValidCap(cap) && key in st && Fresh(st[key]) && NoIssueOf(key, es)
    ensures key in Run(cap, st, es) && Run(cap, st, es)[key].attemptCount == MissCount(cap, st, es, key)
    ensures cap.Some? ==> MissCount(cap, st, es, key) <= cap.value
    ensures AtCap(cap, MissCount(cap, st, es, key)) ==> Run(cap, st, es)[key].consumedAt.Some?
    decreases |es|
  {
    if es == [] {
    } else {
      MissesAreCountedAndCapped(cap, st, es[..|es| - 1], key);
    }
  }
}
