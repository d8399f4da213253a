/** Verification challenges: the decision made on one row, and the in-memory store that makes it in place. */
module Challenges {
  import opened Prelude

  datatype Key = Key(identifier: string, purpose: string)

  datatype Challenge = Challenge(
    valueHash: string,
    attemptCount: int,
    expiresAt: int,
    consumedAt: Option<int>,
    updatedAt: int)

  datatype Status = Accepted | Invalid | Expired | Exhausted | Absent

  datatype Attempt = Attempt(status: Status, attemptCount: int, verification: Option<Challenge>)

  /** A cap below one is a ValueError. */
  datatype Reply = BadCap | Decided(attempt: Attempt)

  predicate ValidCap(cap: Option<int>) { cap.Some? ==> cap.value >= 1 }

  predicate AtCap(cap: Option<int>, count: int) { cap.Some? && count >= cap.value }

  // ----- One attempt -----

  function Decide(row: Option<Challenge>, hash: string, now: int, cap: Option<int>, consume: bool): Attempt {
    if row.None? || row.value.consumedAt.Some? then Attempt(Absent, 0, None)
    else if row.value.expiresAt <= now then Attempt(Expired, row.value.attemptCount, None)
    else if AtCap(cap, row.value.attemptCount) then Attempt(Exhausted, row.value.attemptCount, None)
    else if row.value.valueHash != hash then
      Attempt(if AtCap(cap, row.value.attemptCount + 1) then Exhausted else Invalid, row.value.attemptCount + 1, None)
    else Attempt(Accepted, row.value.attemptCount, Some(Attempted(row.value, hash, now, cap, consume)))
  }

  /** What the attempt leaves of the row. */
  function Attempted(c: Challenge, hash: string, now: int, cap: Option<int>, consume: bool): Challenge {
    if c.consumedAt.Some? then c
    else if c.expiresAt <= now || AtCap(cap, c.attemptCount) then c.(consumedAt := Some(now))
    else if c.valueHash != hash then
      c.(attemptCount := c.attemptCount + 1,
         consumedAt := if AtCap(cap, c.attemptCount + 1) then Some(now) else None,
         updatedAt := now)
    else if consume then c.(consumedAt := Some(now), updatedAt := now)
    else c
  }

  class ChallengeRow {
    const id: string
    const key: Key
    const valueHash: string
    const expiresAt: int
    var attemptCount: int
    var consumedAt: Option<int>
    var updatedAt: int

    constructor (id: string, key: Key, c: Challenge)
      ensures this.id == id && this.key == key && Value() == c
    {
      this.id, this.key, valueHash, expiresAt := id, key, c.valueHash, c.expiresAt;
      attemptCount, consumedAt, updatedAt := c.attemptCount, c.consumedAt, c.updatedAt;
    }

    function Value(): Challenge
      reads this
    {
      Challenge(valueHash, attemptCount, expiresAt, consumedAt, updatedAt)
    }
  }

  /** Decides on the row and changes it in the same step. */
  method ApplyAttempt(row: ChallengeRow?, hash: string, now: int, cap: Option<int>,
                      consume: bool) returns (reply: Reply)
    modifies row
    ensures reply == if ValidCap(cap)
                     then Decided(Decide(if row == null then None else Some(old(row.Value())), hash, now, cap, consume))
                     else BadCap
    ensures row != null ==>
              row.Value() == if ValidCap(cap)
                             then Attempted(old(row.Value()), hash, now, cap, consume) else old(row.Value())
  {
    if cap.Some? && cap.value < 1 { return BadCap; }
    if row == null || row.consumedAt.Some? { return Decided(Attempt(Absent, 0, None)); }
    if row.expiresAt <= now {
      row.consumedAt := Some(now);
      return Decided(Attempt(Expired, row.attemptCount, None));
    }
    if cap.Some? && row.attemptCount >= cap.value {
      row.consumedAt := Some(now);
      return Decided(Attempt(Exhausted, row.attemptCount, None));
    }
    if row.valueHash != hash {
      row.attemptCount := row.attemptCount + 1;
      var exhausted := cap.Some? && row.attemptCount >= cap.value;
      if exhausted { row.consumedAt := Some(now); }
      row.updatedAt := now;
      return Decided(Attempt(if exhausted then Exhausted else Invalid, row.attemptCount, None));
    }
    if consume {
      row.consumedAt := Some(now);
      row.updatedAt := now;
    }
    return Decided(Attempt(Accepted, row.attemptCount, Some(row.Value())));
  }

  // ----- The store, as a value: at most one challenge per (identifier, purpose) -----

  type Store = map<Key, Challenge>

  function AfterAttempt(st: Store, key: Key, hash: string, now: int, cap: Option<int>, consume: bool): Store {
    if key in st then st[key := Attempted(st[key], hash, now, cap, consume)] else st
  }

  // ----- The in-memory store -----

  /** Without those of the given rows that have the key. */
  ghost function WithoutKey(rows: map<string, ChallengeRow>, ids: set<string>, key: Key): map<string, ChallengeRow> {
    map i | i in rows && !(i in ids && rows[i].key == key) :: rows[i]
  }

  class InMemoryChallenges {
    var verifications: map<string, ChallengeRow>
    /** The same rows by their keys. */
    ghost var byKey: map<Key, ChallengeRow>

    /** Rows are filed under their ids and no two rows share a key. */
    ghost predicate Valid()
      reads this
    {
      && (forall id :: id in verifications ==>
           verifications[id].id == id && Find(byKey, verifications[id].key) == Some(verifications[id]))
      && (forall k :: k in byKey ==> byKey[k].key == k && Find(verifications, byKey[k].id) == Some(byKey[k]))
    }

    ghost function Contents(): Store
      reads this, byKey.Values
    {
      map k | k in byKey :: byKey[k].Value()
    }

    constructor ()
      ensures Valid() && Contents() == map[]
    {
      verifications, byKey := map[], map[];
    }

    method DropRows(key: Key)
      modifies this`verifications
      ensures verifications == WithoutKey(old(verifications), old(verifications.Keys), key)
    {
      var todo := verifications.Keys;
      while todo != {}
        invariant todo <= old(verifications.Keys)
        invariant verifications == WithoutKey(old(verifications), old(verifications.Keys) - todo, key)
        decreases |todo|
      {
        var i :| i in todo;
        if verifications[i].key == key { verifications := verifications - {i}; }
        todo := todo - {i};
      }
    }

    method DropKey(key: Key)
      requires Valid()
      modifies this
      ensures Valid() && byKey == old(byKey) - {key}
    {
      DropRows(key);
      byKey := byKey - {key};
    }

    /** The keys whose row is filed under `id`: one or none. */
    ghost function Under(id: string): set<Key>
      reads this
    {
      set k | k in byKey && byKey[k].id == id
    }

    /** Dropping a key takes its challenge out of the contents. */
    method DropContents(id: string, key: Key)
      requires Valid()
      modifies this
      ensures Valid() && key !in byKey
      ensures Contents() == old(Contents()) - {key} && Under(id) == old(Under(id)) - {key}
    {
      DropKey(key);
    }

    method File(row: ChallengeRow)
      requires Valid() && row.key !in byKey
      modifies this
      ensures Valid() && byKey == (old(byKey) - old(Under(row.id)))[row.key := row]
    {
      verifications := verifications[row.id := row];
      byKey := (byKey - Under(row.id))[row.key := row];
    }

    method FileNew(id: string, key: Key, c: Challenge)
      requires Valid() && key !in byKey
      modifies this
      ensures Valid() && Contents() == (old(Contents()) - old(Under(id)))[key := c]
    {
      var row := new ChallengeRow(id, key, c);
      assert Contents() == old(Contents());
      File(row);
    }

    /** Issuing a challenge replaces whatever the key had, and any row already filed under its id. */
    method CreateVerification(id: string, key: Key, c: Challenge)
      requires Valid()
      modifies this
      ensures Valid()
      ensures Contents() == (old(Contents()) - old(Under(id)))[key := c]
    {
      DropContents(id, key);
      FileNew(id, key, c);
    }

    /** The row of a key, if there is one. */
    method FindRow(key: Key) returns (row: ChallengeRow?)
      requires Valid()
      ensures row == null ==> key !in byKey
      ensures row != null ==> Find(byKey, key) == Some(row)
    {
      var todo := verifications.Keys;
      while todo != {}
        invariant todo <= verifications.Keys
        invariant forall i :: i in verifications && i !in todo ==> verifications[i].key != key
        decreases |todo|
      {
        var i :| i in todo;
        if verifications[i].key == key { return verifications[i]; }
        todo := todo - {i};
      }
      return null;
    }

    method AttemptVerification(key: Key, hash: string, now: int, cap: Option<int>, consume: bool) returns (reply: Reply)
      requires Valid()
      modifies byKey.Values
      ensures Valid()
      ensures !ValidCap(cap) ==> reply == BadCap && Contents() == old(Contents())
      ensures ValidCap(cap) ==>
                && reply == Decided(Decide(Find(old(Contents()), key), hash, now, cap, consume))
                && Contents() == AfterAttempt(old(Contents()), key, hash, now, cap, consume)
    {
      var row := FindRow(key);
      if row == null {
        reply := ApplyAttempt(null, hash, now, cap, consume);
      } else {
        reply := AttemptOn(row, hash, now, cap, consume);
      }
    }

    method AttemptOn(row: ChallengeRow, hash: string, now: int, cap: Option<int>, consume: bool) returns (reply: Reply)
      requires Valid() && Find(byKey, row.key) == Some(row)
      modifies row
      ensures reply == if ValidCap(cap)
                       then Decided(Decide(Some(old(row.Value())), hash, now, cap, consume)) else BadCap
      ensures Contents() ==
              old(Contents())[row.key := if ValidCap(cap)
                                         then Attempted(old(row.Value()), hash, now, cap, consume)
                                         else old(row.Value())]
    {
      reply := ApplyAttempt(row, hash, now, cap, consume);
    }
  }
}
