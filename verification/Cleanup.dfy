/** Bounded deletion of expired rows, batch after batch, and the removal of superseded challenges. */
module Cleanup {
  import opened Ordering

  // ----- The rows due for deletion, in the order they are deleted -----

  datatype Row = Row(id: string, expiresAt: int)

  /** Expiry by row id. */
  type Rows = map<string, int>

  predicate Before(a: Row, b: Row) {
    a.expiresAt < b.expiresAt || (a.expiresAt == b.expiresAt && !TextLess(b.id, a.id))
  }

  lemma BeforeIsTotal()
    ensures TotalOrder(Before)
    ensures forall rows: seq<Row> :: Distinguishes(Before, rows)
  {
    forall a: Row, b: Row ensures Before(a, b) || Before(b, a) { TextTotal(a.id, b.id); }
    forall a: Row, b: Row | Before(a, b) && Before(b, a) ensures a == b { TextTotal(a.id, b.id); }
    forall a: Row, b: Row, c: Row | Before(a, b) && Before(b, c) ensures Before(a, c) { BeforeTransitive(a, b, c); }
  }

  lemma BeforeTransitive(a: Row, b: Row, c: Row)
    requires Before(a, b) && Before(b, c)
    ensures Before(a, c)
  {
    TextTotal(a.id, b.id);
    TextTotal(b.id, c.id);
    TextTotal(a.id, c.id);
    if TextLess(a.id, b.id) && TextLess(b.id, c.id) { TextTransitive(a.id, b.id, c.id); }
  }

  ghost function Expired(rows: Rows, cutoff: int): set<Row> {
    set id | id in rows && rows[id] <= cutoff :: Row(id, rows[id])
  }

  ghost predicate IsQueue(rows: Rows, cutoff: int, q: seq<Row>) {
    Sorted(Before, q) && multiset(q) == multiset(Expired(rows, cutoff))
  }

  ghost function Listed(s: set<Row>): (xs: seq<Row>)
    ensures multiset(xs) == multiset(s)
  {
    if s == {} then [] else
      var x :| x in s;
      assert multiset(s) == multiset(s - {x}) + multiset{x};
      Listed(s - {x}) + [x]
  }

  lemma QueueExists(rows: Rows, cutoff: int)
    ensures exists q :: IsQueue(rows, cutoff, q)
  {
    BeforeIsTotal();
    var xs := Listed(Expired(rows, cutoff));
    SortIsSorted(Before, xs);
    assert IsQueue(rows, cutoff, Sort(Before, xs));
  }

  /** The expired rows by (expires_at, id). */
  ghost function Queue(rows: Rows, cutoff: int): seq<Row> {
    QueueExists(rows, cutoff);
    var q :| IsQueue(rows, cutoff, q);
    q
  }

  lemma QueueIs(rows: Rows, cutoff: int, q: seq<Row>)
    requires IsQueue(rows, cutoff, q)
    ensures q == Queue(rows, cutoff)
  {
    BeforeIsTotal();
    SortedIsUnique(Before, q, Queue(rows, cutoff));
  }

  ghost function Without(rows: Rows, gone: seq<Row>): Rows {
    map id | id in rows && Row(id, rows[id]) !in gone :: rows[id]
  }

  /** What is left after the head of the queue is deleted queues up as the rest of it. */
  lemma QueueAfter(rows: Rows, cutoff: int, n: nat)
    requires n <= |Queue(rows, cutoff)|
    ensures Queue(Without(rows, Queue(rows, cutoff)[..n]), cutoff) == Queue(rows, cutoff)[n..]
  {
    var q := Queue(rows, cutoff);
    var after := Without(rows, q[..n]);
    ExpiredAfter(rows, cutoff, q[..n]);
    TailIsRest(q, n, Expired(rows, cutoff), Expired(after, cutoff));
    QueueIs(after, cutoff, q[n..]);
  }

  lemma TailIsRest(q: seq<Row>, n: nat, all: set<Row>, rest: set<Row>)
    requires n <= |q| && multiset(q) == multiset(all)
    requires forall e :: e in rest <==> e in all && e !in q[..n]
    ensures multiset(q[n..]) == multiset(rest)
  {
    assert q == q[..n] + q[n..];
    forall e: Row ensures multiset(q[n..])[e] == multiset(rest)[e] {
      assert multiset(q)[e] == multiset(all)[e];
      assert e in q[..n] <==> multiset(q[..n])[e] > 0;
    }
  }

  lemma ExpiredAfter(rows: Rows, cutoff: int, gone: seq<Row>)
    ensures forall e :: e in Expired(Without(rows, gone), cutoff) <==> e in Expired(rows, cutoff) && e !in gone
  {
    forall e: Row ensures e in Expired(Without(rows, gone), cutoff) <==> e in Expired(rows, cutoff) && e !in gone {
      assert e == Row(e.id, e.expiresAt);
      if e in Expired(rows, cutoff) && e !in gone { assert e.id in Without(rows, gone); }
    }
  }

  lemma WithoutTwice(rows: Rows, q: seq<Row>, n: nat, m: nat)
    requires n <= m <= |q|
    ensures Without(Without(rows, q[..n]), q[n..m]) == Without(rows, q[..m])
  {
    assert q[..m] == q[..n] + q[n..m];
  }

  /** Deletion never touches a live row, and leaves no expired row ahead of one it deletes. */
  lemma OnlyExpiredGo(rows: Rows, cutoff: int, n: nat)
    requires n <= |Queue(rows, cutoff)|
    ensures forall id :: id in rows && id !in Without(rows, Queue(rows, cutoff)[..n]) ==> rows[id] <= cutoff
    ensures forall id :: id in rows && rows[id] > cutoff ==> id in Without(rows, Queue(rows, cutoff)[..n])
    ensures |Without(rows, Queue(rows, cutoff)[..n])| == |rows| - n
  {
    var q := Queue(rows, cutoff);
    forall e | e in q[..n] ensures e in Expired(rows, cutoff) {
      assert e in multiset(q);
    }
    RemovalCount(rows, cutoff, n);
  }

  lemma {:induction false} RemovalCount(rows: Rows, cutoff: int, n: nat)
    requires n <= |Queue(rows, cutoff)|
    ensures |Without(rows, Queue(rows, cutoff)[..n])| == |rows| - n
    decreases n
  {
    var q := Queue(rows, cutoff);
    if n == 0 {
      assert Without(rows, q[..0]) == rows;
    } else {
      RemovalCount(rows, cutoff, n - 1);
      QueueAfter(rows, cutoff, n - 1);
      var before := Without(rows, q[..n - 1]);
      assert q[n - 1..][0] == q[n - 1];
      assert q[n - 1] in multiset(Expired(before, cutoff)) by {
        assert q[n - 1] in multiset(q[n - 1..]);
      }
      var id := q[n - 1].id;
      WithoutTwice(rows, q, n - 1, n);
      assert Without(rows, q[..n]) == before - {id};
      assert before.Keys == (before - {id}).Keys + {id};
    }
  }

  /** No expired row that is left expires before a deleted one, or together with it and with a smaller id. */
  lemma DeletedExpireFirst(rows: Rows, cutoff: int, n: nat, gone: string, left: string)
    requires n <= |Queue(rows, cutoff)|
    requires var after := Without(rows, Queue(rows, cutoff)[..n]);
      gone in rows && gone !in after && left in after && rows[left] <= cutoff
    ensures rows[gone] < rows[left] || (rows[gone] == rows[left] && TextLess(gone, left))
  {
    var q := Queue(rows, cutoff);
    var i :| 0 <= i < n && q[i] == Row(gone, rows[gone]);
    assert Row(left, rows[left]) in multiset(Expired(rows, cutoff));
    assert Row(left, rows[left]) in multiset(q);
    var j :| 0 <= j < |q| && q[j] == Row(left, rows[left]);
    assert q[j] !in q[..n];
    assert j >= n;
    assert Before(q[i], q[j]);
    TextTotal(gone, left);
  }

  /** The queue holds every row that has expired by the cutoff, so deleting all of it leaves only live rows. */
  lemma WholeQueueGoes(rows: Rows, cutoff: int, id: string)
    ensures id in Without(rows, Queue(rows, cutoff)) <==> id in rows && rows[id] > cutoff
    ensures |Queue(rows, cutoff)| == |Expired(rows, cutoff)|
  {
    var q := Queue(rows, cutoff);
    if id in rows {
      assert Row(id, rows[id]) in q <==> Row(id, rows[id]) in multiset(q);
      assert Row(id, rows[id]) in Expired(rows, cutoff) <==> rows[id] <= cutoff;
    }
    assert |q| == |multiset(q)|;
  }

  function Min(a: int, b: int): int { if a <= b then a else b }

  // ----- One batch -----

  class ExpiringRows {
    var rows: Rows
    /** What a deletion of n rows is reported as. */
    const report: nat -> int

    constructor (report: nat -> int)
      ensures rows == map[] && this.report == report
    {
      rows, this.report := map[], report;
    }

    method FindExpired(cutoff: int) returns (found: seq<Row>)
      ensures multiset(found) == multiset(Expired(rows, cutoff))
    {
      found := [];
      var todo := rows.Keys;
      while todo != {}
        invariant todo <= rows.Keys
        invariant multiset(found)
               == multiset(set id | id in rows && id !in todo && rows[id] <= cutoff :: Row(id, rows[id]))
        decreases |todo|
      {
        var id :| id in todo;
        ghost var seen := set i | i in rows && i !in todo && rows[i] <= cutoff :: Row(i, rows[i]);
        ghost var seenNext := set i | i in rows && i !in todo - {id} && rows[i] <= cutoff :: Row(i, rows[i]);
        if rows[id] <= cutoff {
          found := found + [Row(id, rows[id])];
          assert Row(id, rows[id]) !in seen;
          assert seenNext == seen + {Row(id, rows[id])};
        } else {
          assert seenNext == seen;
        }
        todo := todo - {id};
      }
    }

    /** Deletes the first `limit` expired rows. */
    method DeleteExpired(cutoff: int, limit: nat) returns (deleted: int)
      modifies this
      ensures var q := Queue(old(rows), cutoff); var n := Min(limit, |q|);
        rows == Without(old(rows), q[..n]) && deleted == report(n)
    {
      var found := FindExpired(cutoff);
      BeforeIsTotal();
      SortIsSorted(Before, found);
      var doomed := Sort(Before, found);
      QueueIs(rows, cutoff, doomed);
      doomed := doomed[..if limit <= |doomed| then limit else |doomed|];
      var i := 0;
      while i < |doomed|
        invariant 0 <= i <= |doomed|
        invariant rows == Without(old(rows), doomed[..i])
      {
        rows := rows - {doomed[i].id};
        WithoutOne(old(rows), doomed, i, cutoff);
        i := i + 1;
      }
      assert doomed[..|doomed|] == doomed;
      return report(|doomed|);
    }
  }

  lemma WithoutOne(rows: Rows, doomed: seq<Row>, i: nat, cutoff: int)
    requires i < |doomed| <= |Queue(rows, cutoff)| && doomed == Queue(rows, cutoff)[..|doomed|]
    ensures Without(rows, doomed[..i]) - {doomed[i].id} == Without(rows, doomed[..i + 1])
  {
    assert doomed[..i + 1] == doomed[..i] + [doomed[i]];
    assert doomed[i] in multiset(Queue(rows, cutoff));
    assert doomed[i] in Expired(rows, cutoff);
  }

  // ----- Draining -----

  datatype Drained = Ok(total: int) | InvalidDeleteCount

  ghost predicate Honest(report: nat -> int) { forall n: nat :: report(n) == n }

  class MaintenanceManager {
    const batchSize: nat
    const maxBatches: nat

    constructor (batchSize: nat, maxBatches: nat)
      ensures this.batchSize == batchSize && this.maxBatches == maxBatches
    {
      this.batchSize, this.maxBatches := batchSize, maxBatches;
    }

    method Batch(cleanup: ExpiringRows, cutoff: int, ghost was: Rows, ghost removed: nat)
      returns (deleted: int, ghost n: nat)
      requires removed <= |Queue(was, cutoff)| && cleanup.rows == Without(was, Queue(was, cutoff)[..removed])
      modifies cleanup
      ensures n == Min(batchSize, |Queue(was, cutoff)| - removed) && deleted == cleanup.report(n)
      ensures cleanup.rows == Without(was, Queue(was, cutoff)[..removed + n])
    {
      n := Min(batchSize, |Queue(was, cutoff)| - removed);
      NextBatch(was, cutoff, removed, n);
      deleted := cleanup.DeleteExpired(cutoff, batchSize);
    }

    /**
     Batch after batch, until one comes back short. Whatever the store reports, what goes is the head of the queue;
     when it reports its deletions truly this is one big delete, counted right.
     */
    method Drain(cleanup: ExpiringRows, cutoff: int) returns (r: Drained, ghost removed: nat)
      modifies cleanup
      ensures var q := Queue(old(cleanup.rows), cutoff);
        && removed <= |q| && cleanup.rows == Without(old(cleanup.rows), q[..removed])
        && (Honest(cleanup.report) ==> removed == Min(|q|, maxBatches * batchSize) && r == Ok(removed))
    {
      ghost var was := cleanup.rows;
      ghost var q := Queue(was, cutoff);
      removed := 0;
      assert Without(was, q[..0]) == was;
      var total := 0;
      for batch := 0 to maxBatches
        invariant removed <= |q| && cleanup.rows == Without(was, q[..removed])
        invariant Honest(cleanup.report) ==> total == removed == batch * batchSize
      {
        var deleted; ghost var n;
        deleted, n := Batch(cleanup, cutoff, was, removed);
        removed := removed + n;
        Times(batch, maxBatches, batchSize);
        if deleted < 0 || deleted > batchSize { return InvalidDeleteCount, removed; }
        total := total + deleted;
        if deleted < batchSize { return Ok(total), removed; }
      }
      return Ok(total), removed;
    }
  }

  lemma Times(a: nat, b: nat, c: nat)
    requires a < b
    ensures (a + 1) * c == a * c + c && (a + 1) * c <= b * c
  {
  }

  lemma NextBatch(rows: Rows, cutoff: int, removed: nat, n: nat)
    requires removed + n <= |Queue(rows, cutoff)|
    ensures var q := Queue(rows, cutoff); var left := Without(rows, q[..removed]);
      && Queue(left, cutoff) == q[removed..]
      && Without(left, q[removed..][..n]) == Without(rows, q[..removed + n])
  {
    var q := Queue(rows, cutoff);
    QueueAfter(rows, cutoff, removed);
    assert q[removed..][..n] == q[removed..removed + n];
    WithoutTwice(rows, q, removed, removed + n);
  }

  // ----- Superseded challenges -----

  /** A challenge document, by its object id. */
  datatype ChallengeDoc = ChallengeDoc(identifier: string, purpose: string, createdAt: int)

  type ChallengeDocs = map<nat, ChallengeDoc>

  /** A challenge as a cursor yields it. */
  datatype Dated = Dated(id: nat, doc: ChallengeDoc)

  function DatedAt(docs: ChallengeDocs, id: nat): Dated
    requires id in docs
  {
    Dated(id, docs[id])
  }

  /** Newest first: by creation, then by object id. */
  predicate NewerFirst(a: Dated, b: Dated) {
    a.doc.createdAt > b.doc.createdAt || (a.doc.createdAt == b.doc.createdAt && a.id >= b.id)
  }

  predicate SameKey(a: ChallengeDoc, b: ChallengeDoc) { a.identifier == b.identifier && a.purpose == b.purpose }

  /** No other challenge of the same key is newer. */
  ghost predicate Newest(docs: ChallengeDocs, id: nat)
    requires id in docs
  {
    forall other :: other in docs && SameKey(docs[other], docs[id]) ==>
      NewerFirst(DatedAt(docs, id), DatedAt(docs, other))
  }

  ghost function Current(docs: ChallengeDocs): ChallengeDocs {
    map id | id in docs && Newest(docs, id) :: docs[id]
  }

  lemma CurrentIsOnePerKey(docs: ChallengeDocs)
    ensures forall a, b :: a in Current(docs) && b in Current(docs) && SameKey(docs[a], docs[b]) ==> a == b
    ensures Current(Current(docs)) == Current(docs)
  {
    forall id | id in Current(docs) ensures Newest(Current(docs), id) {
    }
  }

  ghost function Newer(docs: ChallengeDocs, id: nat): set<nat>
    requires id in docs
  {
    set o | o in docs && SameKey(docs[o], docs[id]) && o != id && NewerFirst(DatedAt(docs, o), DatedAt(docs, id))
  }

  /** Every key that had a challenge still has one. */
  lemma {:induction false} CurrentKeepsKeys(docs: ChallengeDocs, id: nat)
    requires id in docs
    ensures exists kept :: kept in Current(docs) && SameKey(docs[kept], docs[id])
    decreases |Newer(docs, id)|
  {
    if Newest(docs, id) {
      assert id in Current(docs);
    } else {
      var o :| o in docs && SameKey(docs[o], docs[id]) && !NewerFirst(DatedAt(docs, id), DatedAt(docs, o));
      SmallerSet(Newer(docs, o), Newer(docs, id), o);
      CurrentKeepsKeys(docs, o);
    }
  }

  /** A challenge that goes was no newer than the one of its key that stays. */
  lemma NewestStays(docs: ChallengeDocs, gone: nat, kept: nat)
    requires gone in docs && gone !in Current(docs) && kept in Current(docs) && SameKey(docs[gone], docs[kept])
    ensures docs[gone].createdAt < docs[kept].createdAt
            || (docs[gone].createdAt == docs[kept].createdAt && gone < kept)
  {
    assert Newest(docs, kept);
  }

  lemma SmallerSet(a: set<nat>, b: set<nat>, x: nat)
    requires a <= b && x in b && x !in a
    ensures |a| < |b|
  {
    assert b == a + (b - a) && x in b - a;
  }

  // ----- The migration's pass over all challenges, newest first -----

  ghost function AllRows(docs: ChallengeDocs): set<Dated> { set id | id in docs :: DatedAt(docs, id) }

  /** A cursor over all documents, newest first. */
  ghost predicate IsCursor(docs: ChallengeDocs, c: seq<Dated>) {
    Sorted(NewerFirst, c) && multiset(c) == multiset(AllRows(docs))
  }

  lemma CursorRows(docs: ChallengeDocs, c: seq<Dated>)
    requires IsCursor(docs, c)
    ensures forall i :: 0 <= i < |c| ==> c[i].id in docs && c[i] == DatedAt(docs, c[i].id)
    ensures forall id :: id in docs ==> exists i :: 0 <= i < |c| && c[i].id == id
    ensures forall i, j :: 0 <= i < j < |c| ==> c[i].id != c[j].id
  {
    forall i | 0 <= i < |c| ensures c[i].id in docs && c[i] == DatedAt(docs, c[i].id) {
      assert c[i] in multiset(AllRows(docs));
    }
    forall id | id in docs ensures exists i :: 0 <= i < |c| && c[i].id == id {
      assert DatedAt(docs, id) in multiset(c);
      var i :| 0 <= i < |c| && c[i] == DatedAt(docs, id);
      assert c[i].id == id;
    }
    forall i, j | 0 <= i < j < |c| ensures c[i].id != c[j].id {
      Repeats(c, i, j);
      assert c[i] == DatedAt(docs, c[i].id) && c[j] == DatedAt(docs, c[j].id);
    }
  }

  lemma Repeats(c: seq<Dated>, i: nat, j: nat)
    requires i < j < |c|
    ensures c[i] == c[j] ==> multiset(c)[c[i]] >= 2
  {
    assert c == c[..j] + c[j..];
    assert c[i] in c[..j] && c[j] in c[j..];
  }

  ghost predicate First(c: seq<Dated>, i: nat)
    requires i < |c|
  {
    forall j :: 0 <= j < i ==> !SameKey(c[j].doc, c[i].doc)
  }

  lemma FirstIsNewest(docs: ChallengeDocs, c: seq<Dated>, i: nat)
    requires IsCursor(docs, c) && i < |c|
    ensures c[i].id in docs && (First(c, i) <==> Newest(docs, c[i].id))
  {
    CursorRows(docs, c);
    if First(c, i) {
      forall o | o in docs && SameKey(docs[o], docs[c[i].id])
        ensures NewerFirst(DatedAt(docs, c[i].id), DatedAt(docs, o))
      {
        var j :| 0 <= j < |c| && c[j].id == o;
        assert j >= i;
      }
    } else {
      var j :| 0 <= j < i && SameKey(c[j].doc, c[i].doc);
      assert NewerFirst(c[j], c[i]);
    }
  }

  lemma NewerFirstIsTotal()
    ensures TotalOrder(NewerFirst)
  {
  }

  function KeyOf(d: Dated): (string, string) { (d.doc.identifier, d.doc.purpose) }

  ghost predicate SeenTo(c: seq<Dated>, n: nat, seen: set<(string, string)>)
    requires n <= |c|
  {
    seen == set j | 0 <= j < n :: KeyOf(c[j])
  }

  lemma SeenNext(c: seq<Dated>, n: nat, seen: set<(string, string)>)
    requires n < |c| && SeenTo(c, n, seen)
    ensures KeyOf(c[n]) in seen <==> !First(c, n)
    ensures SeenTo(c, n + 1, seen + {KeyOf(c[n])})
  {
  }

  class ChallengeCollection {
    var docs: ChallengeDocs

    constructor (docs: ChallengeDocs)
      ensures this.docs == docs
    {
      this.docs := docs;
    }

    method FindNewestFirst() returns (cursor: seq<Dated>)
      ensures IsCursor(docs, cursor)
    {
      var found: seq<Dated> := [];
      var todo := docs.Keys;
      while todo != {}
        invariant todo <= docs.Keys
        invariant multiset(found) == multiset(set id | id in docs && id !in todo :: DatedAt(docs, id))
        decreases |todo|
      {
        var id :| id in todo;
        ghost var seen := set i | i in docs && i !in todo :: DatedAt(docs, i);
        found := found + [DatedAt(docs, id)];
        assert DatedAt(docs, id) !in seen;
        todo := todo - {id};
        assert (set i | i in docs && i !in todo :: DatedAt(docs, i)) == seen + {DatedAt(docs, id)};
      }
      NewerFirstIsTotal();
      SortIsSorted(NewerFirst, found);
      cursor := Sort(NewerFirst, found);
    }

    /** Keeps the newest challenge of every key, expired and consumed ones included. */
    method RemoveSuperseded() returns (deleted: nat)
      modifies this
      ensures docs == Current(old(docs)) && deleted == |old(docs)| - |docs|
    {
      var cursor := FindNewestFirst();
      ghost var was := docs;
      var seen: set<(string, string)> := {};
      deleted := 0;
      for i := 0 to |cursor|
        invariant docs == PassedTo(was, cursor, i) && IsCursor(was, cursor)
        invariant SeenTo(cursor, i, seen)
        invariant deleted == |was| - |docs|
      {
        var key := KeyOf(cursor[i]);
        PassedNext(was, cursor, i);
        SeenNext(cursor, i, seen);
        if key in seen {
          assert seen + {key} == seen;
          docs := docs - {cursor[i].id};
          deleted := deleted + 1;
        } else {
          seen := seen + {key};
        }
      }
      PassedAll(was, cursor);
    }
  }

  /** What is left once the first `n` rows of the cursor have been looked at. */
  ghost function PassedTo(docs: ChallengeDocs, c: seq<Dated>, n: nat): ChallengeDocs
    requires n <= |c|
  {
    map id | id in docs && (forall j :: 0 <= j < n && c[j].id == id ==> First(c, j)) :: docs[id]
  }

  lemma PassedNext(docs: ChallengeDocs, c: seq<Dated>, n: nat)
    requires IsCursor(docs, c) && n < |c|
    ensures PassedTo(docs, c, n + 1) == if First(c, n) then PassedTo(docs, c, n) else PassedTo(docs, c, n) - {c[n].id}
    ensures |PassedTo(docs, c, n + 1)| == |PassedTo(docs, c, n)| - if First(c, n) then 0 else 1
  {
    var before, after := PassedTo(docs, c, n), PassedTo(docs, c, n + 1);
    StillThere(docs, c, n);
    forall id ensures id in after <==> id in before && (id == c[n].id ==> First(c, n)) {
      if id in docs { PassedOne(docs, c, n, id); }
    }
    if !First(c, n) { assert before.Keys == after.Keys + {c[n].id}; } else { assert before.Keys == after.Keys; }
  }

  lemma StillThere(docs: ChallengeDocs, c: seq<Dated>, n: nat)
    requires IsCursor(docs, c) && n < |c|
    ensures c[n].id in PassedTo(docs, c, n)
  {
    CursorRows(docs, c);
  }

  lemma PassedOne(docs: ChallengeDocs, c: seq<Dated>, n: nat, id: nat)
    requires n < |c| && id in docs
    ensures id in PassedTo(docs, c, n + 1) <==> id in PassedTo(docs, c, n) && (id == c[n].id ==> First(c, n))
  {
  }

  lemma PassedAll(docs: ChallengeDocs, c: seq<Dated>)
    requires IsCursor(docs, c)
    ensures PassedTo(docs, c, |c|) == Current(docs)
  {
    CursorRows(docs, c);
    forall id | id in docs ensures id in PassedTo(docs, c, |c|) <==> id in Current(docs) {
      var i :| 0 <= i < |c| && c[i].id == id;
      FirstIsNewest(docs, c, i);
    }
  }
}
