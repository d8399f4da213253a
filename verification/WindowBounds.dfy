/** What fixed windows guarantee over unbounded traces of requests, and of failed sign-ins. */
module WindowBounds {
  import opened Prelude
  import opened RateLimits

  predicate Nondecreasing(ts: seq<int>) {
    forall i, j :: 0 <= i <= j < |ts| ==> ts[i] <= ts[j]
  }

  /** The stored bucket opened no later than the trace begins. */
  predicate Opened(b: Option<Bucket>, ts: seq<int>) {
    b.Some? ==> b.value.count >= 1 && (ts != [] ==> b.value.start <= ts[0])
  }

  // ----- Requests -----

  /** The bucket after requests at the given times. */
  function After(b: Option<Bucket>, window: int, ts: seq<int>): Option<Bucket>
    decreases |ts|
  {
    if ts == [] then b else Some(Hit(After(b, window, ts[..|ts| - 1]), window, ts[|ts| - 1]))
  }

  /** The last request of the trace is let through. */
  predicate Admitted(b: Option<Bucket>, window: int, max: int, ts: seq<int>) {
    ts != [] && After(b, window, ts).value.count <= max
  }

  /** How many requests are let through in the fixed window that opened at `start`. */
  function AdmittedInWindow(b: Option<Bucket>, window: int, max: int, ts: seq<int>, start: int): nat
    decreases |ts|
  {
    if ts == [] then 0
    else
      AdmittedInWindow(b, window, max, ts[..|ts| - 1], start)
      + if Admitted(b, window, max, ts) && After(b, window, ts).value.start == start then 1 else 0
  }

  /** How many are let through at a time in [from, to). */
  function AdmittedBetween(b: Option<Bucket>, window: int, max: int, ts: seq<int>, from: int, to: int): nat
    decreases |ts|
  {
    if ts == [] then 0
    else
      AdmittedBetween(b, window, max, ts[..|ts| - 1], from, to)
      + if Admitted(b, window, max, ts) && from <= ts[|ts| - 1] < to then 1 else 0
  }

  lemma Shorter(b: Option<Bucket>, ts: seq<int>)
    requires ts != [] && Nondecreasing(ts) && Opened(b, ts)
    ensures Nondecreasing(ts[..|ts| - 1]) && Opened(b, ts[..|ts| - 1])
  {
  }

  /** The current window opened no later than its latest request. */
  lemma {:induction false} WindowOpened(b: Option<Bucket>, window: int, ts: seq<int>)
    requires window > 0 && Nondecreasing(ts) && Opened(b, ts) && ts != []
    ensures After(b, window, ts).value.start <= ts[|ts| - 1] && After(b, window, ts).value.count >= 1
    decreases |ts|
  {
    Shorter(b, ts);
    if |ts| > 1 { WindowOpened(b, window, ts[..|ts| - 1]); }
  }

  function Least(a: int, b: int): int { if a <= b then a else b }

  predicate WindowTally(b: Option<Bucket>, max: int, start: int, n: int) {
    && n <= max
    && (b.None? ==> n == 0)
    && (b.Some? && start == b.value.start ==> n <= b.value.count)
    && (b.Some? && start > b.value.start ==> n == 0)
  }

  /** Each fixed window lets at most `max` requests through, whatever the bucket held before. */
  lemma {:induction false} WindowAdmitsAtMost(b: Option<Bucket>, window: int, max: int, ts: seq<int>, start: int)
    requires window > 0 && max >= 0 && Nondecreasing(ts) && Opened(b, ts)
    ensures AdmittedInWindow(b, window, max, ts, start) <= max
    ensures WindowTally(After(b, window, ts), max, start, AdmittedInWindow(b, window, max, ts, start))
    decreases |ts|
  {
    if ts == [] {
    } else {
      Shorter(b, ts);
      WindowAdmitsAtMost(b, window, max, ts[..|ts| - 1], start);
      WindowOpened(b, window, ts);
      if |ts| > 1 { WindowOpened(b, window, ts[..|ts| - 1]); }
    }
  }

  /**
   No stretch as long as a window lets more through: the request that opens a window is in one stretch with it or lost
   to the last.
   */
  function IntervalLimit(max: int): int { if max >= 1 then 2 * max - 1 else 0 }

  predicate IntervalTally(b: Option<Bucket>, max: int, ts: seq<int>, from: int, to: int, n: int) {
    && n <= IntervalLimit(max)
    && (b.None? ==> n == 0)
    && (ts != [] && ts[|ts| - 1] < from ==> n == 0)
    && (max <= 0 ==> n == 0)
    && (max >= 1 && b.Some? && b.value.start < from ==> n <= Least(b.value.count, max) - 1)
    && (max >= 1 && b.Some? && b.value.start < to ==> n <= max - 1 + Least(b.value.count, max))
  }

  /** Any stretch of time no longer than a window lets fewer than twice `max` requests through. */
  lemma {:induction false} IntervalAdmitsUnderTwice(b: Option<Bucket>, window: int, max: int, ts: seq<int>,
                                                    from: int, to: int)
    requires window > 0 && Nondecreasing(ts) && Opened(b, ts) && to <= from + window
    ensures AdmittedBetween(b, window, max, ts, from, to) <= IntervalLimit(max)
    ensures IntervalTally(After(b, window, ts), max, ts, from, to, AdmittedBetween(b, window, max, ts, from, to))
    decreases |ts|
  {
    if ts == [] {
    } else {
      Shorter(b, ts);
      IntervalAdmitsUnderTwice(b, window, max, ts[..|ts| - 1], from, to);
      WindowOpened(b, window, ts);
      if |ts| > 1 { WindowOpened(b, window, ts[..|ts| - 1]); }
    }
  }

  /** One request at 0 and `late` more at the window's last instant. */
  function Late(window: int, late: nat): seq<int> {
    if late == 0 then [0] else Late(window, late - 1) + [window - 1]
  }

  /** The same, and `next` more at the first instant after the window. */
  function Straddling(window: int, late: nat, next: nat): seq<int> {
    if next == 0 then Late(window, late) else Straddling(window, late, next - 1) + [window]
  }

  ghost predicate Straddles(window: int, max: int, ts: seq<int>, last: int, b: Bucket, n: int) {
    && ts != [] && ts[|ts| - 1] == last && Nondecreasing(ts) && After(None, window, ts) == Some(b)
    && AdmittedBetween(None, window, max, ts, window - 1, 2 * window - 1) == n
  }

  lemma StraddlesNext(window: int, max: int, ts: seq<int>, last: int, b: Bucket, n: int, t: int, hit: Bucket, m: int)
    requires Straddles(window, max, ts, last, b, n) && last <= t && hit == Hit(Some(b), window, t)
    requires m == n + if hit.count <= max && window - 1 <= t < 2 * window - 1 then 1 else 0
    ensures Straddles(window, max, ts + [t], t, hit, m)
  {
    assert (ts + [t])[..|ts|] == ts && (ts + [t])[|ts|] == t;
  }

  function LateLast(window: int, late: nat): int { if late > 0 then window - 1 else 0 }

  lemma FirstTally(window: int, max: int)
    requires window >= 2
    ensures Straddles(window, max, [0], 0, Bucket(1, 0), 0)
  {
    assert [0][..0] == [];
    assert After(None, window, [0]) == Some(Hit(None, window, 0));
  }

  lemma {:induction false} LateTally(window: int, max: int, late: nat)
    requires window >= 2 && late < max
    ensures Straddles(window, max, Late(window, late), LateLast(window, late), Bucket(late + 1, 0), late)
  {
    if late == 0 {
      FirstTally(window, max);
    } else {
      LateTally(window, max, late - 1);
      LateNext(window, max, late, Late(window, late - 1));
    }
  }

  lemma LateNext(window: int, max: int, late: nat, pre: seq<int>)
    requires window >= 2 && 0 < late < max
    requires Straddles(window, max, pre, LateLast(window, late - 1), Bucket(late, 0), late - 1)
    ensures Straddles(window, max, pre + [window - 1], window - 1, Bucket(late + 1, 0), late)
  {
    StraddlesNext(window, max, pre, LateLast(window, late - 1), Bucket(late, 0), late - 1,
                  window - 1, Bucket(late + 1, 0), late);
  }

  lemma {:induction false} StraddlingTally(window: int, max: int, late: nat, next: nat)
    requires window >= 2 && late < max && 1 <= next <= max
    ensures Straddles(window, max, Straddling(window, late, next), window, Bucket(next, window), late + next)
    decreases next
  {
    var pre := Straddling(window, late, next - 1);
    if next == 1 {
      LateTally(window, max, late);
      StraddlesNext(window, max, pre, LateLast(window, late), Bucket(late + 1, 0), late, window, Bucket(1, window),
        late + 1);
    } else {
      StraddlingTally(window, max, late, next - 1);
      StraddlesNext(window, max, pre, window, Bucket(next - 1, window), late + next - 1, window,
        Bucket(next, window), late + next);
    }
  }

  /** The interval bound is the best possible: for every limit some trace reaches it. */
  lemma IntervalLimitIsReached(window: int, max: int)
    requires window >= 2 && max >= 1
    ensures exists ts: seq<int> :: (Nondecreasing(ts)
      && AdmittedBetween(None, window, max, ts, window - 1, 2 * window - 1) == IntervalLimit(max))
  {
    StraddlingTally(window, max, max - 1, max);
    assert Nondecreasing(Straddling(window, max - 1, max));
  }

  // ----- Who exactly is let through -----

  /** How many requests of the trace, this bucket's own hits included, fall in the window that is open at its end. */
  function InWindow(b: Option<Bucket>, window: int, ts: seq<int>): nat
    requires b.Some? ==> b.value.count >= 0
    decreases |ts|
  {
    if ts == [] then if b.Some? then b.value.count else 0
    else
      var pre, now := ts[..|ts| - 1], ts[|ts| - 1];
      var open := After(b, window, pre);
      if open.Some? && now < open.value.start + window then InWindow(b, window, pre) + 1 else 1
  }

  /**
   A request is let through exactly when it is among the first `max` of its window. A window opens with the first
   request at or after the end of the one before, and lasts for exactly its length.
   */
  lemma {:induction false} AdmittedExactly(b: Option<Bucket>, window: int, max: int, ts: seq<int>)
    requires ts != [] && (b.Some? ==> b.value.count >= 0)
    ensures Admitted(b, window, max, ts) <==> InWindow(b, window, ts) <= max
    ensures After(b, window, ts).value.count == InWindow(b, window, ts)
    ensures var pre, now := ts[..|ts| - 1], ts[|ts| - 1]; var open := After(b, window, pre);
      After(b, window, ts).value.start
      == if open.Some? && now < open.value.start + window then open.value.start else now
    decreases |ts|
  {
    if |ts| == 1 {
      assert ts[..0] == [];
    } else {
      AdmittedExactly(b, window, max, ts[..|ts| - 1]);
    }
  }

  // ----- Failed sign-ins -----

  /** One sign-in with a wrong password: the lock is looked up, and later the failure is recorded. */
  datatype Failure = Failure(checkedAt: int, recordedAt: int)

  predicate Sequential(fs: seq<Failure>) {
    && (forall i :: 0 <= i < |fs| ==> fs[i].checkedAt <= fs[i].recordedAt)
    && (forall i, j :: 0 <= i < j < |fs| ==> fs[i].recordedAt <= fs[j].checkedAt)
  }

  predicate OpenedBefore(b: Option<Bucket>, fs: seq<Failure>) {
    b.Some? && fs != [] ==> b.value.start <= fs[0].checkedAt
  }

  function AfterFailures(b: Option<Bucket>, maxFailures: int, window: int, fs: seq<Failure>): Option<Bucket>
    decreases |fs|
  {
    if fs == [] then b
    else
      var before := AfterFailures(b, maxFailures, window, fs[..|fs| - 1]);
      var f := fs[|fs| - 1];
      if Locked(before, maxFailures, window, f.checkedAt) then before else Some(Hit(before, window, f.recordedAt))
  }

  /** The last sign-in of the list gets past the lock, so its password is examined. */
  predicate Examined(b: Option<Bucket>, maxFailures: int, window: int, fs: seq<Failure>) {
    fs != [] && !Locked(AfterFailures(b, maxFailures, window, fs[..|fs| - 1]), maxFailures, window,
      fs[|fs| - 1].checkedAt)
  }

  /** Failures examined and recorded in the window that opened at `start`. */
  function ExaminedInWindow(b: Option<Bucket>, maxFailures: int, window: int, fs: seq<Failure>, start: int): nat
    decreases |fs|
  {
    if fs == [] then 0
    else
      ExaminedInWindow(b, maxFailures, window, fs[..|fs| - 1], start)
      + if Examined(b, maxFailures, window, fs) &&
        AfterFailures(b, maxFailures, window, fs).value.start == start then 1 else 0
  }

  predicate LockTally(b: Option<Bucket>, maxFailures: int, start: int, n: int) {
    && n <= maxFailures + 1
    && (b.None? ==> n == 0)
    && (b.Some? ==> 1 <= b.value.count <= maxFailures + 1)
    && (b.Some? && start == b.value.start ==> n <= b.value.count)
    && (b.Some? && start > b.value.start ==> n == 0)
  }

  lemma {:induction false} LockWindowOpened(b: Option<Bucket>, maxFailures: int, window: int, fs: seq<Failure>)
    requires window > 0 && Sequential(fs) && OpenedBefore(b, fs) && fs != []
    ensures var after := AfterFailures(b, maxFailures, window, fs);
            after.Some? && after.value.start <= fs[|fs| - 1].recordedAt
    decreases |fs|
  {
    if |fs| > 1 { LockWindowOpened(b, maxFailures, window, fs[..|fs| - 1]); }
  }

  /** One window examines at most one wrong password more than the limit: the lock comes after the count passes it. */
  lemma {:induction false} WindowExaminesAtMost(b: Option<Bucket>, maxFailures: int, window: int, fs: seq<Failure>,
                                                start: int)
    requires window > 0 && maxFailures >= 0 && Sequential(fs) && OpenedBefore(b, fs)
    requires b.Some? ==> 1 <= b.value.count <= maxFailures + 1
    ensures ExaminedInWindow(b, maxFailures, window, fs, start) <= maxFailures + 1
    ensures LockTally(AfterFailures(b, maxFailures, window, fs), maxFailures, start,
            ExaminedInWindow(b, maxFailures, window, fs, start))
    decreases |fs|
  {
    if fs == [] {
    } else {
      WindowExaminesAtMost(b, maxFailures, window, fs[..|fs| - 1], start);
      if |fs| > 1 { LockWindowOpened(b, maxFailures, window, fs[..|fs| - 1]); }
    }
  }

  /** `n` failures at one instant. */
  function Burst(n: nat): seq<Failure> { seq(n, _ => Failure(0, 0)) }

  /** And the one more does get through: at one instant, the limit plus one are examined before the lock falls. */
  lemma {:induction false} OneMoreIsExamined(maxFailures: nat, window: int, n: nat)
    requires window > 0 && n <= maxFailures + 1
    ensures ExaminedInWindow(None, maxFailures, window, Burst(n), 0) == n
    ensures AfterFailures(None, maxFailures, window, Burst(n)) == if n == 0 then None else Some(Bucket(n, 0))
    ensures Locked(AfterFailures(None, maxFailures, window, Burst(n)), maxFailures, window, 0) <==> n == maxFailures + 1
    decreases n
  {
    if n > 0 {
      OneMoreIsExamined(maxFailures, window, n - 1);
      assert Burst(n)[..n - 1] == Burst(n - 1);
    }
  }

  /**
   After a run of failures at one instant, the lock holds exactly while there were more of them than the limit and the
   window that began with them is still open.
   */
  lemma LockedExactly(maxFailures: nat, window: int, n: nat, now: int)
    requires window > 0 && n <= maxFailures + 1 && now >= 0
    ensures Locked(AfterFailures(None, maxFailures, window, Burst(n)), maxFailures, window, now)
            <==> n > maxFailures && now < window
  {
    OneMoreIsExamined(maxFailures, window, n);
  }

  /** Whatever the bucket, an identifier is locked exactly past the limit and before the end of its window. */
  lemma LockLasts(b: Bucket, maxFailures: int, window: int, now: int)
    ensures Locked(Some(b), maxFailures, window, now) <==> b.count > maxFailures && now < b.start + window
  {
  }
}
