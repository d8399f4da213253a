/** The order of strings, and sorting by a key as Python's `sorted` does it. */
module Ordering {

  /** Strings compare code point by code point; a proper prefix is smaller. */
  predicate TextLess(a: string, b: string)
    decreases |a|
  {
    if b == [] then false
    else if a == [] then true
    else a[0] < b[0] || (a[0] == b[0] && TextLess(a[1..], b[1..]))
  }

  lemma {:induction false} TextTotal(a: string, b: string)
    ensures TextLess(a, b) || a == b || TextLess(b, a)
    ensures !(TextLess(a, b) && TextLess(b, a))
    ensures !TextLess(a, a)
    decreases |a|
  {
    if a == [] {
    } else {
      TextTotal(a[1..], a[1..]);
      if b != [] && a[0] == b[0] {
        TextTotal(a[1..], b[1..]);
        assert a == [a[0]] + a[1..] && b == [b[0]] + b[1..];
      }
    }
  }

  lemma {:induction false} TextTransitive(a: string, b: string, c: string)
    requires TextLess(a, b) && TextLess(b, c)
    ensures TextLess(a, c)
    decreases |a|
  {
    if a != [] && a[0] == b[0] == c[0] {
      TextTransitive(a[1..], b[1..], c[1..]);
    }
  }

  /** One string is smaller exactly when it is a proper prefix, or smaller where the two first differ. */
  lemma {:induction false} TextLessExactly(a: string, b: string)
    ensures TextLess(a, b) <==>
              exists k :: 0 <= k <= |a| && k < |b| && a[..k] == b[..k] && (k == |a| || a[k] < b[k])
    decreases |a|
  {
    if b == [] {
    } else if a == [] {
      assert a[..0] == b[..0];
    } else if a[0] == b[0] {
      TextLessExactly(a[1..], b[1..]);
      if TextLess(a, b) {
        var x, y := a[1..], b[1..];
        var k :| 0 <= k <= |x| && k < |y| && x[..k] == y[..k] && (k == |x| || x[k] < y[k]);
        assert a[..k + 1] == [a[0]] + x[..k] && b[..k + 1] == [b[0]] + y[..k];
      }
      if k :| 0 <= k <= |a| && k < |b| && a[..k] == b[..k] && (k == |a| || a[k] < b[k]) {
        assert k > 0;
        assert a[1..][..k - 1] == a[..k][1..] && b[1..][..k - 1] == b[..k][1..];
      }
    } else {
      assert a[..0] == b[..0];
      forall k | 0 < k <= |a| && k < |b| ensures a[..k] != b[..k] { assert a[..k][0] != b[..k][0]; }
    }
  }

  predicate TextAtMost(a: string, b: string) { !TextLess(b, a) }

  lemma TextAtMostOrders()
    ensures TotalOrder(TextAtMost)
    ensures forall a, b :: TextAtMost(a, b) && TextAtMost(b, a) ==> a == b
  {
    forall a: string, b: string ensures TextAtMost(a, b) || TextAtMost(b, a) { TextTotal(a, b); }
    forall a: string, b: string | TextAtMost(a, b) && TextAtMost(b, a) ensures a == b { TextTotal(a, b); }
    forall a: string, b: string, c: string | TextAtMost(a, b) && TextAtMost(b, c) ensures TextAtMost(a, c) {
      TextTotal(a, b);
      TextTotal(b, c);
      TextTotal(a, c);
      if TextLess(a, b) && TextLess(b, c) { TextTransitive(a, b, c); }
    }
  }

  // ----- Stable sorting -----

  /** `le` orders all values: it is total and transitive. Different values may still be equivalent. */
  ghost predicate TotalOrder<T(!new)>(le: (T, T) -> bool) {
    && (forall a, b :: le(a, b) || le(b, a))
    && (forall a, b, c :: le(a, b) && le(b, c) ==> le(a, c))
  }

  ghost predicate Sorted<T>(le: (T, T) -> bool, xs: seq<T>) {
    forall i, j :: 0 <= i < j < |xs| ==> le(xs[i], xs[j])
  }

  function Insert<T>(le: (T, T) -> bool, x: T, xs: seq<T>): seq<T> {
    if xs == [] then [x]
    else if le(x, xs[0]) then [x] + xs
    else [xs[0]] + Insert(le, x, xs[1..])
  }

  function Sort<T>(le: (T, T) -> bool, xs: seq<T>): seq<T> {
    if xs == [] then [] else Insert(le, xs[0], Sort(le, xs[1..]))
  }

  lemma {:induction false} InsertMultiset<T>(le: (T, T) -> bool, x: T, xs: seq<T>)
    ensures multiset(Insert(le, x, xs)) == multiset(xs) + multiset{x}
  {
    if xs == [] {
    } else if le(x, xs[0]) {
      assert Insert(le, x, xs) == [x] + xs;
    } else {
      InsertMultiset(le, x, xs[1..]);
      assert xs == [xs[0]] + xs[1..];
      assert Insert(le, x, xs) == [xs[0]] + Insert(le, x, xs[1..]);
    }
  }

  lemma {:induction false} InsertIsSorted<T(!new)>(le: (T, T) -> bool, x: T, xs: seq<T>)
    requires TotalOrder(le) && Sorted(le, xs)
    ensures Sorted(le, Insert(le, x, xs))
  {
    if xs != [] && !le(x, xs[0]) {
      InsertIsSorted(le, x, xs[1..]);
      InsertMultiset(le, x, xs[1..]);
      var rest := Insert(le, x, xs[1..]);
      forall j | 0 <= j < |rest| ensures le(xs[0], rest[j]) {
        assert rest[j] in multiset(rest);
        assert rest[j] == x || rest[j] in xs[1..];
      }
    } else if xs != [] {
      forall j | 0 <= j < |xs| ensures le(x, xs[j]) { assert j == 0 || le(xs[0], xs[j]); }
    }
  }

  lemma {:induction false} SortIsSorted<T(!new)>(le: (T, T) -> bool, xs: seq<T>)
    requires TotalOrder(le)
    ensures Sorted(le, Sort(le, xs))
    ensures multiset(Sort(le, xs)) == multiset(xs)
  {
    if xs == [] {
    } else {
      SortIsSorted(le, xs[1..]);
      InsertIsSorted(le, xs[0], Sort(le, xs[1..]));
      InsertMultiset(le, xs[0], Sort(le, xs[1..]));
      assert xs == [xs[0]] + xs[1..];
    }
  }

  /** No two different members of the list are equivalent. */
  ghost predicate Distinguishes<T>(le: (T, T) -> bool, xs: seq<T>) {
    forall i, j :: 0 <= i < |xs| && 0 <= j < |xs| && le(xs[i], xs[j]) && le(xs[j], xs[i]) ==> xs[i] == xs[j]
  }

  lemma SameHead<T(!new)>(le: (T, T) -> bool, xs: seq<T>, ys: seq<T>)
    requires TotalOrder(le) && Sorted(le, xs) && Sorted(le, ys) && multiset(xs) == multiset(ys) && Distinguishes(le, xs)
    requires xs != [] && ys != []
    ensures xs[0] == ys[0]
  {
    assert xs[0] in multiset(ys) && ys[0] in multiset(xs);
    var i :| 0 <= i < |ys| && ys[i] == xs[0];
    var j :| 0 <= j < |xs| && xs[j] == ys[0];
    assert le(xs[0], xs[0]) && le(ys[0], ys[0]);
    assert le(xs[0], xs[j]) && le(ys[0], ys[i]);
  }

  lemma TailMultiset<T>(xs: seq<T>)
    requires xs != []
    ensures multiset(xs[1..]) == multiset(xs) - multiset{xs[0]}
  {
    assert xs == [xs[0]] + xs[1..];
  }

  /** Then there is only one sorted arrangement of them. */
  lemma {:induction false} SortedIsUnique<T(!new)>(le: (T, T) -> bool, xs: seq<T>, ys: seq<T>)
    requires TotalOrder(le) && Sorted(le, xs) && Sorted(le, ys) && multiset(xs) == multiset(ys) && Distinguishes(le, xs)
    ensures xs == ys
  {
    assert |xs| == |multiset(xs)| == |multiset(ys)| == |ys|;
    if xs == [] {
    } else {
      SameHead(le, xs, ys);
      TailMultiset(xs);
      TailMultiset(ys);
      SortedIsUnique(le, xs[1..], ys[1..]);
    }
  }

  /** Sorting forgets the order its input came in. */
  lemma SortIgnoresOrder<T(!new)>(le: (T, T) -> bool, xs: seq<T>, ys: seq<T>)
    requires TotalOrder(le) && multiset(xs) == multiset(ys) && Distinguishes(le, xs)
    ensures Sort(le, xs) == Sort(le, ys)
  {
    SortIsSorted(le, xs);
    SortIsSorted(le, ys);
    DistinguishesSorted(le, xs, Sort(le, xs));
    SortedIsUnique(le, Sort(le, xs), Sort(le, ys));
  }

  lemma DistinguishesSorted<T>(le: (T, T) -> bool, xs: seq<T>, ys: seq<T>)
    requires multiset(xs) == multiset(ys) && Distinguishes(le, xs)
    ensures Distinguishes(le, ys)
  {
    forall i, j | 0 <= i < |ys| && 0 <= j < |ys| && le(ys[i], ys[j]) && le(ys[j], ys[i]) ensures ys[i] == ys[j] {
      assert ys[i] in multiset(ys) && ys[j] in multiset(ys);
      var k :| 0 <= k < |xs| && xs[k] == ys[i];
      var l :| 0 <= l < |xs| && xs[l] == ys[j];
    }
  }

  // ----- Lists built from lists -----

  function Flatten<T, U>(f: T -> seq<U>, xs: seq<T>): seq<U>
    decreases |xs|
  {
    if xs == [] then [] else Flatten(f, xs[..|xs| - 1]) + f(xs[|xs| - 1])
  }

  lemma FlattenNext<T, U>(f: T -> seq<U>, xs: seq<T>, n: nat)
    requires n < |xs|
    ensures Flatten(f, xs[..n + 1]) == Flatten(f, xs[..n]) + f(xs[n])
  {
    assert xs[..n + 1][..n] == xs[..n];
  }

  lemma {:induction false} FlattenMembers<T(!new), U>(f: T -> seq<U>, xs: seq<T>, u: U)
    ensures u in Flatten(f, xs) <==> exists x :: x in xs && u in f(x)
    decreases |xs|
  {
    if xs == [] {
    } else {
      var pre, last := xs[..|xs| - 1], xs[|xs| - 1];
      FlattenMembers(f, pre, u);
      assert xs == pre + [last];
      assert forall x :: x in xs <==> x in pre || x == last;
    }
  }

  lemma {:induction false} FlattenConcat<T, U>(f: T -> seq<U>, xs: seq<T>, ys: seq<T>)
    ensures Flatten(f, xs + ys) == Flatten(f, xs) + Flatten(f, ys)
    decreases |ys|
  {
    if ys == [] {
      assert xs + ys == xs;
    } else {
      var pre, last := ys[..|ys| - 1], ys[|ys| - 1];
      FlattenConcat(f, xs, pre);
      assert (xs + ys)[..|xs + ys| - 1] == xs + pre && (xs + ys)[|xs + ys| - 1] == last;
      assert Flatten(f, xs + ys) == Flatten(f, xs + pre) + f(last);
    }
  }

  lemma SplitAt<T>(ys: seq<T>, x: T) returns (head: seq<T>, tail: seq<T>)
    requires x in ys
    ensures ys == head + [x] + tail && multiset(head + tail) == multiset(ys) - multiset{x}
  {
    var i :| 0 <= i < |ys| && ys[i] == x;
    head, tail := ys[..i], ys[i + 1..];
    assert ys == head + [x] + tail;
    MiddleOut(head, [x], tail);
  }

  lemma FlattenAround<T, U>(f: T -> seq<U>, head: seq<T>, x: T, tail: seq<T>)
    ensures Flatten(f, head + [x] + tail) == Flatten(f, head) + f(x) + Flatten(f, tail)
  {
    FlattenConcat(f, head + [x], tail);
    assert (head + [x])[..|head|] == head;
  }

  lemma MiddleOut<U>(a: seq<U>, b: seq<U>, c: seq<U>)
    ensures multiset(a + b + c) == multiset(a + c) + multiset(b)
  {
  }

  lemma FlattenWithout<T, U>(f: T -> seq<U>, head: seq<T>, x: T, tail: seq<T>)
    ensures multiset(Flatten(f, head + [x] + tail)) == multiset(Flatten(f, head + tail)) + multiset(f(x))
  {
    FlattenAround(f, head, x, tail);
    FlattenConcat(f, head, tail);
    MiddleOut(Flatten(f, head), f(x), Flatten(f, tail));
  }

  /** Rearranging the pieces rearranges the whole. */
  lemma {:induction false} FlattenIgnoresOrder<T, U>(f: T -> seq<U>, xs: seq<T>, ys: seq<T>)
    requires multiset(xs) == multiset(ys)
    ensures multiset(Flatten(f, xs)) == multiset(Flatten(f, ys))
    decreases |xs|
  {
    if xs == [] {
      assert |multiset(ys)| == 0;
    } else {
      var pre, x := xs[..|xs| - 1], xs[|xs| - 1];
      assert xs == pre + [x];
      assert x in multiset(ys);
      var head, tail := SplitAt(ys, x);
      FlattenIgnoresOrder(f, pre, head + tail);
      FlattenWithout(f, head, x, tail);
    }
  }

  /** Pieces that agree up to order give wholes that do. */
  lemma {:induction false} FlattenPointwise<T, U>(f: T -> seq<U>, xs: seq<T>, g: T -> seq<U>, ys: seq<T>)
    requires |xs| == |ys| && forall i :: 0 <= i < |xs| ==> multiset(f(xs[i])) == multiset(g(ys[i]))
    ensures multiset(Flatten(f, xs)) == multiset(Flatten(g, ys))
    decreases |xs|
  {
    if xs == [] {
    } else {
      FlattenPointwise(f, xs[..|xs| - 1], g, ys[..|ys| - 1]);
    }
  }

  // ----- Distinct keys -----

  ghost predicate DistinctKeys<T(!new), K>(key: T -> K, xs: seq<T>) {
    forall i, j :: 0 <= i < j < |xs| ==> key(xs[i]) != key(xs[j])
  }

  ghost predicate KeysIdentify<T(!new), K>(key: T -> K, xs: multiset<T>) {
    && (forall x :: x in xs ==> xs[x] == 1)
    && (forall x, y :: x in xs && y in xs && key(x) == key(y) ==> x == y)
  }

  lemma Occurrences<T>(xs: seq<T>, i: nat, j: nat)
    requires i < j < |xs|
    ensures xs[i] == xs[j] ==> multiset(xs)[xs[i]] >= 2
  {
    assert xs == xs[..j] + xs[j..];
    assert xs[i] in xs[..j] && xs[j] in xs[j..];
  }

  lemma {:induction false} DistinctCount<T(!new), K>(key: T -> K, xs: seq<T>)
    requires DistinctKeys(key, xs)
    ensures KeysIdentify(key, multiset(xs))
  {
    if xs == [] {
    } else {
      var n := |xs| - 1;
      DistinctCount(key, xs[..n]);
      assert xs == xs[..n] + [xs[n]];
      assert xs[n] !in xs[..n];
      forall x | x in multiset(xs) ensures multiset(xs)[x] == 1 {
        assert x in xs[..n] || x == xs[n];
      }
    }
  }

  lemma IdentifyDistinct<T(!new), K>(key: T -> K, xs: seq<T>)
    requires KeysIdentify(key, multiset(xs))
    ensures DistinctKeys(key, xs)
  {
    forall i, j | 0 <= i < j < |xs| ensures key(xs[i]) != key(xs[j]) {
      Occurrences(xs, i, j);
      assert xs[i] in multiset(xs) && xs[j] in multiset(xs);
    }
  }

  lemma DistinctIgnoresOrder<T(!new), K>(key: T -> K, xs: seq<T>, ys: seq<T>)
    requires multiset(xs) == multiset(ys) && DistinctKeys(key, xs)
    ensures DistinctKeys(key, ys)
  {
    DistinctCount(key, xs);
    IdentifyDistinct(key, ys);
  }
}
