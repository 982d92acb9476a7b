/** Descending order by an integer key: the in-place sort, and what its prefixes are worth. */
module Ranking {
  import opened Sums

  ghost predicate Descending<T>(s: seq<T>, key: T -> int) {
    forall i, j :: 0 <= i < j < |s| ==> key(s[i]) >= key(s[j])
  }

  /** What sort.Slice leaves: a rearrangement, descending; ties come in any order. */
  ghost predicate Ranks<T>(order: seq<T>, items: seq<T>, key: T -> int) {
    multiset(order) == multiset(items) && Descending(order, key)
  }

  lemma SameElements<T>(order: seq<T>, items: seq<T>, key: T -> int, x: T)
    requires Ranks(order, items, key)
    ensures x in order <==> x in items
    ensures |order| == |items|
  {
    assert x in multiset(order) <==> x in multiset(items);
    SumBag(order, items, key);
  }

  function Excess<T>(key: T -> int, floor: int): T -> int {
    x => if key(x) > floor then key(x) - floor else 0
  }

  /** A prefix of a ranking is the heaviest choice of that many items. */
  lemma PrefixIsHeaviest<T>(order: seq<T>, items: seq<T>, key: T -> int, choice: seq<T>)
    requires Ranks(order, items, key)
    requires multiset(choice) <= multiset(items)
    ensures |choice| <= |order|
    ensures Sum(choice, key) <= Sum(order[..|choice|], key)
  {
    SubBagShorter(choice, order);
    if |choice| > 0 {
      var floor := key(order[|choice| - 1]);
      SumSubBag(choice, order, Excess(key, floor));
      AboveFloor(choice, key, floor);
      ExcessIsInPrefix(order, key, |choice|);
    }
  }

  lemma SubBagShorter<T>(s: seq<T>, t: seq<T>)
    requires multiset(s) <= multiset(t)
    ensures |s| <= |t|
  {
    assert multiset(t) == multiset(s) + (multiset(t) - multiset(s));
    assert |multiset(s)| <= |multiset(t)|;
  }

  /** Above the k-th largest key there is nothing outside the first k. */
  lemma ExcessIsInPrefix<T>(order: seq<T>, key: T -> int, k: nat)
    requires Descending(order, key)
    requires 0 < k <= |order|
    ensures Sum(order, Excess(key, key(order[k - 1]))) == Sum(order[..k], key) - k * key(order[k - 1])
  {
    var floor := key(order[k - 1]);
    var top, rest := order[..k], order[k..];
    assert order == top + rest;
    SumConcat(top, rest, Excess(key, floor));
    AroundFloor(order, key, k);
    SumZero(rest, Excess(key, floor));
    ExactlyAboveFloor(top, key, floor);
  }

  lemma AroundFloor<T>(order: seq<T>, key: T -> int, k: nat)
    requires Descending(order, key)
    requires 0 < k <= |order|
    ensures forall i :: 0 <= i < |order[..k]| ==> key(order[..k][i]) >= key(order[k - 1])
    ensures forall i :: 0 <= i < |order[k..]| ==> Excess(key, key(order[k - 1]))(order[k..][i]) == 0
  {
    forall i | 0 <= i < k ensures key(order[i]) >= key(order[k - 1]) {
      if i < k - 1 { assert key(order[i]) >= key(order[k - 1]); }
    }
    forall i | 0 <= i < |order[k..]| ensures key(order[k..][i]) <= key(order[k - 1]) {
      assert key(order[k - 1]) >= key(order[k + i]);
    }
  }

  lemma {:induction false} AboveFloor<T>(s: seq<T>, key: T -> int, floor: int)
    ensures Sum(s, key) - |s| * floor <= Sum(s, Excess(key, floor))
    decreases |s|
  {
    if |s| > 0 {
      AboveFloor(s[..|s| - 1], key, floor);
      assert |s| * floor == (|s| - 1) * floor + floor;
    }
  }

  lemma {:induction false} ExactlyAboveFloor<T>(s: seq<T>, key: T -> int, floor: int)
    requires forall i :: 0 <= i < |s| ==> key(s[i]) >= floor
    ensures Sum(s, key) - |s| * floor == Sum(s, Excess(key, floor))
    decreases |s|
  {
    if |s| > 0 {
      var n := |s| - 1;
      forall i | 0 <= i < n ensures key(s[..n][i]) >= floor { assert key(s[i]) >= floor; }
      ExactlyAboveFloor(s[..n], key, floor);
      assert key(s[n]) >= floor;
      assert |s| * floor == n * floor + floor;
    }
  }

  // ---- every list has a ranking ----

  function Inserted<T>(s: seq<T>, x: T, key: T -> int): seq<T>
    decreases |s|
  {
    if |s| == 0 || key(x) >= key(s[0]) then [x] + s else [s[0]] + Inserted(s[1..], x, key)
  }

  lemma TailDescends<T>(s: seq<T>, key: T -> int)
    requires Descending(s, key) && |s| > 0
    ensures Descending(s[1..], key) && AtMost(s[1..], key, key(s[0]))
  {
    forall i, j | 0 <= i < j < |s[1..]| ensures key(s[1..][i]) >= key(s[1..][j]) {
      assert key(s[i + 1]) >= key(s[j + 1]);
    }
    forall i | 0 <= i < |s[1..]| ensures key(s[1..][i]) <= key(s[0]) {
      assert key(s[0]) >= key(s[i + 1]);
    }
  }

  ghost predicate AtMost<T>(s: seq<T>, key: T -> int, top: int) {
    forall i :: 0 <= i < |s| ==> key(s[i]) <= top
  }

  lemma {:induction false} InsertedRanks<T>(s: seq<T>, x: T, key: T -> int, top: int)
    requires Descending(s, key) && AtMost(s, key, top) && key(x) <= top
    ensures Descending(Inserted(s, x, key), key) && AtMost(Inserted(s, x, key), key, top)
    decreases |s|
  {
    if |s| > 0 && key(x) < key(s[0]) {
      TailDescends(s, key);
      InsertedRanks(s[1..], x, key, key(s[0]));
      var tail := Inserted(s[1..], x, key);
      forall i | 0 <= i < |tail| ensures key(tail[i]) <= key(s[0]) <= top {}
    }
  }

  lemma {:induction false} InsertedBag<T>(s: seq<T>, x: T, key: T -> int)
    ensures multiset(Inserted(s, x, key)) == multiset(s) + multiset{x}
    decreases |s|
  {
    if |s| > 0 && key(x) < key(s[0]) {
      InsertedBag(s[1..], x, key);
      assert s == [s[0]] + s[1..];
    }
  }

  function Largest<T>(s: seq<T>, x: T, key: T -> int): int {
    if |s| > 0 && key(s[0]) > key(x) then key(s[0]) else key(x)
  }

  lemma TailBelow<T>(s: seq<T>, x: T, key: T -> int)
    requires Descending(s, key)
    ensures AtMost(s, key, Largest(s, x, key))
  {
    forall i | 0 <= i < |s| ensures key(s[i]) <= Largest(s, x, key) {
      if i > 0 { assert key(s[0]) >= key(s[i]); }
    }
  }

  lemma {:induction false} SomeRanking<T>(items: seq<T>, key: T -> int) returns (order: seq<T>)
    ensures Ranks(order, items, key)
    decreases |items|
  {
    if |items| == 0 {
      order := [];
    } else {
      var n := |items| - 1;
      var rest := SomeRanking(items[..n], key);
      order := Inserted(rest, items[n], key);
      TailBelow(rest, items[n], key);
      InsertedRanks(rest, items[n], key, Largest(rest, items[n], key));
      InsertedBag(rest, items[n], key);
      assert items == items[..n] + [items[n]];
      assert multiset(items) == multiset(items[..n]) + multiset{items[n]};
    }
  }

  // ---- the in-place sort ----

  /** The first n + 1 items are descending, save for the one at j, which may be too large. */
  ghost predicate Sinking<T>(s: seq<T>, key: T -> int, n: nat, j: nat) {
    n < |s| && j <= n && forall p, q :: 0 <= p < q <= n && q != j ==> key(s[p]) >= key(s[q])
  }

  function Swapped<T>(s: seq<T>, j: nat): seq<T>
    requires 0 < j < |s|
  {
    s[j - 1 := s[j]][j := s[j - 1]]
  }

  lemma SinkOne<T>(s: seq<T>, key: T -> int, n: nat, j: nat)
    requires Sinking(s, key, n, j) && 0 < j && key(s[j - 1]) < key(s[j])
    ensures Sinking(Swapped(s, j), key, n, j - 1)
  {
    var t := Swapped(s, j);
    forall p, q | 0 <= p < q <= n && q != j - 1 ensures key(t[p]) >= key(t[q]) {
      if q == j && p < j - 1 { assert key(s[p]) >= key(s[j - 1]); }
      if q > j && p == j - 1 { assert key(s[j]) >= key(s[q]); }
      if q > j && p == j { assert key(s[j - 1]) >= key(s[q]); }
      if q > j && p != j - 1 && p != j { assert key(s[p]) >= key(s[q]); }
      if q < j - 1 { assert key(s[p]) >= key(s[q]); }
    }
  }

  lemma SwappedBag<T>(s: seq<T>, j: nat)
    requires 0 < j < |s|
    ensures multiset(Swapped(s, j)) == multiset(s)
  {
    assert s == s[..j - 1] + [s[j - 1], s[j]] + s[j + 1..];
    assert Swapped(s, j) == s[..j - 1] + [s[j], s[j - 1]] + s[j + 1..];
  }

  lemma Sunk<T>(s: seq<T>, key: T -> int, n: nat, j: nat)
    requires Sinking(s, key, n, j) && (j == 0 || key(s[j - 1]) >= key(s[j]))
    ensures Descending(s[..n + 1], key)
  {
    forall p, q | 0 <= p < q <= n ensures key(s[p]) >= key(s[q]) {
      if q == j && p < j - 1 { assert key(s[p]) >= key(s[j - 1]); }
    }
  }

  /** The sort, in place. */
  method SortDescending<T>(a: array<T>, key: T -> int)
    modifies a
    ensures Ranks(a[..], old(a[..]), key)
  {
    var n := 0;
    while n < a.Length
      invariant 0 <= n <= a.Length
      invariant Descending(a[..][..n], key)
      invariant multiset(a[..]) == multiset(old(a[..]))
    {
      var j := n;
      assert Sinking(a[..], key, n, n) by {
        forall p, q | 0 <= p < q < n ensures key(a[..][p]) >= key(a[..][q]) {
          assert key(a[..][..n][p]) >= key(a[..][..n][q]);
        }
      }
      while j > 0 && key(a[j - 1]) < key(a[j])
        invariant 0 <= j <= n
        invariant Sinking(a[..], key, n, j)
        invariant multiset(a[..]) == multiset(old(a[..]))
      {
        SinkOne(a[..], key, n, j);
        SwappedBag(a[..], j);
        ghost var next := Swapped(a[..], j);
        a[j - 1], a[j] := a[j], a[j - 1];
        assert a[..] == next;
        j := j - 1;
      }
      Sunk(a[..], key, n, j);
      n := n + 1;
    }
    assert a[..][..n] == a[..];
  }
}
