/** Sums over sequences, and the few laws about them the rest of the project counts with. */
module Sums {

  datatype Option<+T> = None | Some(value: T)

  function Sum<T>(s: seq<T>, f: T -> int): int
    decreases |s|
  {
    if |s| == 0 then 0 else Sum(s[..|s| - 1], f) + f(s[|s| - 1])
  }

  lemma SumSnoc<T>(s: seq<T>, x: T, f: T -> int)
    ensures Sum(s + [x], f) == Sum(s, f) + f(x)
  {
    assert (s + [x])[..|s|] == s;
  }

  lemma {:induction false} SumConcat<T>(a: seq<T>, b: seq<T>, f: T -> int)
    ensures Sum(a + b, f) == Sum(a, f) + Sum(b, f)
    decreases |b|
  {
    if |b| == 0 {
      assert a + b == a;
    } else {
      SumConcat(a, b[..|b| - 1], f);
      assert (a + b)[..|a + b| - 1] == a + b[..|b| - 1];
    }
  }

  lemma {:induction false} SumUpdate<T>(s: seq<T>, i: nat, x: T, f: T -> int)
    requires i < |s|
    ensures Sum(s[i := x], f) == Sum(s, f) - f(s[i]) + f(x)
    decreases |s|
  {
    var n := |s| - 1;
    if i == n {
      assert s[i := x][..n] == s[..n];
    } else {
      SumUpdate(s[..n], i, x, f);
      assert s[i := x][..n] == s[..n][i := x];
    }
  }

  lemma {:induction false} SumLe<S, T>(s: seq<S>, t: seq<T>, f: S -> int, g: T -> int)
    requires |s| == |t|
    requires forall i :: 0 <= i < |s| ==> f(s[i]) <= g(t[i])
    ensures Sum(s, f) <= Sum(t, g)
    decreases |s|
  {
    if |s| > 0 {
      var n := |s| - 1;
      assert f(s[n]) <= g(t[n]);
      forall i | 0 <= i < n ensures f(s[..n][i]) <= g(t[..n][i]) {
        assert f(s[i]) <= g(t[i]);
      }
      SumLe(s[..n], t[..n], f, g);
    }
  }

  lemma SumEq<S, T>(s: seq<S>, t: seq<T>, f: S -> int, g: T -> int)
    requires |s| == |t|
    requires forall i :: 0 <= i < |s| ==> f(s[i]) == g(t[i])
    ensures Sum(s, f) == Sum(t, g)
  {
    SumLe(s, t, f, g);
    SumLe(t, s, g, f);
  }

  lemma {:induction false} SumPlus<T>(s: seq<T>, f: T -> int, g: T -> int, h: T -> int)
    requires forall i :: 0 <= i < |s| ==> h(s[i]) == f(s[i]) + g(s[i])
    ensures Sum(s, h) == Sum(s, f) + Sum(s, g)
    decreases |s|
  {
    if |s| > 0 {
      var n := |s| - 1;
      assert h(s[n]) == f(s[n]) + g(s[n]);
      forall i | 0 <= i < n ensures h(s[..n][i]) == f(s[..n][i]) + g(s[..n][i]) {
        assert h(s[i]) == f(s[i]) + g(s[i]);
      }
      SumPlus(s[..n], f, g, h);
    }
  }

  lemma {:induction false} SumNonNegative<T>(s: seq<T>, f: T -> int)
    requires forall i :: 0 <= i < |s| ==> 0 <= f(s[i])
    ensures 0 <= Sum(s, f)
    decreases |s|
  {
    if |s| > 0 {
      var n := |s| - 1;
      assert 0 <= f(s[n]);
      forall i | 0 <= i < n ensures 0 <= f(s[..n][i]) { assert 0 <= f(s[i]); }
      SumNonNegative(s[..n], f);
    }
  }

  lemma SumZero<T>(s: seq<T>, f: T -> int)
    requires forall i :: 0 <= i < |s| ==> f(s[i]) == 0
    ensures Sum(s, f) == 0
  {
    SumEq(s, s, f, f);
    SumLe(s, s, f, (x: T) => 0);
    SumLe(s, s, (x: T) => 0, f);
    SumConst(s, 0);
  }

  lemma {:induction false} SumConst<T>(s: seq<T>, c: int)
    ensures Sum(s, (x: T) => c) == |s| * c
    decreases |s|
  {
    if |s| > 0 { SumConst(s[..|s| - 1], c); }
  }

  lemma SumOnes<T>(s: seq<T>, f: T -> int)
    requires forall i :: 0 <= i < |s| ==> f(s[i]) == 1
    ensures Sum(s, f) == |s|
  {
    var one := (x: T) => 1;
    SumEq(s, s, f, one);
    SumConst(s, 1);
    SumEq(s, s, one, (x: T) => 1);
  }

  /** Termwise below and equal in total means termwise equal. */
  lemma {:induction false} SumTight<T>(s: seq<T>, f: T -> int, g: T -> int)
    requires forall i :: 0 <= i < |s| ==> f(s[i]) <= g(s[i])
    requires Sum(s, f) == Sum(s, g)
    ensures forall i :: 0 <= i < |s| ==> f(s[i]) == g(s[i])
    decreases |s|
  {
    if |s| > 0 {
      var n := |s| - 1;
      forall i | 0 <= i < n ensures f(s[..n][i]) <= g(s[..n][i]) { assert f(s[i]) <= g(s[i]); }
      assert f(s[n]) <= g(s[n]);
      SumLe(s[..n], s[..n], f, g);
      SumTight(s[..n], f, g);
      forall i | 0 <= i < |s| ensures f(s[i]) == g(s[i]) {
        if i < n { assert s[..n][i] == s[i]; }
      }
    }
  }

  function Without<T>(s: seq<T>, i: nat): seq<T>
    requires i < |s|
  {
    s[..i] + s[i + 1..]
  }

  lemma SumSplit<T>(s: seq<T>, i: nat, f: T -> int)
    requires i <= |s|
    ensures Sum(s, f) == Sum(s[..i], f) + Sum(s[i..], f)
  {
    assert s[..i] + s[i..] == s;
    SumConcat(s[..i], s[i..], f);
  }

  lemma SumPick<T>(s: seq<T>, i: nat, f: T -> int)
    requires i < |s|
    ensures Sum(s, f) == Sum(s[..i], f) + f(s[i]) + Sum(s[i + 1..], f)
  {
    SumSplit(s, i + 1, f);
    assert s[..i + 1] == s[..i] + [s[i]];
    SumSnoc(s[..i], s[i], f);
  }

  lemma SumWithout<T>(s: seq<T>, i: nat, f: T -> int)
    requires i < |s|
    ensures Sum(s, f) == Sum(Without(s, i), f) + f(s[i])
  {
    SumPick(s, i, f);
    SumConcat(s[..i], s[i + 1..], f);
  }

  lemma BagWithout<T>(s: seq<T>, i: nat)
    requires i < |s|
    ensures multiset(Without(s, i)) == multiset(s) - multiset{s[i]}
    ensures forall k :: 0 <= k < |Without(s, i)| ==> Without(s, i)[k] == s[if k < i then k else k + 1]
  {
    var a, x, b := s[..i], [s[i]], s[i + 1..];
    assert s == (a + x) + b;
    assert multiset((a + x) + b) == multiset(a) + multiset(x) + multiset(b);
    assert multiset(a + b) == multiset(a) + multiset(b);
  }

  /** A smaller bag of non-negative terms has a smaller sum. */
  lemma {:induction false} SumSubBag<T>(s: seq<T>, t: seq<T>, f: T -> int)
    requires multiset(s) <= multiset(t)
    requires forall i :: 0 <= i < |t| ==> 0 <= f(t[i])
    ensures Sum(s, f) <= Sum(t, f)
    decreases |s|
  {
    if |s| == 0 {
      SumNonNegative(t, f);
    } else {
      var n := |s| - 1;
      var i := Matching(s, t, n);
      SumWithout(s, n, f);
      SumWithout(t, i, f);
      BagWithout(s, n);
      BagWithout(t, i);
      SumSubBag(Without(s, n), Without(t, i), f);
    }
  }

  lemma Matching<T>(s: seq<T>, t: seq<T>, n: nat) returns (i: nat)
    requires n < |s| && multiset(s) <= multiset(t)
    ensures i < |t| && t[i] == s[n]
  {
    assert s[n] in multiset(s);
    assert s[n] in multiset(t);
    i :| i < |t| && t[i] == s[n];
  }

  /** A sum does not depend on the order of its terms. */
  lemma {:induction false} SumBag<T>(s: seq<T>, t: seq<T>, f: T -> int)
    requires multiset(s) == multiset(t)
    ensures Sum(s, f) == Sum(t, f)
    ensures |s| == |t|
    decreases |s|
  {
    assert |s| == |multiset(s)| == |multiset(t)| == |t|;
    if |s| > 0 {
      var n := |s| - 1;
      var i := Matching(s, t, n);
      SumWithout(s, n, f);
      SumWithout(t, i, f);
      BagWithout(s, n);
      BagWithout(t, i);
      SumBag(Without(s, n), Without(t, i), f);
    }
  }

  /** Two different positions that each weigh one bring a sum of non-negative terms to two. */
  lemma SumTwo<T>(s: seq<T>, i: nat, j: nat, f: T -> int)
    requires i < j < |s|
    requires forall k :: 0 <= k < |s| ==> 0 <= f(s[k])
    requires f(s[i]) == 1 && f(s[j]) == 1
    ensures 2 <= Sum(s, f)
  {
    SumPick(s, j, f);
    SumAtLeast(s[..j], i, f);
    SumNonNegative(s[j + 1..], f);
  }

  lemma SumAtLeast<T>(s: seq<T>, i: nat, f: T -> int)
    requires i < |s|
    requires forall k :: 0 <= k < |s| ==> 0 <= f(s[k])
    ensures f(s[i]) <= Sum(s, f)
  {
    SumPick(s, i, f);
    SumNonNegative(s[..i], f);
    SumNonNegative(s[i + 1..], f);
  }

  /** When no two positions weigh one, a sum of zeros and ones is at most one. */
  lemma {:induction false} SumAtMostOne<T>(s: seq<T>, f: T -> int)
    requires forall i :: 0 <= i < |s| ==> f(s[i]) == 0 || f(s[i]) == 1
    requires forall i, j :: 0 <= i < j < |s| ==> f(s[i]) == 0 || f(s[j]) == 0
    ensures 0 <= Sum(s, f) <= 1
    decreases |s|
  {
    if |s| > 0 {
      var n := |s| - 1;
      forall i | 0 <= i < n ensures f(s[..n][i]) == f(s[i]) {}
      SumAtMostOne(s[..n], f);
      if f(s[n]) == 1 {
        forall i | 0 <= i < n ensures f(s[..n][i]) == 0 {
          var a, b := f(s[i]), f(s[n]);
          assert a == 0 || b == 0;
        }
        SumZero(s[..n], f);
      }
    }
  }

  /** A sum of ones is the number of the places that contribute. */
  lemma {:induction false} SumCounts<T>(s: seq<T>, f: T -> int, places: set<nat>)
    requires forall i: nat :: i < |s| ==> f(s[i]) == if i in places then 1 else 0
    requires forall i :: i in places ==> i < |s|
    ensures Sum(s, f) == |places|
    decreases |s|
  {
    if |s| == 0 {
      assert places == {};
    } else {
      var n := |s| - 1;
      assert f(s[n]) == if n in places then 1 else 0;
      var rest := places - {n};
      forall i: nat | i < n ensures f(s[..n][i]) == if i in rest then 1 else 0 {
        assert f(s[i]) == if i in places then 1 else 0;
      }
      SumCounts(s[..n], f, rest);
      if n in places { assert places == rest + {n}; } else { assert places == rest; }
    }
  }
}
