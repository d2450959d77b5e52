/** Small vocabulary shared by the task graph, the priority strategies and the
    simulation engine: an Option type, distinct sequences, integer intervals,
    and the existence of a minimum in a finite set (which is what a heap pop
    relies on). */
module Common {

  datatype Option<T> = None | Some(value: T)

  /** The list 0, 1, .., n-1 (empty when n is not positive), as Python's
      `range(n)` gives it. */
  function Range(n: int): (r: seq<int>)
    ensures |r| == if n < 0 then 0 else n
    ensures forall i :: 0 <= i < |r| ==> r[i] == i
    ensures forall x :: x in r <==> 0 <= x < n
  {
    if n <= 0 then [] else Range(n - 1) + [n - 1]
  }

  /** The integers 0 .. n-1. */
  ghost function Interval(n: int): set<int>
  {
    set i | i in Range(n)
  }

  /** No element occurs twice. */
  predicate Distinct<T(==)>(s: seq<T>)
  {
    forall i, j :: 0 <= i < j < |s| ==> s[i] != s[j]
  }

  /** `s` lists each of 0 .. n-1 exactly once (what `random.shuffle` of
      `list(range(n))` produces). */
  ghost predicate IsPermutation(s: seq<int>, n: int)
  {
    |s| == n && Distinct(s) && forall i :: 0 <= i < |s| ==> 0 <= s[i] < n
  }

  /** The elements of a sequence, as a set. */
  ghost function Elements<T>(s: seq<T>): set<T>
  {
    set x | x in s
  }

  lemma {:induction false} IntervalSize(n: nat)
    ensures |Interval(n)| == n
  {
    if n > 0 {
      IntervalSize(n - 1);
      assert Interval(n) == Interval(n - 1) + {n - 1};
    }
  }

  lemma {:induction false} DistinctSize<T>(s: seq<T>)
    requires Distinct(s)
    ensures |Elements(s)| == |s|
  {
    if |s| > 0 {
      var tail := s[1..];
      assert Distinct(tail) by {
        forall i, j | 0 <= i < j < |tail| ensures tail[i] != tail[j] {
          assert tail[i] == s[i + 1] && tail[j] == s[j + 1];
        }
      }
      DistinctSize(tail);
      assert Elements(s) == Elements(tail) + {s[0]};
      assert s[0] !in Elements(tail) by {
        forall k | 0 <= k < |tail| ensures tail[k] != s[0] {
          assert tail[k] == s[k + 1];
        }
      }
    }
  }

  /** A subset of a finite set with as many elements is the whole set. */
  lemma SubsetOfSameSize<T>(a: set<T>, b: set<T>)
    requires a <= b && |a| == |b|
    ensures a == b
  {
    assert |b - a| == |b| - |a|;
  }

  /** A permutation of 0 .. n-1 hits every value of the interval. */
  lemma PermutationCovers(s: seq<int>, n: int)
    requires IsPermutation(s, n)
    ensures Elements(s) == Interval(n)
  {
    DistinctSize(s);
    IntervalSize(n);
    assert Elements(s) <= Interval(n);
    SubsetOfSameSize(Elements(s), Interval(n));
  }

  /** A permutation of 0 .. n-1 has an inverse: the slot of every value. */
  lemma PermutationInverse(s: seq<int>, n: int) returns (slot: map<int, nat>)
    requires IsPermutation(s, n)
    ensures forall x :: 0 <= x < n ==> x in slot && slot[x] < n && s[slot[x]] == x
    ensures forall i :: 0 <= i < n ==> s[i] in slot && slot[s[i]] == i
  {
    PermutationCovers(s, n);
    slot := map i | 0 <= i < n :: s[i] := i;
    forall x | 0 <= x < n ensures x in slot && slot[x] < n && s[slot[x]] == x {
      assert x in Elements(s);
      var i :| 0 <= i < |s| && s[i] == x;
      assert slot[s[i]] == i;
    }
  }

  /** Some element of a non-empty set. */
  lemma Pick<T>(s: set<T>) returns (x: T)
    requires s != {}
    ensures x in s
  {
    x :| x in s;
  }

  /** The image of a set under a function. */
  ghost function Image<T, U>(a: set<T>, f: T -> U): set<U>
  {
    set x | x in a :: f(x)
  }

  /** An injective image of a finite set is as large as the set. */
  lemma {:induction false} InjectiveImageSize<T, U>(a: set<T>, f: T -> U)
    requires forall x, y :: x in a && y in a && f(x) == f(y) ==> x == y
    ensures |Image(a, f)| == |a|
  {
    if a != {} {
      var x := Pick(a);
      InjectiveImageSize(a - {x}, f);
      assert Image(a, f) == Image(a - {x}, f) + {f(x)};
      assert f(x) !in Image(a - {x}, f);
    }
  }

  /** Every non-empty finite set has a least element under a total preorder. */
  lemma {:induction false} ExistsMinimal<T>(s: set<T>, le: (T, T) -> bool) returns (m: T)
    requires s != {}
    requires forall a, b :: a in s && b in s ==> le(a, b) || le(b, a)
    requires forall a, b, c :: a in s && b in s && c in s && le(a, b) && le(b, c) ==> le(a, c)
    ensures m in s && forall x :: x in s ==> le(m, x)
  {
    var x := Pick(s);
    if s == {x} {
      m := x;
    } else {
      var m' := ExistsMinimal(s - {x}, le);
      if le(x, m') {
        m := x;
      } else {
        m := m';
      }
    }
  }

  /** A set of ids with a rank for each has an element of least rank. */
  lemma MinimalByRank(s: set<int>, rank: map<int, nat>) returns (m: int)
    requires s != {} && s <= rank.Keys
    ensures m in s && forall x :: x in s ==> rank[m] <= rank[x]
  {
    m := ExistsMinimal(s, (a: int, b: int) => a in rank && b in rank ==> rank[a] <= rank[b]);
  }
}
