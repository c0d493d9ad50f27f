/** Sequence combinators that give Python's loops and filters a functional shape. */
module Seqs {

  /** The elements `f(x)` yields for each `x` of `xs`, concatenated in loop order:
      the value of `for x in xs: yield from f(x)`. */
  function FlatMap<A, B>(xs: seq<A>, f: A -> seq<B>): seq<B> {
    if |xs| == 0 then [] else f(xs[0]) + FlatMap(xs[1..], f)
  }

  /** An element is yielded exactly when some block yields it. */
  lemma {:induction false} FlatMapMembers<A, B(!new)>(xs: seq<A>, f: A -> seq<B>)
    ensures forall y :: y in FlatMap(xs, f) <==> exists x :: x in xs && y in f(x)
  {
    if |xs| > 0 {
      FlatMapMembers(xs[1..], f);
      assert xs[0] in xs;
      assert forall x :: x in xs[1..] ==> x in xs;
      forall y, x | x in xs && y in f(x) ensures y in FlatMap(xs, f) {
        if x != xs[0] {
          var k :| 0 <= k < |xs| && xs[k] == x;
          assert xs[1..][k - 1] == x;
        }
      }
    }
  }

  /** The elements of `xs` that `keep` accepts, in their original order:
      the value of `tuple(x for x in xs if keep(x))`. */
  function Keep<T>(xs: seq<T>, keep: T -> bool): (r: seq<T>)
    ensures |r| <= |xs|
  {
    if |xs| == 0 then []
    else if keep(xs[0]) then [xs[0]] + Keep(xs[1..], keep)
    else Keep(xs[1..], keep)
  }

  /** The kept elements are exactly the elements of `xs` that `keep` accepts. */
  lemma {:induction false} KeepMembers<T(!new)>(xs: seq<T>, keep: T -> bool)
    ensures forall x :: x in Keep(xs, keep) <==> x in xs && keep(x)
  {
    if |xs| > 0 {
      KeepMembers(xs[1..], keep);
      assert xs[0] in xs;
      assert forall x :: x in xs[1..] ==> x in xs;
      assert forall x :: x in xs ==> x == xs[0] || x in xs[1..];
    }
  }

  /** Every earlier element of `s` stands in relation `lt` to every later one. */
  predicate Sorted<T>(s: seq<T>, lt: (T, T) -> bool) {
    forall i, j :: 0 <= i < j < |s| ==> lt(s[i], s[j])
  }

  /** When every block has `n` elements, the concatenation has `|xs| * n`. */
  lemma {:induction false} FlatMapLength<A, B>(xs: seq<A>, f: A -> seq<B>, n: nat)
    requires forall x :: x in xs ==> |f(x)| == n
    ensures |FlatMap(xs, f)| == |xs| * n
  {
    if |xs| > 0 {
      assert xs[0] in xs;
      assert forall x :: x in xs[1..] ==> x in xs;
      FlatMapLength(xs[1..], f, n);
      var m := |xs| - 1;
      assert |xs| * n == (m + 1) * n == m * n + n;
    }
  }

  /** Concatenating sorted blocks gives a sorted sequence when every element of
      an earlier block precedes every element of a later one. */
  lemma {:induction false} FlatMapSorted<A, B(!new)>(xs: seq<A>, f: A -> seq<B>, lt: (B, B) -> bool)
    requires forall x :: x in xs ==> Sorted(f(x), lt)
    requires forall i, j, y, z :: 0 <= i < j < |xs| && y in f(xs[i]) && z in f(xs[j]) ==> lt(y, z)
    ensures Sorted(FlatMap(xs, f), lt)
  {
    if |xs| > 0 {
      var rest := xs[1..];
      assert forall x :: x in rest ==> x in xs;
      forall i, j, y, z | 0 <= i < j < |rest| && y in f(rest[i]) && z in f(rest[j])
        ensures lt(y, z)
      {
        assert rest[i] == xs[i + 1] && rest[j] == xs[j + 1];
      }
      FlatMapSorted(rest, f, lt);
      var head := f(xs[0]);
      var tail := FlatMap(rest, f);
      assert xs[0] in xs;
      forall i, j | 0 <= i < j < |head + tail|
        ensures lt((head + tail)[i], (head + tail)[j])
      {
        if j < |head| {
        } else if i >= |head| {
          assert (head + tail)[i] == tail[i - |head|];
          assert (head + tail)[j] == tail[j - |head|];
        } else {
          var z := tail[j - |head|];
          assert (head + tail)[j] == z;
          assert z in tail;
          FlatMapMembers(rest, f);
          var x :| x in rest && z in f(x);
          var k :| 0 <= k < |rest| && rest[k] == x;
          assert xs[k + 1] == x;
          assert head[i] in f(xs[0]);
        }
      }
    }
  }

  /** Keeping elements never reorders them, so a sorted input stays sorted. */
  lemma {:induction false} KeepSorted<T(!new)>(xs: seq<T>, keep: T -> bool, lt: (T, T) -> bool)
    requires Sorted(xs, lt)
    ensures Sorted(Keep(xs, keep), lt)
  {
    if |xs| > 0 {
      var rest := xs[1..];
      assert Sorted(rest, lt) by {
        forall i, j | 0 <= i < j < |rest| ensures lt(rest[i], rest[j]) {
          assert rest[i] == xs[i + 1] && rest[j] == xs[j + 1];
        }
      }
      KeepSorted(rest, keep, lt);
      var tail := Keep(rest, keep);
      KeepMembers(rest, keep);
      if keep(xs[0]) {
        forall j | 0 <= j < |tail| ensures lt(xs[0], tail[j]) {
          assert tail[j] in rest;
          var k :| 0 <= k < |rest| && rest[k] == tail[j];
          assert xs[k + 1] == tail[j];
        }
        var r := [xs[0]] + tail;
        forall i, j | 0 <= i < j < |r| ensures lt(r[i], r[j]) {
          if i > 0 {
            assert r[i] == tail[i - 1] && r[j] == tail[j - 1];
          } else {
            assert r[j] == tail[j - 1];
          }
        }
      }
    }
  }

  /** Two filters that agree on every element of `xs` keep the same elements. */
  lemma {:induction false} KeepAgrees<T(!new)>(xs: seq<T>, keep: T -> bool, keep': T -> bool)
    requires forall x :: x in xs ==> (keep(x) <==> keep'(x))
    ensures Keep(xs, keep) == Keep(xs, keep')
  {
    if |xs| > 0 {
      assert xs[0] in xs;
      assert forall x :: x in xs[1..] ==> x in xs;
      KeepAgrees(xs[1..], keep, keep');
    }
  }

  /** A filter that accepts every element keeps the whole sequence. */
  lemma {:induction false} KeepAll<T(!new)>(xs: seq<T>, keep: T -> bool)
    requires forall x :: x in xs ==> keep(x)
    ensures Keep(xs, keep) == xs
  {
    if |xs| > 0 {
      assert xs[0] in xs;
      assert forall x :: x in xs[1..] ==> x in xs;
      KeepAll(xs[1..], keep);
    }
  }

  /** The keys of the elements of `s`. */
  function Keys<T(==)>(s: seq<T>, key: T -> char): set<char> {
    set x | x in s :: key(x)
  }

  /** A sequence whose keys strictly increase has as many distinct keys as elements. */
  lemma {:induction false} DistinctKeys<T>(s: seq<T>, key: T -> char)
    requires forall i, j :: 0 <= i < j < |s| ==> key(s[i]) < key(s[j])
    ensures |Keys(s, key)| == |s|
  {
    if |s| > 0 {
      var rest := s[1..];
      forall i, j | 0 <= i < j < |rest| ensures key(rest[i]) < key(rest[j]) {
        assert rest[i] == s[i + 1] && rest[j] == s[j + 1];
      }
      DistinctKeys(rest, key);
      var all := Keys(s, key);
      var later := Keys(rest, key);
      assert all == {key(s[0])} + later by {
        forall c | c in all ensures c in {key(s[0])} + later {
          var x :| x in s && key(x) == c;
          var k :| 0 <= k < |s| && s[k] == x;
          if k > 0 { assert rest[k - 1] == x; }
        }
      }
      assert key(s[0]) !in later;
    }
  }
}
