/**
 * Sequence helpers shared by the client and the server rules: a filter that keeps
 * the order of its input, and facts about sequences whose elements carry a
 * strictly increasing key.
 */
module Seqs {

  /**
   * The elements of `s` that satisfy `keep`, in the order they have in `s`.
   * Defined from the last element, the way a list is built by appending.
   */
  function Filter<T>(s: seq<T>, keep: T -> bool): (r: seq<T>)
    ensures |r| <= |s|
  {
    if s == [] then []
    else Filter(s[..|s| - 1], keep) + (if keep(s[|s| - 1]) then [s[|s| - 1]] else [])
  }

  /** Filtering a sequence extended by one element. */
  lemma FilterSnoc<T>(s: seq<T>, x: T, keep: T -> bool)
    ensures Filter(s + [x], keep) == Filter(s, keep) + (if keep(x) then [x] else [])
  {
    assert (s + [x])[..|s|] == s;
  }

  /** Filtering a one-element sequence. */
  lemma FilterSingle<T>(x: T, keep: T -> bool)
    ensures Filter([x], keep) == if keep(x) then [x] else []
  {
    FilterSnoc([], x, keep);
    assert [] + [x] == [x];
  }

  /** Filtering distributes over concatenation. */
  lemma {:induction false} FilterAppend<T>(a: seq<T>, b: seq<T>, keep: T -> bool)
    ensures Filter(a + b, keep) == Filter(a, keep) + Filter(b, keep)
  {
    if b == [] {
      assert a + b == a;
    } else {
      var init, x := b[..|b| - 1], b[|b| - 1];
      var last := if keep(x) then [x] else [];
      assert Filter(a + b, keep) == Filter(a + init, keep) + last by {
        assert a + b == (a + init) + [x];
        FilterSnoc(a + init, x, keep);
      }
      assert Filter(b, keep) == Filter(init, keep) + last by {
        assert b == init + [x];
        FilterSnoc(init, x, keep);
      }
      FilterAppend(a, init, keep);
    }
  }

  /** An element is kept exactly when it occurs in the input and satisfies the test. */
  lemma {:induction false} FilterMembers<T>(s: seq<T>, keep: T -> bool, x: T)
    ensures x in Filter(s, keep) <==> x in s && keep(x)
  {
    if s != [] {
      var init := s[..|s| - 1];
      FilterMembers(init, keep, x);
      assert s == init + [s[|s| - 1]];
    }
  }

  /** Every later element has a strictly larger key. */
  ghost predicate Increasing<T>(s: seq<T>, key: T -> int)
  {
    forall i, j :: 0 <= i < j < |s| ==> key(s[i]) < key(s[j])
  }

  /** The tail of an increasing sequence is increasing and lies above its head. */
  lemma IncreasingTail<T>(s: seq<T>, key: T -> int)
    requires s != [] && Increasing(s, key)
    ensures Increasing(s[1..], key)
    ensures forall y :: y in s[1..] ==> key(s[0]) < key(y)
  {
    var tail := s[1..];
    forall i, j | 0 <= i < j < |tail| ensures key(tail[i]) < key(tail[j]) {
      assert tail[i] == s[i + 1] && tail[j] == s[j + 1];
    }
    forall y | y in tail ensures key(s[0]) < key(y) {
      var k :| 0 <= k < |tail| && tail[k] == y;
      assert s[k + 1] == y;
    }
  }

  /** Appending an element whose key lies above every key of an increasing sequence. */
  lemma IncreasingSnoc<T>(rest: seq<T>, x: T, key: T -> int)
    requires Increasing(rest, key)
    requires forall y :: y in rest ==> key(y) < key(x)
    ensures Increasing(rest + [x], key)
  {
    var r := rest + [x];
    forall i, j | 0 <= i < j < |r| ensures key(r[i]) < key(r[j]) {
      assert r[i] == rest[i];
      if j == |rest| {
        assert rest[i] in rest;
      } else {
        assert r[j] == rest[j];
      }
    }
  }

  /** Any two elements that both pass `keep` have strictly increasing keys, in the order of `s`. */
  ghost predicate IncreasingAmongKept<T>(s: seq<T>, keep: T -> bool, key: T -> int)
  {
    forall i, j :: 0 <= i < j < |s| && keep(s[i]) && keep(s[j]) ==> key(s[i]) < key(s[j])
  }

  /** What the filter keeps is strictly increasing when the kept elements of the input are. */
  lemma {:induction false} FilterIncreasing<T>(s: seq<T>, keep: T -> bool, key: T -> int)
    requires IncreasingAmongKept(s, keep, key)
    ensures Increasing(Filter(s, keep), key)
  {
    if s != [] {
      var init, last := s[..|s| - 1], s[|s| - 1];
      assert IncreasingAmongKept(init, keep, key) by {
        forall i, j | 0 <= i < j < |init| && keep(init[i]) && keep(init[j])
          ensures key(init[i]) < key(init[j])
        {
          assert init[i] == s[i] && init[j] == s[j];
        }
      }
      FilterIncreasing(init, keep, key);
      var rest := Filter(init, keep);
      if keep(last) {
        forall y | y in rest ensures key(y) < key(last) {
          FilterMembers(init, keep, y);
          var k :| 0 <= k < |init| && init[k] == y;
          assert s[k] == y;
        }
        IncreasingSnoc(rest, last, key);
      } else {
        assert Filter(s, keep) == rest;
      }
    }
  }

  /** A strictly increasing sequence whose keys lie in [lo, hi) has at most hi - lo elements. */
  lemma {:induction false} IncreasingBound<T>(s: seq<T>, key: T -> int, lo: int, hi: int)
    requires lo <= hi
    requires Increasing(s, key)
    requires forall x :: x in s ==> lo <= key(x) < hi
    ensures |s| <= hi - lo
  {
    if s != [] {
      var tail := s[1..];
      IncreasingTail(s, key);
      assert s[0] in s;
      forall x | x in tail ensures key(s[0]) + 1 <= key(x) < hi {
        assert x in s;
      }
      IncreasingBound(tail, key, key(s[0]) + 1, hi);
    }
  }

  /** Python's `s[:n]`: the first `n` elements, or all of them when there are fewer. */
  function Take<T>(s: seq<T>, n: nat): (t: seq<T>)
    ensures |t| == if |s| < n then |s| else n
    ensures t == s[..|t|]
  {
    if |s| < n then s else s[..n]
  }

  /** Taking twice with the same bound takes once. */
  lemma TakeTake<T>(s: seq<T>, n: nat)
    ensures Take(Take(s, n), n) == Take(s, n)
  {
  }
}
