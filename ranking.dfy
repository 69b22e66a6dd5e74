/** Ordering helpers shared by the rankers: Python's stable `list.sort(key=…,
    reverse=True)` as an insertion sort that places each later element after
    every earlier one whose key is at least as large, and Python's prefix slice
    `s[:n]`. */
module Ranking {

  predicate SortedDesc<T>(s: seq<T>, key: T -> real) {
    forall i, j :: 0 <= i < j < |s| ==> key(s[i]) >= key(s[j])
  }

  /** Appending an element no larger than every element keeps a list sorted. */
  lemma SortedDescAppend<T>(s: seq<T>, x: T, key: T -> real)
    requires SortedDesc(s, key) && forall k :: 0 <= k < |s| ==> key(s[k]) >= key(x)
    ensures SortedDesc(s + [x], key)
  {
  }

  /** Inserts `x` behind every leading element whose key is at least `key(x)`. */
  function Insert<T>(x: T, s: seq<T>, key: T -> real): (r: seq<T>)
    ensures |r| == |s| + 1
    ensures r[0] == x || (s != [] && r[0] == s[0])
    ensures SortedDesc(s, key) ==>
      forall k :: 0 <= k < |r| ==> key(r[k]) <= key(x) || (s != [] && key(r[k]) <= key(s[0]))
    ensures SortedDesc(s, key) ==> SortedDesc(r, key)
  {
    if s == [] then [x]
    else
      assert s == [s[0]] + s[1..];
      if key(s[0]) >= key(x) then [s[0]] + Insert(x, s[1..], key)
      else [x] + s
  }

  /** Inserting adds exactly `x` to the elements. */
  lemma {:induction false} InsertPermutes<T>(x: T, s: seq<T>, key: T -> real)
    ensures multiset(Insert(x, s, key)) == multiset(s) + multiset{x}
  {
    if s == [] {
      assert Insert(x, s, key) == [x];
    } else if key(s[0]) >= key(x) {
      InsertPermutes(x, s[1..], key);
      assert s == [s[0]] + s[1..];
      assert Insert(x, s, key) == [s[0]] + Insert(x, s[1..], key);
    } else {
      assert Insert(x, s, key) == [x] + s;
    }
  }

  /** Stable sort by descending key. */
  function SortDesc<T>(s: seq<T>, key: T -> real): (r: seq<T>)
    ensures |r| == |s|
    ensures SortedDesc(r, key)
  {
    if s == [] then []
    else
      Insert(s[|s| - 1], SortDesc(s[..|s| - 1], key), key)
  }

  /** Sorting permutes the elements. */
  lemma {:induction false} SortDescPermutes<T>(s: seq<T>, key: T -> real)
    ensures multiset(SortDesc(s, key)) == multiset(s)
  {
    if s != [] {
      var init, last := s[..|s| - 1], s[|s| - 1];
      assert s == init + [last];
      SortDescPermutes(init, key);
      InsertPermutes(last, SortDesc(init, key), key);
    }
  }

  /** Every element of a truncated sort comes from the input. */
  lemma SortedPrefixMembers<T>(s: seq<T>, key: T -> real, n: int)
    ensures forall x :: x in Prefix(SortDesc(s, key), n) ==> x in s
  {
    var r := SortDesc(s, key);
    SortDescPermutes(s, key);
    assert forall x :: x in Prefix(r, n) ==> x in r;
    assert forall x :: x in r ==> x in multiset(s);
  }

  /** The elements whose key equals `v`, in their order in `s`. */
  function WithKey<T>(s: seq<T>, key: T -> real, v: real): seq<T> {
    if s == [] then []
    else (if key(s[0]) == v then [s[0]] else []) + WithKey(s[1..], key, v)
  }

  /** `xs` is `ys` with some elements left out, order kept. */
  predicate Subsequence<T(==)>(xs: seq<T>, ys: seq<T>)
    decreases |ys|
  {
    if xs == [] then true
    else if ys == [] then false
    else if xs[|xs| - 1] == ys[|ys| - 1] then Subsequence(xs[..|xs| - 1], ys[..|ys| - 1])
    else Subsequence(xs, ys[..|ys| - 1])
  }

  lemma {:induction false} SubsequenceLength<T>(xs: seq<T>, ys: seq<T>)
    requires Subsequence(xs, ys)
    ensures |xs| <= |ys|
    decreases |ys|
  {
    if xs != [] {
      if xs[|xs| - 1] == ys[|ys| - 1] {
        SubsequenceLength(xs[..|xs| - 1], ys[..|ys| - 1]);
      } else {
        SubsequenceLength(xs, ys[..|ys| - 1]);
      }
    }
  }

  lemma {:induction false} SubsequenceExtend<T>(xs: seq<T>, ys: seq<T>, y: T)
    requires Subsequence(xs, ys)
    ensures Subsequence(xs, ys + [y])
    decreases |ys|, 1
  {
    var zs := ys + [y];
    assert zs[..|zs| - 1] == ys;
    if xs != [] && xs[|xs| - 1] == y {
      SubsequenceDropLast(xs, ys);
    }
  }

  lemma {:induction false} SubsequenceDropLast<T>(xs: seq<T>, ys: seq<T>)
    requires xs != [] && Subsequence(xs, ys)
    ensures Subsequence(xs[..|xs| - 1], ys)
    decreases |ys|, 0
  {
    var init := xs[..|xs| - 1];
    if init != [] {
      var ys' := ys[..|ys| - 1];
      if xs[|xs| - 1] == ys[|ys| - 1] {
        SubsequenceExtend(init, ys', ys[|ys| - 1]);
        assert ys' + [ys[|ys| - 1]] == ys;
      } else {
        SubsequenceDropLast(xs, ys');
        SubsequenceExtend(init, ys', ys[|ys| - 1]);
        assert ys' + [ys[|ys| - 1]] == ys;
      }
    }
  }

  /** Keeping a new last element of `ys` keeps the subsequence order. */
  lemma SubsequenceKeepLast<T>(xs: seq<T>, ys: seq<T>, y: T)
    requires Subsequence(xs, ys)
    ensures Subsequence(xs + [y], ys + [y])
  {
    var xs' := xs + [y];
    var ys' := ys + [y];
    assert xs'[..|xs'| - 1] == xs && ys'[..|ys'| - 1] == ys;
  }

  lemma MapSnoc<A, B>(f: A -> B, s: seq<A>, x: A)
    ensures Map(f, s + [x]) == Map(f, s) + [f(x)]
  {
  }

  /** Python's `s[:n]`: a negative `n` counts from the end. */
  function Prefix<T>(s: seq<T>, n: int): (r: seq<T>)
    ensures r <= s
    ensures n >= 0 ==> |r| == (if n < |s| then n else |s|)
    ensures n < 0 ==> |r| == (if |s| + n > 0 then |s| + n else 0)
  {
    if n >= 0 then (if n < |s| then s[..n] else s)
    else (if |s| + n > 0 then s[..|s| + n] else [])
  }

  function Map<A, B>(f: A -> B, s: seq<A>): (r: seq<B>)
    ensures |r| == |s|
    ensures forall i :: 0 <= i < |s| ==> r[i] == f(s[i])
  {
    seq(|s|, i requires 0 <= i < |s| => f(s[i]))
  }

  lemma {:induction false} WithKeyAppend<T>(a: seq<T>, b: seq<T>, key: T -> real, v: real)
    ensures WithKey(a + b, key, v) == WithKey(a, key, v) + WithKey(b, key, v)
  {
    if a == [] {
      assert a + b == b;
    } else {
      var h := if key(a[0]) == v then [a[0]] else [];
      assert (a + b)[0] == a[0];
      assert (a + b)[1..] == a[1..] + b;
      WithKeyAppend(a[1..], b, key, v);
      calc {
        WithKey(a + b, key, v);
        h + WithKey(a[1..] + b, key, v);
        h + (WithKey(a[1..], key, v) + WithKey(b, key, v));
        (h + WithKey(a[1..], key, v)) + WithKey(b, key, v);
        WithKey(a, key, v) + WithKey(b, key, v);
      }
    }
  }

  lemma {:induction false} WithKeyNone<T>(s: seq<T>, key: T -> real, v: real)
    requires forall i :: 0 <= i < |s| ==> key(s[i]) != v
    ensures WithKey(s, key, v) == []
  {
    if s != [] {
      WithKeyNone(s[1..], key, v);
    }
  }

  lemma WithKeyCons<T>(y: T, s: seq<T>, key: T -> real, v: real)
    ensures WithKey([y] + s, key, v) == (if key(y) == v then [y] else []) + WithKey(s, key, v)
  {
    assert ([y] + s)[1..] == s;
  }

  lemma {:induction false} InsertWithKey<T>(x: T, s: seq<T>, key: T -> real, v: real)
    requires SortedDesc(s, key)
    ensures WithKey(Insert(x, s, key), key, v)
         == WithKey(s, key, v) + (if key(x) == v then [x] else [])
  {
    var tail := if key(x) == v then [x] else [];
    if s == [] {
      WithKeyCons(x, [], key, v);
    } else if key(s[0]) >= key(x) {
      assert SortedDesc(s[1..], key);
      InsertWithKey(x, s[1..], key, v);
      WithKeyConsStep(s[0], Insert(x, s[1..], key), s[1..], key, v, tail);
      assert Insert(x, s, key) == [s[0]] + Insert(x, s[1..], key);
      assert [s[0]] + s[1..] == s;
    } else {
      assert Insert(x, s, key) == [x] + s;
      WithKeyCons(x, s, key, v);
      if key(x) == v {
        WithKeyNone(s, key, v);
      }
    }
  }

  /** Putting the same element in front of two lists keeps their key classes related. */
  lemma WithKeyConsStep<T>(y: T, r: seq<T>, rest: seq<T>, key: T -> real, v: real, tail: seq<T>)
    requires WithKey(r, key, v) == WithKey(rest, key, v) + tail
    ensures WithKey([y] + r, key, v) == WithKey([y] + rest, key, v) + tail
  {
    var head := if key(y) == v then [y] else [];
    WithKeyCons(y, r, key, v);
    WithKeyCons(y, rest, key, v);
    assert head + (WithKey(rest, key, v) + tail) == (head + WithKey(rest, key, v)) + tail;
  }

  /** Stability: among elements with equal keys the sort keeps the input order. */
  lemma {:induction false} SortDescStable<T>(s: seq<T>, key: T -> real, v: real)
    ensures WithKey(SortDesc(s, key), key, v) == WithKey(s, key, v)
  {
    if s != [] {
      var init, last := s[..|s| - 1], s[|s| - 1];
      assert s == init + [last];
      SortDescStable(init, key, v);
      InsertWithKey(last, SortDesc(init, key), key, v);
      WithKeyAppend(init, [last], key, v);
    }
  }

  lemma {:induction false} InsertAfterSmaller<T>(x: T, s: seq<T>, key: T -> real)
    requires forall i :: 0 <= i < |s| ==> key(s[i]) >= key(x)
    ensures Insert(x, s, key) == s + [x]
  {
    if s != [] {
      InsertAfterSmaller(x, s[1..], key);
      assert s == [s[0]] + s[1..];
    }
  }

  /** Sorting an already sorted list changes nothing. */
  lemma {:induction false} SortDescOfSorted<T>(s: seq<T>, key: T -> real)
    requires SortedDesc(s, key)
    ensures SortDesc(s, key) == s
  {
    if s != [] {
      var init, last := s[..|s| - 1], s[|s| - 1];
      assert s == init + [last];
      SortDescOfSorted(init, key);
      InsertAfterSmaller(last, init, key);
    }
  }

  lemma {:induction false} MapInsert<T, U>(f: T -> U, x: T, s: seq<T>, key: T -> real)
    ensures multiset(Map(f, Insert(x, s, key))) == multiset(Map(f, s)) + multiset{f(x)}
  {
    if s == [] {
      assert Map(f, Insert(x, s, key)) == [f(x)];
    } else if key(s[0]) >= key(x) {
      var r := Insert(x, s[1..], key);
      MapInsert(f, x, s[1..], key);
      assert Insert(x, s, key) == [s[0]] + r;
      MapCons(f, s[0], r);
      MapCons(f, s[0], s[1..]);
      assert s == [s[0]] + s[1..];
      calc {
        multiset(Map(f, [s[0]] + r));
        multiset([f(s[0])]) + multiset(Map(f, r));
        multiset([f(s[0])]) + multiset(Map(f, s[1..])) + multiset{f(x)};
        multiset(Map(f, [s[0]] + s[1..])) + multiset{f(x)};
      }
    } else {
      assert Insert(x, s, key) == [x] + s;
      MapCons(f, x, s);
    }
  }

  lemma MapCons<T, U>(f: T -> U, y: T, r: seq<T>)
    ensures Map(f, [y] + r) == [f(y)] + Map(f, r)
  {
  }

  /** Sorting permutes the elements, so it also permutes any projection of them. */
  lemma {:induction false} SortDescMapMultiset<T, U>(f: T -> U, s: seq<T>, key: T -> real)
    ensures multiset(Map(f, SortDesc(s, key))) == multiset(Map(f, s))
  {
    if s != [] {
      var init, last := s[..|s| - 1], s[|s| - 1];
      assert s == init + [last];
      SortDescMapMultiset(f, init, key);
      MapInsert(f, last, SortDesc(init, key), key);
      assert Map(f, s) == Map(f, init) + [f(last)];
    }
  }

  /** Truncating keeps a prefix of every key class. */
  lemma {:induction false} WithKeyPrefix<T>(s: seq<T>, n: int, key: T -> real, v: real)
    ensures WithKey(Prefix(s, n), key, v) <= WithKey(s, key, v)
  {
    var p := Prefix(s, n);
    assert s == p + s[|p|..];
    WithKeyAppend(p, s[|p|..], key, v);
  }
}
