/** Sequence operations the data layer is built from: the `filter` of arrays and
    of `$match` stages, the first match of `findOne`, `updateOne` and
    `deleteOne`, the distinct values of `$group`, and `$group` with `$first`
    followed by an ascending `$sort` on the group key. */
module Seqs {
  import opened Js

  datatype Option<T> = None | Some(value: T)

  /** The elements of `s` that satisfy `p`, in their order. */
  function Filter<T(==,!new)>(s: seq<T>, p: T -> bool): (r: seq<T>)
    ensures |r| <= |s|
    ensures forall x :: x in r <==> x in s && p(x)
  {
    if s == [] then []
    else if p(s[0]) then [s[0]] + Filter(s[1..], p)
    else Filter(s[1..], p)
  }

  /** `a` is `b` with some elements left out, the rest in their order. */
  predicate IsSubsequence<T(==,!new)>(a: seq<T>, b: seq<T>) {
    if a == [] then true
    else if b == [] then false
    else if a[0] == b[0] then IsSubsequence(a[1..], b[1..])
    else IsSubsequence(a, b[1..])
  }

  /** Leaving out one more element of `b` keeps `a` a subsequence. */
  lemma {:induction false} SubsequenceSkip<T(!new)>(a: seq<T>, b: seq<T>)
    requires b != [] && IsSubsequence(a, b[1..])
    ensures IsSubsequence(a, b)
    decreases |b|, 0
  {
    if a != [] && a[0] == b[0] {
      SubsequenceDrop(a, b[1..]);
    }
  }

  /** Leaving out the first element of `a` keeps it a subsequence. */
  lemma {:induction false} SubsequenceDrop<T(!new)>(a: seq<T>, b: seq<T>)
    requires a != [] && IsSubsequence(a, b)
    ensures IsSubsequence(a[1..], b)
    decreases |b|, 1
  {
    if a[0] == b[0] {
      SubsequenceSkip(a[1..], b);
    } else {
      SubsequenceDrop(a, b[1..]);
      SubsequenceSkip(a[1..], b);
    }
  }

  /** Keeping the elements of sequences by a condition true of all of them
      keeps all of them. */
  lemma {:induction false} FilterAll<T(!new)>(s: seq<T>, p: T -> bool)
    requires forall x :: x in s ==> p(x)
    ensures Filter(s, p) == s
  {
    if s != [] {
      assert forall x :: x in s[1..] ==> x in s;
      FilterAll(s[1..], p);
      assert s == [s[0]] + s[1..];
    }
  }

  /** Conditions that agree on every element keep the same elements. */
  lemma {:induction false} FilterCongruent<T(!new)>(s: seq<T>, p: T -> bool, q: T -> bool)
    requires forall x :: x in s ==> p(x) == q(x)
    ensures Filter(s, p) == Filter(s, q)
  {
    if s != [] {
      assert forall x :: x in s[1..] ==> x in s;
      FilterCongruent(s[1..], p, q);
    }
  }

  /** `s.map(f)`. */
  function Map<T, U>(s: seq<T>, f: T -> U): (r: seq<U>)
    ensures |r| == |s|
    ensures forall i :: 0 <= i < |s| ==> r[i] == f(s[i])
  {
    seq(|s|, i requires 0 <= i < |s| => f(s[i]))
  }

  /** The images of the kept elements are exactly the images of the elements
      that satisfy the condition. */
  lemma MapFilterMembership<T(!new), U(!new)>(s: seq<T>, p: T -> bool, f: T -> U)
    ensures forall y :: y in Map(Filter(s, p), f) <==> exists x :: x in s && p(x) && f(x) == y
  {
    var r := Map(Filter(s, p), f);
    forall y | y in r ensures exists x :: x in s && p(x) && f(x) == y {
      var i :| 0 <= i < |r| && r[i] == y;
      assert Filter(s, p)[i] in Filter(s, p);
    }
    forall y | exists x :: x in s && p(x) && f(x) == y ensures y in r {
      var x :| x in s && p(x) && f(x) == y;
      var i :| 0 <= i < |Filter(s, p)| && Filter(s, p)[i] == x;
      assert r[i] == y;
    }
  }

  /** Mapping keeps a subsequence a subsequence. */
  lemma {:induction false} MapSubsequence<T(!new), U(!new)>(a: seq<T>, b: seq<T>, f: T -> U)
    requires IsSubsequence(a, b)
    ensures IsSubsequence(Map(a, f), Map(b, f))
  {
    if a != [] {
      assert Map(b, f)[1..] == Map(b[1..], f);
      if a[0] == b[0] {
        MapSubsequence(a[1..], b[1..], f);
        assert Map(a, f)[1..] == Map(a[1..], f);
      } else {
        MapSubsequence(a, b[1..], f);
        SubsequenceSkip(Map(a, f), Map(b, f));
      }
    }
  }

  lemma MapAppend<T, U>(a: seq<T>, b: seq<T>, f: T -> U)
    ensures Map(a + b, f) == Map(a, f) + Map(b, f)
  {
    assert forall i :: 0 <= i < |b| ==> (a + b)[|a| + i] == b[i];
  }

  /** Mapping the two halves of a partition gives the images of the whole. */
  lemma {:induction false} MapFilterPartition<T(!new), U>(s: seq<T>, p: T -> bool, q: T -> bool, f: T -> U)
    requires forall x :: q(x) == !p(x)
    ensures multiset(Map(Filter(s, p), f)) + multiset(Map(Filter(s, q), f)) == multiset(Map(s, f))
  {
    if s != [] {
      MapFilterPartition(s[1..], p, q, f);
      assert s == [s[0]] + s[1..];
      MapAppend([s[0]], s[1..], f);
      if p(s[0]) {
        MapAppend([s[0]], Filter(s[1..], p), f);
      } else {
        MapAppend([s[0]], Filter(s[1..], q), f);
      }
    }
  }

  /** Filtering keeps the order of what it keeps. */
  lemma {:induction false} FilterIsSubsequence<T(!new)>(s: seq<T>, p: T -> bool)
    ensures IsSubsequence(Filter(s, p), s)
  {
    if s != [] {
      FilterIsSubsequence(s[1..], p);
      var f := Filter(s[1..], p);
      if !p(s[0]) && f != [] {
        assert f[0] in f;
      }
    }
  }

  /** What `Filter` keeps, pinned down on the elements themselves: a
      subsequence of `s`, every element satisfying `p`, each such element as
      many times as in `s`. Only one sequence has all three properties. */
  lemma {:induction false} FilterSpec<T(!new)>(s: seq<T>, p: T -> bool)
    ensures IsSubsequence(Filter(s, p), s)
    ensures forall x :: x in Filter(s, p) ==> p(x)
    ensures forall x :: p(x) ==> multiset(Filter(s, p))[x] == multiset(s)[x]
  {
    FilterIsSubsequence(s, p);
    if s != [] {
      FilterSpec(s[1..], p);
      assert s == [s[0]] + s[1..];
    }
  }

  /** Filtering by a condition and by its negation splits the sequence in two. */
  lemma {:induction false} FilterPartition<T(!new)>(s: seq<T>, p: T -> bool, q: T -> bool)
    requires forall x :: q(x) == !p(x)
    ensures multiset(Filter(s, p)) + multiset(Filter(s, q)) == multiset(s)
  {
    if s != [] {
      FilterPartition(s[1..], p, q);
      assert s == [s[0]] + s[1..];
    }
  }

  /** The position of the first element of `s` that satisfies `p`. */
  function FirstIndex<T>(s: seq<T>, p: T -> bool): (r: Option<nat>)
    ensures r.Some? ==> r.value < |s| && p(s[r.value]) && forall j :: 0 <= j < r.value ==> !p(s[j])
    ensures r.None? ==> forall j :: 0 <= j < |s| ==> !p(s[j])
  {
    if s == [] then None
    else if p(s[0]) then Some(0)
    else match FirstIndex(s[1..], p)
      case None => None
      case Some(i) => Some(i + 1)
  }

  predicate NoDuplicates<T(==,!new)>(s: seq<T>) {
    forall i, j :: 0 <= i < j < |s| ==> s[i] != s[j]
  }

  /** The distinct elements of `s`, each where it first occurs. */
  function Distinct<T(==,!new)>(s: seq<T>): (r: seq<T>)
    ensures NoDuplicates(r)
    ensures forall x :: x in r <==> x in s
  {
    if s == [] then []
    else
      var d := Distinct(s[..|s| - 1]);
      assert forall x :: x in s <==> x in s[..|s| - 1] || x == s[|s| - 1];
      if s[|s| - 1] in d then d else d + [s[|s| - 1]]
  }

  /** The keys strictly increase along `s` (in MongoDB's order on numbers). */
  predicate StrictlyAscending<T>(s: seq<T>, key: T -> Num) {
    forall i, j :: 0 <= i < j < |s| ==> NumLess(key(s[i]), key(s[j]))
  }

  /** Some element of `s` has the key `k`. */
  predicate HasKey<T>(s: seq<T>, key: T -> Num, k: Num) {
    exists i :: 0 <= i < |s| && key(s[i]) == k
  }

  /** `y` occurs in `s` and no element before that occurrence has its key. */
  predicate FirstOfItsKey<T(==,!new)>(s: seq<T>, key: T -> Num, y: T) {
    exists i :: 0 <= i < |s| && s[i] == y && forall j :: 0 <= j < i ==> key(s[j]) != key(y)
  }

  /** Adds `x` to a sequence sorted by key unless an element with its key is
      already there, in which case that earlier element stays. */
  function InsertFirst<T(==,!new)>(x: T, s: seq<T>, key: T -> Num): (r: seq<T>)
    requires StrictlyAscending(s, key)
    ensures StrictlyAscending(r, key)
    ensures forall y :: y in r <==> y in s || (y == x && !HasKey(s, key, key(x)))
    ensures forall k :: HasKey(r, key, k) <==> HasKey(s, key, k) || k == key(x)
  {
    NumLessStrictTotalOrder();
    if s == [] then
      assert key([x][0]) == key(x);
      [x]
    else if key(x) == key(s[0]) then
      assert key(s[0]) == key(x);
      s
    else if NumLess(key(x), key(s[0])) then
      var r := [x] + s;
      assert forall k :: HasKey(r, key, k) ==> HasKey(s, key, k) || k == key(x) by {
        forall k | HasKey(r, key, k) ensures HasKey(s, key, k) || k == key(x) {
          var i :| 0 <= i < |r| && key(r[i]) == k;
          if i > 0 { assert key(s[i - 1]) == k; }
        }
      }
      assert key(r[0]) == key(x);
      assert forall i :: 0 <= i < |s| ==> key(r[i + 1]) == key(s[i]);
      assert !HasKey(s, key, key(x));
      r
    else
      var t := InsertFirst(x, s[1..], key);
      var r := [s[0]] + t;
      assert forall i :: 0 <= i < |s| - 1 ==> s[1..][i] == s[i + 1];
      assert forall k :: HasKey(s, key, k) <==> key(s[0]) == k || HasKey(s[1..], key, k) by {
        forall k | HasKey(s, key, k) ensures key(s[0]) == k || HasKey(s[1..], key, k) {
          var i :| 0 <= i < |s| && key(s[i]) == k;
          if i > 0 { assert key(s[1..][i - 1]) == k; }
        }
      }
      assert forall k :: HasKey(r, key, k) <==> key(s[0]) == k || HasKey(t, key, k) by {
        forall k | HasKey(r, key, k) ensures key(s[0]) == k || HasKey(t, key, k) {
          var i :| 0 <= i < |r| && key(r[i]) == k;
          if i > 0 { assert key(t[i - 1]) == k; }
        }
        forall k | HasKey(t, key, k) ensures HasKey(r, key, k) {
          var i :| 0 <= i < |t| && key(t[i]) == k;
          assert key(r[i + 1]) == k;
        }
        assert key(r[0]) == key(s[0]);
      }
      assert forall y :: y in s <==> y == s[0] || y in s[1..];
      assert forall j :: 0 <= j < |t| ==> HasKey(t, key, key(t[j])) by {
        forall j | 0 <= j < |t| ensures HasKey(t, key, key(t[j])) {
          assert key(t[j]) == key(t[j]);
        }
      }
      assert forall j :: 0 <= j < |t| ==> NumLess(key(s[0]), key(t[j])) by {
        forall j | 0 <= j < |t| ensures NumLess(key(s[0]), key(t[j])) {
          assert HasKey(t, key, key(t[j]));
          if HasKey(s[1..], key, key(t[j])) {
            var i :| 0 <= i < |s[1..]| && key(s[1..][i]) == key(t[j]);
            assert NumLess(key(s[0]), key(s[i + 1]));
          }
        }
      }
      assert forall i :: 0 <= i < |t| ==> r[i + 1] == t[i];
      r
  }

  /** `$group` on a numeric key keeping the `$first` row of each group, then
      `$sort` ascending on that key. */
  function GroupSort<T(==,!new)>(rows: seq<T>, key: T -> Num): (r: seq<T>)
    ensures StrictlyAscending(r, key)
    ensures forall k :: HasKey(r, key, k) <==> HasKey(rows, key, k)
  {
    if rows == [] then []
    else
      var p := rows[..|rows| - 1];
      var x := rows[|rows| - 1];
      var g := GroupSort(p, key);
      assert forall k :: HasKey(rows, key, k) <==> HasKey(p, key, k) || key(x) == k by {
        forall k | HasKey(rows, key, k) ensures HasKey(p, key, k) || key(x) == k {
          var i :| 0 <= i < |rows| && key(rows[i]) == k;
          if i < |p| { assert key(p[i]) == k; }
        }
        forall k | HasKey(p, key, k) ensures HasKey(rows, key, k) {
          var i :| 0 <= i < |p| && key(p[i]) == k;
          assert key(rows[i]) == k;
        }
        assert key(rows[|rows| - 1]) == key(x);
      }
      InsertFirst(x, g, key)
  }

  /** The groups of `GroupSort` hold exactly the first row of each key. */
  lemma {:induction false} GroupSortKeepsFirst<T(!new)>(rows: seq<T>, key: T -> Num)
    ensures forall y :: y in GroupSort(rows, key) <==> FirstOfItsKey(rows, key, y)
  {
    if rows != [] {
      var p := rows[..|rows| - 1];
      var x := rows[|rows| - 1];
      GroupSortKeepsFirst(p, key);
      forall y ensures FirstOfItsKey(rows, key, y) <==> FirstOfItsKey(p, key, y) || (y == x && !HasKey(p, key, key(x))) {
        if FirstOfItsKey(rows, key, y) {
          var i :| 0 <= i < |rows| && rows[i] == y && forall j :: 0 <= j < i ==> key(rows[j]) != key(y);
          if i < |p| {
            assert p[i] == y && forall j :: 0 <= j < i ==> key(p[j]) != key(y);
          } else {
            assert y == x;
            assert forall j :: 0 <= j < |p| ==> key(p[j]) == key(rows[j]);
          }
        }
        if FirstOfItsKey(p, key, y) {
          var i :| 0 <= i < |p| && p[i] == y && forall j :: 0 <= j < i ==> key(p[j]) != key(y);
          assert rows[i] == y && forall j :: 0 <= j < i ==> key(rows[j]) != key(y);
        }
        if y == x && !HasKey(p, key, key(x)) {
          forall j | 0 <= j < |p| ensures key(rows[j]) != key(y) {
            assert key(p[j]) != key(x);
          }
          assert rows[|p|] == y;
        }
      }
    }
  }
}
