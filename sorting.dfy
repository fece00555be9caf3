/**
 * A stable sort by an integer key. Both engines sort with their host's stable sort
 * (`Array.prototype.sort`, Python's `sorted` and `list.sort`); this insertion sort is
 * proved sorted and stable, and `StableSortUnique` shows that those two properties fix
 * the output, so every stable sort returns the same list.
 */
module Sorting {

  ghost predicate SortedBy<T>(s: seq<T>, key: T -> int) {
    forall i, j :: 0 <= i < j < |s| ==> key(s[i]) <= key(s[j])
  }

  /** The elements of `s` whose key is `k`, in their order in `s`. */
  function WithKey<T>(s: seq<T>, key: T -> int, k: int): seq<T> {
    if s == [] then [] else (if key(s[0]) == k then [s[0]] else []) + WithKey(s[1..], key, k)
  }

  /** Puts `x` in front of the first element whose key is not below `x`'s. */
  function Insert<T>(x: T, s: seq<T>, key: T -> int): (r: seq<T>)
    ensures |r| == |s| + 1
  {
    if s == [] || key(x) <= key(s[0]) then [x] + s else [s[0]] + Insert(x, s[1..], key)
  }

  lemma {:induction false} InsertPermutation<T>(x: T, s: seq<T>, key: T -> int)
    ensures multiset(Insert(x, s, key)) == multiset(s) + multiset{x}
    decreases |s|
  {
    if !(s == [] || key(x) <= key(s[0])) {
      InsertPermutation(x, s[1..], key);
      assert s == [s[0]] + s[1..];
    }
  }

  lemma {:induction false} InsertSorted<T>(x: T, s: seq<T>, key: T -> int)
    requires SortedBy(s, key)
    ensures SortedBy(Insert(x, s, key), key)
    decreases |s|
  {
    if !(s == [] || key(x) <= key(s[0])) {
      var t := Insert(x, s[1..], key);
      InsertSorted(x, s[1..], key);
      InsertPermutation(x, s[1..], key);
      forall j | 0 <= j < |t| ensures key(s[0]) <= key(t[j]) {
        assert t[j] in multiset(t);
        if t[j] != x {
          assert t[j] in multiset(s[1..]);
          var p :| 0 <= p < |s[1..]| && s[1..][p] == t[j];
          assert s[1..][p] == s[p + 1];
        }
      }
    }
  }

  lemma {:induction false} InsertStable<T>(x: T, s: seq<T>, key: T -> int, k: int)
    ensures WithKey(Insert(x, s, key), key, k) == (if key(x) == k then [x] else []) + WithKey(s, key, k)
    decreases |s|
  {
    var r := Insert(x, s, key);
    if s == [] || key(x) <= key(s[0]) {
      assert r[1..] == s;
    } else {
      InsertStable(x, s[1..], key, k);
      assert r[1..] == Insert(x, s[1..], key);
    }
  }

  /** Insertion sort: sorted by `key`, a permutation, and stable. */
  function SortBy<T>(s: seq<T>, key: T -> int): (r: seq<T>)
    ensures |r| == |s|
    ensures multiset(r) == multiset(s)
    ensures SortedBy(r, key)
    ensures forall k :: WithKey(r, key, k) == WithKey(s, key, k)
  {
    if s == [] then []
    else
      var t := SortBy(s[1..], key);
      InsertPermutation(s[0], t, key);
      InsertSorted(s[0], t, key);
      assert s == [s[0]] + s[1..];
      assert forall k :: WithKey(Insert(s[0], t, key), key, k) == WithKey(s, key, k) by {
        forall k ensures WithKey(Insert(s[0], t, key), key, k) == WithKey(s, key, k) {
          InsertStable(s[0], t, key, k);
        }
      }
      Insert(s[0], t, key)
  }

  lemma {:induction false} WithKeyMembers<T>(s: seq<T>, key: T -> int, k: int, x: T)
    requires x in WithKey(s, key, k)
    ensures x in s && key(x) == k
    decreases |s|
  {
    if s != [] && x !in (if key(s[0]) == k then [s[0]] else []) {
      WithKeyMembers(s[1..], key, k, x);
    }
  }

  /** The first element of `s` with key `k` heads `WithKey(s, key, k)`. */
  lemma {:induction false} WithKeyHead<T>(s: seq<T>, key: T -> int, i: nat)
    requires i < |s| && forall j :: 0 <= j < i ==> key(s[j]) != key(s[i])
    ensures WithKey(s, key, key(s[i])) != [] && WithKey(s, key, key(s[i]))[0] == s[i]
    decreases i
  {
    if i > 0 {
      WithKeyHead(s[1..], key, i - 1);
    }
  }

  /** `i` is the position of the first element of `s` with the smallest key. */
  ghost predicate IsFirstMin<T>(s: seq<T>, key: T -> int, i: int) {
    && 0 <= i < |s|
    && (forall j :: 0 <= j < |s| ==> key(s[i]) <= key(s[j]))
    && (forall j :: 0 <= j < i ==> key(s[i]) < key(s[j]))
  }

  /** The head of the sorted list is the earliest of the elements with the smallest key. */
  lemma SortByHead<T>(s: seq<T>, key: T -> int) returns (i: nat)
    requires s != []
    ensures IsFirstMin(s, key, i) && SortBy(s, key)[0] == s[i]
  {
    var r := SortBy(s, key);
    var m := key(r[0]);
    assert forall j :: 0 <= j < |s| ==> m <= key(s[j]) by {
      forall j | 0 <= j < |s| ensures m <= key(s[j]) {
        assert s[j] in multiset(r);
        var p :| 0 <= p < |r| && r[p] == s[j];
      }
    }
    assert r[0] in multiset(s);
    var i0 :| 0 <= i0 < |s| && s[i0] == r[0];
    i := FirstWithKey(s, key, m, i0);
    WithKeyHead(r, key, 0);
    WithKeyHead(s, key, i);
  }

  /** Finds the first position whose key is `k`, given that position `i0` has it. */
  lemma {:induction false} FirstWithKey<T>(s: seq<T>, key: T -> int, k: int, i0: nat) returns (i: nat)
    requires i0 < |s| && key(s[i0]) == k
    ensures i <= i0 && key(s[i]) == k && forall j :: 0 <= j < i ==> key(s[j]) != k
    decreases i0
  {
    if exists j :: 0 <= j < i0 && key(s[j]) == k {
      var j :| 0 <= j < i0 && key(s[j]) == k;
      i := FirstWithKey(s, key, k, j);
    } else {
      i := i0;
    }
  }

  /** Sortedness and stability determine the result: any two stable sorts agree. */
  lemma {:induction false} StableSortUnique<T>(a: seq<T>, b: seq<T>, key: T -> int)
    requires SortedBy(a, key) && SortedBy(b, key)
    requires forall k :: WithKey(a, key, k) == WithKey(b, key, k)
    ensures a == b
    decreases |a|
  {
    if a == [] || b == [] {
      if a != [] {
        WithKeyHead(a, key, 0);
      } else if b != [] {
        WithKeyHead(b, key, 0);
      }
    } else {
      WithKeyHead(a, key, 0);
      WithKeyHead(b, key, 0);
      var ka, kb := key(a[0]), key(b[0]);
      WithKeyMembers(b, key, ka, WithKey(b, key, ka)[0]);
      WithKeyMembers(a, key, kb, WithKey(a, key, kb)[0]);
      assert ka == kb;
      assert a[0] == b[0];
      forall k ensures WithKey(a[1..], key, k) == WithKey(b[1..], key, k) {
        var head := if key(a[0]) == k then [a[0]] else [];
        assert WithKey(a, key, k) == head + WithKey(a[1..], key, k);
        assert WithKey(b, key, k) == head + WithKey(b[1..], key, k);
        assert WithKey(a[1..], key, k) == WithKey(a, key, k)[|head|..];
        assert WithKey(b[1..], key, k) == WithKey(b, key, k)[|head|..];
      }
      StableSortUnique(a[1..], b[1..], key);
      assert a == [a[0]] + a[1..];
      assert b == [b[0]] + b[1..];
    }
  }
}
