/** The stable sort that `Array.prototype.sort` performs with a numeric
    comparator `(a, b) => key(b) - key(a)`: non-increasing by `key`, equal
    keys in their input order. An ascending sort by `k` is the descending
    sort by `x => -k(x)`. */
module Sorting {

  /** Non-increasing by `key`. */
  ghost predicate SortedDesc<T>(s: seq<T>, key: T -> real)
  {
    forall i, j :: 0 <= i < j < |s| ==> key(s[i]) >= key(s[j])
  }

  /** The elements of `s` whose key equals `k`, in order: the tie class of `k`. */
  function SameKey<T>(s: seq<T>, key: T -> real, k: real): seq<T>
  {
    if s == [] then []
    else (if key(s[0]) == k then [s[0]] else []) + SameKey(s[1..], key, k)
  }

  /** Places `x` after every leading element with a strictly larger key. */
  function Insert<T>(x: T, s: seq<T>, key: T -> real): (r: seq<T>)
    ensures |r| == |s| + 1
    ensures multiset(r) == multiset(s) + multiset{x}
    ensures r[0] == x || (s != [] && r[0] == s[0])
  {
    if s == [] then [x]
    else if key(s[0]) > key(x) then
      assert s == [s[0]] + s[1..];
      [s[0]] + Insert(x, s[1..], key)
    else [x] + s
  }

  /** Insertion sort: the head of the input is inserted into the sorted tail. */
  function SortDesc<T>(s: seq<T>, key: T -> real): (r: seq<T>)
    ensures |r| == |s|
    ensures multiset(r) == multiset(s)
  {
    if s == [] then []
    else
      assert s == [s[0]] + s[1..];
      Insert(s[0], SortDesc(s[1..], key), key)
  }

  /** Sorting only reorders: a property of every element of the input holds
      of every element of the output. */
  lemma SortDescKeeps<T>(s: seq<T>, key: T -> real, p: T -> bool)
    requires forall i :: 0 <= i < |s| ==> p(s[i])
    ensures forall i :: 0 <= i < |SortDesc(s, key)| ==> p(SortDesc(s, key)[i])
  {
    var r := SortDesc(s, key);
    forall i | 0 <= i < |r| ensures p(r[i]) {
      assert r[i] in multiset(r);
      assert r[i] in s;
    }
  }

  lemma {:induction false} InsertSorted<T>(x: T, s: seq<T>, key: T -> real)
    requires SortedDesc(s, key)
    ensures SortedDesc(Insert(x, s, key), key)
  {
    if s != [] && key(s[0]) > key(x) {
      var t := Insert(x, s[1..], key);
      InsertSorted(x, s[1..], key);
      assert key(s[0]) >= key(t[0]);
      forall i, j | 0 <= i < j < |t| + 1
        ensures key(([s[0]] + t)[i]) >= key(([s[0]] + t)[j])
      {
        if i > 0 {
          assert ([s[0]] + t)[i] == t[i - 1];
        } else {
          assert key(t[0]) >= key(t[j - 1]);
        }
      }
    }
  }

  /** The result of `SortDesc` is non-increasing by `key`. */
  lemma {:induction false} SortDescSorted<T>(s: seq<T>, key: T -> real)
    ensures SortedDesc(SortDesc(s, key), key)
  {
    if s != [] {
      SortDescSorted(s[1..], key);
      InsertSorted(s[0], SortDesc(s[1..], key), key);
    }
  }

  lemma SameKeyCons<T>(y: T, t: seq<T>, key: T -> real, k: real)
    ensures SameKey([y] + t, key, k) == (if key(y) == k then [y] else []) + SameKey(t, key, k)
  {
    assert ([y] + t)[0] == y && ([y] + t)[1..] == t;
  }

  lemma SwapPastEmpty<T>(a: seq<T>, b: seq<T>, rest: seq<T>)
    requires a == [] || b == []
    ensures a + (b + rest) == b + (a + rest)
  {
    if a == [] {
      assert a + (b + rest) == b + rest && a + rest == rest;
    } else {
      assert b + rest == rest && b + (a + rest) == a + rest;
    }
  }

  lemma {:induction false} InsertSameKey<T>(x: T, s: seq<T>, key: T -> real, k: real)
    ensures SameKey(Insert(x, s, key), key, k)
         == (if key(x) == k then [x] else []) + SameKey(s, key, k)
  {
    if s == [] {
      SameKeyCons(x, [], key, k);
      assert [x] + [] == [x];
    } else {
      var head := if key(s[0]) == k then [s[0]] else [];
      var mine := if key(x) == k then [x] else [];
      SameKeyCons(s[0], s[1..], key, k);
      assert [s[0]] + s[1..] == s;
      if key(s[0]) > key(x) {
        var t := Insert(x, s[1..], key);
        var rest := SameKey(s[1..], key, k);
        InsertSameKey(x, s[1..], key, k);
        SameKeyCons(s[0], t, key, k);
        assert Insert(x, s, key) == [s[0]] + t;
        assert SameKey(Insert(x, s, key), key, k) == head + (mine + rest);
        SwapPastEmpty(head, mine, rest);
      } else {
        SameKeyCons(x, s, key, k);
      }
    }
  }

  /** Stability: every tie class keeps its input order. Together with
      `SortDescSorted` this determines the output uniquely. */
  lemma {:induction false} SortDescStable<T>(s: seq<T>, key: T -> real, k: real)
    ensures SameKey(SortDesc(s, key), key, k) == SameKey(s, key, k)
  {
    if s != [] {
      SortDescStable(s[1..], key, k);
      InsertSameKey(s[0], SortDesc(s[1..], key), key, k);
    }
  }

  /** An input that is already non-increasing is returned unchanged. */
  lemma {:induction false} SortDescOfSorted<T>(s: seq<T>, key: T -> real)
    requires SortedDesc(s, key)
    ensures SortDesc(s, key) == s
  {
    if s != [] {
      assert SortedDesc(s[1..], key) by {
        forall i, j | 0 <= i < j < |s| - 1 ensures key(s[1..][i]) >= key(s[1..][j]) {
          assert s[1..][i] == s[i + 1] && s[1..][j] == s[j + 1];
        }
      }
      SortDescOfSorted(s[1..], key);
      var t := s[1..];
      if t != [] {
        assert key(t[0]) <= key(s[0]);
      }
      assert s == [s[0]] + t;
    }
  }
}
