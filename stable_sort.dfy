/**
 * The stable descending sort the pipeline gets from `Array.prototype.sort`
 * with a comparator `(a, b) => key(b) - key(a)` (stable since ECMAScript 2019),
 * written as an insertion sort.
 */
module StableSort {
  import opened Wrappers
  import opened Seqs

  ghost predicate SortedDesc<T>(s: seq<T>, key: T -> int)
  {
    forall i, j :: 0 <= i < j < |s| ==> key(s[i]) >= key(s[j])
  }

  /** Puts `x` in front of the first element whose key is not larger than its own. */
  function Insert<T>(x: T, s: seq<T>, key: T -> int): (r: seq<T>)
    ensures |r| == |s| + 1
    ensures multiset(r) == multiset(s) + multiset{x}
    ensures forall y :: y in r ==> y == x || y in s
  {
    if s == [] then [x]
    else if key(s[0]) <= key(x) then [x] + s
    else
      assert s == [s[0]] + s[1..];
      [s[0]] + Insert(x, s[1..], key)
  }

  function SortDesc<T>(s: seq<T>, key: T -> int): (r: seq<T>)
    ensures |r| == |s|
    ensures multiset(r) == multiset(s)
  {
    if s == [] then []
    else
      assert s == [s[0]] + s[1..];
      Insert(s[0], SortDesc(s[1..], key), key)
  }

  lemma {:induction false} InsertSorted<T>(x: T, s: seq<T>, key: T -> int)
    requires SortedDesc(s, key)
    ensures SortedDesc(Insert(x, s, key), key)
  {
    if s != [] && key(s[0]) > key(x) {
      var t := Insert(x, s[1..], key);
      InsertSorted(x, s[1..], key);
      var r := [s[0]] + t;
      assert Insert(x, s, key) == r;
      forall j | 0 <= j < |t| ensures key(s[0]) >= key(t[j]) {
        assert t[j] in t;
        if t[j] != x {
          var k :| 0 <= k < |s[1..]| && s[1..][k] == t[j];
          assert s[k + 1] == t[j];
        }
      }
      forall i, j | 0 <= i < j < |r| ensures key(r[i]) >= key(r[j]) {
        if i == 0 {
          assert r[j] == t[j - 1];
        } else {
          assert r[i] == t[i - 1] && r[j] == t[j - 1];
        }
      }
    }
  }

  /** The result of the sort is ordered by non-increasing key. */
  lemma {:induction false} SortDescSorted<T>(s: seq<T>, key: T -> int)
    ensures SortedDesc(SortDesc(s, key), key)
  {
    if s != [] {
      SortDescSorted(s[1..], key);
      InsertSorted(s[0], SortDesc(s[1..], key), key);
    }
  }

  /** The elements of `s` whose key is `k`, in order. */
  function WithKey<T>(s: seq<T>, key: T -> int, k: int): (r: seq<T>)
    ensures forall x :: x in r ==> x in s && key(x) == k
  {
    if s == [] then [] else (if key(s[0]) == k then [s[0]] else []) + WithKey(s[1..], key, k)
  }

  lemma {:induction false} WithKeyConcat<T>(a: seq<T>, b: seq<T>, key: T -> int, k: int)
    ensures WithKey(a + b, key, k) == WithKey(a, key, k) + WithKey(b, key, k)
  {
    if a == [] {
      assert a + b == b;
    } else {
      assert (a + b)[1..] == a[1..] + b;
      WithKeyConcat(a[1..], b, key, k);
    }
  }

  lemma {:induction false} InsertWithKey<T>(x: T, s: seq<T>, key: T -> int, k: int)
    ensures WithKey(Insert(x, s, key), key, k) ==
            (if key(x) == k then [x] else []) + WithKey(s, key, k)
  {
    if s != [] && key(s[0]) > key(x) {
      InsertWithKey(x, s[1..], key, k);
      InsertWithKeyBehind(x, s, key, k);
    } else {
      InsertWithKeyFront(x, s, key, k);
    }
  }

  lemma InsertWithKeyFront<T>(x: T, s: seq<T>, key: T -> int, k: int)
    requires s == [] || key(s[0]) <= key(x)
    ensures WithKey(Insert(x, s, key), key, k) == (if key(x) == k then [x] else []) + WithKey(s, key, k)
  {
    var r := Insert(x, s, key);
    assert r == [x] + s;
    assert r[1..] == s;
  }

  lemma InsertWithKeyBehind<T>(x: T, s: seq<T>, key: T -> int, k: int)
    requires s != [] && key(s[0]) > key(x)
    requires WithKey(Insert(x, s[1..], key), key, k) == (if key(x) == k then [x] else []) + WithKey(s[1..], key, k)
    ensures WithKey(Insert(x, s, key), key, k) == (if key(x) == k then [x] else []) + WithKey(s, key, k)
  {
    var t := Insert(x, s[1..], key);
    var r := Insert(x, s, key);
    assert r == [s[0]] + t;
    assert r[0] == s[0] && r[1..] == t;
    var rest := WithKey(s[1..], key, k);
    var hs: seq<T> := if key(s[0]) == k then [s[0]] else [];
    var hx: seq<T> := if key(x) == k then [x] else [];
    assert WithKey(r, key, k) == hs + (hx + rest);
    assert WithKey(s, key, k) == hs + rest;
    // `s[0]` and `x` have different keys, so at most one of them is kept.
    if hs == [] {
      assert hs + (hx + rest) == hx + rest && hs + rest == rest;
    } else {
      assert hx == [];
      assert hx + rest == rest && hx + (hs + rest) == hs + rest;
    }
  }

  /** Stability: elements with equal keys keep their relative input order. */
  lemma {:induction false} SortDescStable<T>(s: seq<T>, key: T -> int, k: int)
    ensures WithKey(SortDesc(s, key), key, k) == WithKey(s, key, k)
  {
    if s != [] {
      SortDescStable(s[1..], key, k);
      InsertWithKey(s[0], SortDesc(s[1..], key), key, k);
    }
  }

  /**
   * Reference definition by a left-to-right scan: among the elements
   * satisfying `ok`, the first one with the largest key.
   */
  function BestByScan<T>(s: seq<T>, ok: T -> bool, key: T -> int): (r: Option<T>)
  {
    if s == [] then None
    else
      var rest := BestByScan(s[1..], ok, key);
      if !ok(s[0]) then rest
      else if rest.Some? && key(rest.value) > key(s[0]) then rest
      else Some(s[0])
  }

  lemma {:induction false} BestByScanIsBest<T>(s: seq<T>, ok: T -> bool, key: T -> int)
    ensures BestByScan(s, ok, key).Some? <==> exists i :: 0 <= i < |s| && ok(s[i])
    ensures BestByScan(s, ok, key).Some? ==>
              var b := BestByScan(s, ok, key).value;
              b in s && ok(b) && forall i :: 0 <= i < |s| && ok(s[i]) ==> key(s[i]) <= key(b)
  {
    if s != [] {
      BestByScanIsBest(s[1..], ok, key);
      assert forall i :: 1 <= i < |s| ==> s[i] == s[1..][i - 1];
    }
  }

  /** Ties go to the earliest: every `ok` element before the chosen one has a smaller key. */
  lemma {:induction false} BestByScanIsFirst<T>(s: seq<T>, ok: T -> bool, key: T -> int)
    requires BestByScan(s, ok, key).Some?
    ensures exists i :: 0 <= i < |s| && s[i] == BestByScan(s, ok, key).value && ok(s[i]) &&
                        forall j :: 0 <= j < i && ok(s[j]) ==> key(s[j]) < key(s[i])
  {
    var rest := BestByScan(s[1..], ok, key);
    if !ok(s[0]) || (rest.Some? && key(rest.value) > key(s[0])) {
      BestByScanIsFirst(s[1..], ok, key);
      var i :| 0 <= i < |s[1..]| && s[1..][i] == rest.value && ok(s[1..][i]) &&
               forall j :: 0 <= j < i && ok(s[1..][j]) ==> key(s[1..][j]) < key(s[1..][i]);
      assert s[i + 1] == rest.value;
      forall j | 0 <= j < i + 1 && ok(s[j]) ensures key(s[j]) < key(s[i + 1]) {
        if j > 0 {
          assert s[j] == s[1..][j - 1];
        }
      }
    } else {
      assert s[0] == BestByScan(s, ok, key).value;
    }
  }

  lemma {:induction false} FindFirstInsertNotOk<T>(x: T, s: seq<T>, ok: T -> bool, key: T -> int)
    requires !ok(x)
    ensures FindFirst(Insert(x, s, key), ok) == FindFirst(s, ok)
  {
    if s != [] {
      var r := Insert(x, s, key);
      if key(s[0]) > key(x) {
        assert r[0] == s[0] && r[1..] == Insert(x, s[1..], key);
        FindFirstInsertNotOk(x, s[1..], ok, key);
      } else {
        assert r[1..] == s;
      }
    }
  }

  lemma {:induction false} FindFirstInsertOk<T>(x: T, s: seq<T>, ok: T -> bool, key: T -> int)
    requires ok(x) && SortedDesc(s, key)
    ensures var f := FindFirst(s, ok);
            FindFirst(Insert(x, s, key), ok) ==
              if f.Some? && key(f.value) > key(x) then f else Some(x)
  {
    if s != [] {
      var r := Insert(x, s, key);
      if key(s[0]) > key(x) {
        assert r[0] == s[0] && r[1..] == Insert(x, s[1..], key);
        if !ok(s[0]) {
          FindFirstInsertOk(x, s[1..], ok, key);
        }
      } else {
        var f := FindFirst(s, ok);
        if f.Some? {
          assert key(f.value) <= key(s[0]);
        }
      }
    }
  }

  /**
   * Taking the first `ok` element of the stably sorted sequence picks the
   * first (in input order) among the `ok` elements with the largest key.
   */
  lemma {:induction false} FirstOfSortedIsBest<T>(s: seq<T>, ok: T -> bool, key: T -> int)
    ensures FindFirst(SortDesc(s, key), ok) == BestByScan(s, ok, key)
  {
    if s != [] {
      FirstOfSortedIsBest(s[1..], ok, key);
      SortDescSorted(s[1..], key);
      if ok(s[0]) {
        FindFirstInsertOk(s[0], SortDesc(s[1..], key), ok, key);
      } else {
        FindFirstInsertNotOk(s[0], SortDesc(s[1..], key), ok, key);
      }
    }
  }
}
