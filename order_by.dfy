/**
 * LINQ's OrderBy with a real-valued key: a stable sort, nondecreasing by the
 * key. The palette builder uses it to order the grid of a colour range.
 */
module OrderBy {

  predicate SortedBy<T>(s: seq<T>, key: T -> real)
  {
    forall i, j :: 0 <= i < j < |s| ==> key(s[i]) <= key(s[j])
  }

  /** The elements of `s` whose key is `k`, in their order in `s`. */
  function WithKey<T>(s: seq<T>, key: T -> real, k: real): seq<T>
  {
    if |s| == 0 then []
    else (if key(s[0]) == k then [s[0]] else []) + WithKey(s[1..], key, k)
  }

  /** Puts `x` in front of the first element whose key is not smaller. */
  function InsertBy<T>(x: T, s: seq<T>, key: T -> real): seq<T>
  {
    if |s| == 0 || key(x) <= key(s[0]) then [x] + s
    else [s[0]] + InsertBy(x, s[1..], key)
  }

  /** Insertion sort from the back, so that earlier elements stay in front of equal ones. */
  function SortBy<T>(s: seq<T>, key: T -> real): seq<T>
  {
    if |s| == 0 then [] else InsertBy(s[0], SortBy(s[1..], key), key)
  }

  lemma {:induction false} InsertByPermutation<T>(x: T, s: seq<T>, key: T -> real)
    ensures multiset(InsertBy(x, s, key)) == multiset{x} + multiset(s)
    ensures |InsertBy(x, s, key)| == |s| + 1
  {
    if |s| != 0 && key(x) > key(s[0]) {
      InsertByPermutation(x, s[1..], key);
      assert s == [s[0]] + s[1..];
    }
  }

  /** Inserting keeps a lower bound that `x` and every element of `s` respect. */
  lemma {:induction false} InsertByLowerBound<T>(x: T, s: seq<T>, key: T -> real, bound: real)
    requires bound <= key(x) && forall i :: 0 <= i < |s| ==> bound <= key(s[i])
    ensures forall j :: 0 <= j < |InsertBy(x, s, key)| ==> bound <= key(InsertBy(x, s, key)[j])
  {
    if |s| != 0 && key(x) > key(s[0]) {
      InsertByLowerBound(x, s[1..], key, bound);
    }
  }

  lemma {:induction false} SortedTail<T>(s: seq<T>, key: T -> real)
    requires |s| > 0 && SortedBy(s, key)
    ensures SortedBy(s[1..], key)
    ensures forall i :: 0 <= i < |s[1..]| ==> key(s[0]) <= key(s[1..][i])
  {
    forall i, j | 0 <= i < j < |s[1..]| ensures key(s[1..][i]) <= key(s[1..][j]) {
      assert s[1..][i] == s[i + 1] && s[1..][j] == s[j + 1];
    }
    forall i | 0 <= i < |s[1..]| ensures key(s[0]) <= key(s[1..][i]) {
      assert s[1..][i] == s[i + 1];
    }
  }

  lemma {:induction false} InsertBySorted<T>(x: T, s: seq<T>, key: T -> real)
    requires SortedBy(s, key)
    ensures SortedBy(InsertBy(x, s, key), key)
  {
    if |s| != 0 && key(x) > key(s[0]) {
      var t := InsertBy(x, s[1..], key);
      SortedTail(s, key);
      InsertBySorted(x, s[1..], key);
      InsertByLowerBound(x, s[1..], key, key(s[0]));
      var r := InsertBy(x, s, key);
      assert r == [s[0]] + t;
      forall i, j | 0 <= i < j < |r| ensures key(r[i]) <= key(r[j]) {
        assert r[j] == t[j - 1];
        if i > 0 {
          assert r[i] == t[i - 1];
        }
      }
    }
  }

  lemma {:induction false} InsertByWithKey<T>(x: T, s: seq<T>, key: T -> real, k: real)
    requires SortedBy(s, key)
    ensures WithKey(InsertBy(x, s, key), key, k)
         == (if key(x) == k then [x] else []) + WithKey(s, key, k)
  {
    if |s| == 0 || key(x) <= key(s[0]) {
      assert ([x] + s)[1..] == s;
    } else {
      var r := InsertBy(x, s, key);
      var head := if key(s[0]) == k then [s[0]] else [];
      var mid := if key(x) == k then [x] else [];
      assert r[0] == s[0] && r[1..] == InsertBy(x, s[1..], key);
      assert WithKey(r, key, k) == head + WithKey(r[1..], key, k);
      InsertByWithKey(x, s[1..], key, k);
      assert WithKey(s, key, k) == head + WithKey(s[1..], key, k);
      // x only moves past elements with a smaller key, so never past one with key k == key(x)
      assert key(x) == k ==> head == [];
      calc {
        WithKey(r, key, k);
        head + (mid + WithKey(s[1..], key, k));
        { if key(x) == k { assert head == []; } }
        mid + (head + WithKey(s[1..], key, k));
      }
    }
  }

  /** OrderBy returns a permutation of its input, nondecreasing by the key. */
  lemma {:induction false} SortBySortedPermutation<T>(s: seq<T>, key: T -> real)
    ensures SortedBy(SortBy(s, key), key)
    ensures multiset(SortBy(s, key)) == multiset(s)
    ensures |SortBy(s, key)| == |s|
  {
    if |s| != 0 {
      SortBySortedPermutation(s[1..], key);
      InsertBySorted(s[0], SortBy(s[1..], key), key);
      InsertByPermutation(s[0], SortBy(s[1..], key), key);
      assert s == [s[0]] + s[1..];
    }
  }

  /** OrderBy is stable: the elements sharing any one key keep their input order. */
  lemma {:induction false} SortByStable<T>(s: seq<T>, key: T -> real, k: real)
    ensures WithKey(SortBy(s, key), key, k) == WithKey(s, key, k)
  {
    if |s| != 0 {
      SortByStable(s[1..], key, k);
      SortBySortedPermutation(s[1..], key);
      InsertByWithKey(s[0], SortBy(s[1..], key), key, k);
    }
  }
}
