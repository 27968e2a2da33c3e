/**
 * The listing order used by both file-listing tools: `list.sort` with the key
 * "name, lower-cased". Python's sort is stable and compares strings code point
 * by code point; the model sorts by an arbitrary string key so that both
 * listings can share it, and proves the result sorted, a permutation of the
 * input, and stable (entries with equal keys keep their input order).
 */
module NameOrder {
  import opened Text

  /** Every key is at most the next one. */
  ghost predicate SortedBy<T>(s: seq<T>, key: T -> string) {
    forall i, j :: 0 <= i < j < |s| ==> LexLe(key(s[i]), key(s[j]))
  }

  /** The elements whose key is exactly `k`, in order. */
  function WithKey<T>(s: seq<T>, key: T -> string, k: string): (r: seq<T>)
    ensures |r| <= |s|
    ensures forall x :: x in r ==> x in s && key(x) == k
  {
    if s == [] then []
    else (if key(s[0]) == k then [s[0]] else []) + WithKey(s[1..], key, k)
  }

  /**
   * Inserting `x` before the first element whose key is strictly greater,
   * so that `x` lands after every element with the same key.
   */
  function Insert<T>(t: seq<T>, x: T, key: T -> string): (r: seq<T>)
    ensures |r| == |t| + 1
  {
    if t == [] then [x]
    else if !LexLe(key(t[0]), key(x)) then [x] + t
    else [t[0]] + Insert(t[1..], x, key)
  }

  /** The sorted listing: each element in turn inserted into the sorted prefix. */
  function SortSpec<T>(s: seq<T>, key: T -> string): (r: seq<T>)
    ensures |r| == |s|
  {
    if s == [] then [] else Insert(SortSpec(s[..|s| - 1], key), s[|s| - 1], key)
  }

  lemma {:induction false} WithKeyAppend<T>(a: seq<T>, b: seq<T>, key: T -> string, k: string)
    ensures WithKey(a + b, key, k) == WithKey(a, key, k) + WithKey(b, key, k)
  {
    if a == [] {
      assert a + b == b;
    } else {
      assert (a + b)[0] == a[0];
      assert (a + b)[1..] == a[1..] + b;
      WithKeyAppend(a[1..], b, key, k);
    }
  }

  lemma {:induction false} InsertMultiset<T>(t: seq<T>, x: T, key: T -> string)
    ensures multiset(Insert(t, x, key)) == multiset(t) + multiset{x}
  {
    if t != [] && LexLe(key(t[0]), key(x)) {
      InsertMultiset(t[1..], x, key);
      assert t == [t[0]] + t[1..];
    }
  }

  lemma {:induction false} InsertSorted<T>(t: seq<T>, x: T, key: T -> string)
    requires SortedBy(t, key)
    ensures SortedBy(Insert(t, x, key), key)
    ensures forall y :: y in Insert(t, x, key) ==> y == x || y in t
  {
    var r := Insert(t, x, key);
    if t == [] {
    } else if !LexLe(key(t[0]), key(x)) {
      LexLeTotal(key(t[0]), key(x));
      forall i, j | 0 <= i < j < |r| ensures LexLe(key(r[i]), key(r[j])) {
        if i == 0 && j > 1 {
          LexLeTransitive(key(x), key(t[0]), key(t[j - 1]));
        }
      }
    } else {
      var rest := Insert(t[1..], x, key);
      InsertSorted(t[1..], x, key);
      assert r == [t[0]] + rest;
      forall i, j | 0 <= i < j < |r| ensures LexLe(key(r[i]), key(r[j])) {
        if i == 0 {
          var y := rest[j - 1];
          assert y in rest;
          if y != x {
            var m :| 0 <= m < |t[1..]| && t[1..][m] == y;
            assert LexLe(key(t[0]), key(t[m + 1]));
          }
        }
      }
    }
  }

  lemma {:induction false} SortSpecSorted<T>(s: seq<T>, key: T -> string)
    ensures SortedBy(SortSpec(s, key), key)
  {
    if s != [] {
      SortSpecSorted(s[..|s| - 1], key);
      InsertSorted(SortSpec(s[..|s| - 1], key), s[|s| - 1], key);
    }
  }

  lemma {:induction false} SortSpecPermutation<T>(s: seq<T>, key: T -> string)
    ensures multiset(SortSpec(s, key)) == multiset(s)
  {
    if s != [] {
      SortSpecPermutation(s[..|s| - 1], key);
      InsertMultiset(SortSpec(s[..|s| - 1], key), s[|s| - 1], key);
      assert s == s[..|s| - 1] + [s[|s| - 1]];
    }
  }

  /** In a sorted sequence whose first key is above key(x), no key equals key(x). */
  lemma {:induction false} AboveHasNoKey<T>(t: seq<T>, x: T, key: T -> string)
    requires SortedBy(t, key) && t != [] && !LexLe(key(t[0]), key(x))
    ensures WithKey(t, key, key(x)) == []
  {
    forall m | 0 <= m < |t| ensures key(t[m]) != key(x) {
      if m > 0 {
        assert LexLe(key(t[0]), key(t[m]));
      }
      LexLeReflexive(key(x));
    }
    WithKeyNone(t, key, key(x));
  }

  lemma {:induction false} WithKeyNone<T>(s: seq<T>, key: T -> string, k: string)
    requires forall m :: 0 <= m < |s| ==> key(s[m]) != k
    ensures WithKey(s, key, k) == []
  {
    if s != [] {
      WithKeyNone(s[1..], key, k);
    }
  }

  /** Inserting adds `x` at the end of the elements with its key and moves nothing else. */
  lemma {:induction false} InsertWithKey<T>(t: seq<T>, x: T, key: T -> string, k: string)
    requires SortedBy(t, key)
    ensures WithKey(Insert(t, x, key), key, k) == WithKey(t, key, k) + (if key(x) == k then [x] else [])
  {
    if t == [] {
    } else if !LexLe(key(t[0]), key(x)) {
      assert Insert(t, x, key)[1..] == t;
      if key(x) == k { AboveHasNoKey(t, x, key); }
    } else {
      assert Insert(t, x, key)[1..] == Insert(t[1..], x, key);
      InsertWithKey(t[1..], x, key, k);
    }
  }

  /** Stability: the elements sharing any one key appear in their input order. */
  lemma {:induction false} SortSpecStable<T>(s: seq<T>, key: T -> string, k: string)
    ensures WithKey(SortSpec(s, key), key, k) == WithKey(s, key, k)
  {
    if s != [] {
      var init := s[..|s| - 1];
      var x := s[|s| - 1];
      assert SortSpec(s, key) == Insert(SortSpec(init, key), x, key);
      SortSpecStable(init, key, k);
      SortSpecSorted(init, key);
      InsertWithKey(SortSpec(init, key), x, key, k);
      assert s == init + [x];
      WithKeyAppend(init, [x], key, k);
      WithKeyOne(x, key, k);
    }
  }

  lemma WithKeyOne<T>(x: T, key: T -> string, k: string)
    ensures WithKey([x], key, k) == if key(x) == k then [x] else []
  {
    assert [x][1..] == [];
  }

  /** Scanning past every element whose key is at most key(x) finds where `Insert` puts `x`. */
  lemma {:induction false} InsertAt<T>(t: seq<T>, x: T, key: T -> string, j: nat)
    requires j <= |t|
    requires forall m :: 0 <= m < j ==> LexLe(key(t[m]), key(x))
    requires j == |t| || !LexLe(key(t[j]), key(x))
    ensures Insert(t, x, key) == t[..j] + [x] + t[j..]
  {
    if j > 0 {
      InsertAt(t[1..], x, key, j - 1);
      assert t[1..][..j - 1] == t[1..j];
      assert t[1..][j - 1..] == t[j..];
      assert t[..j] == [t[0]] + t[1..j];
    }
  }

  /**
   * `list.sort(key=...)`: an insertion sort that places each element after
   * every element already placed whose key is not greater.
   */
  method SortByKey<T>(s: seq<T>, key: T -> string) returns (r: seq<T>)
    ensures r == SortSpec(s, key)
    ensures SortedBy(r, key) && multiset(r) == multiset(s)
    ensures forall k :: WithKey(r, key, k) == WithKey(s, key, k)
  {
    r := [];
    var i := 0;
    while i < |s|
      invariant 0 <= i <= |s|
      invariant r == SortSpec(s[..i], key)
    {
      var x := s[i];
      var j := 0;
      while j < |r| && LexLe(key(r[j]), key(x))
        invariant 0 <= j <= |r|
        invariant forall m :: 0 <= m < j ==> LexLe(key(r[m]), key(x))
      {
        j := j + 1;
      }
      InsertAt(r, x, key, j);
      r := r[..j] + [x] + r[j..];
      assert s[..i + 1][..i] == s[..i];
      i := i + 1;
    }
    assert s[..|s|] == s;
    SortSpecSorted(s, key);
    SortSpecPermutation(s, key);
    forall k ensures WithKey(r, key, k) == WithKey(s, key, k) {
      SortSpecStable(s, key, k);
    }
  }
}
