/**
 * Stable sorting by a descending integer key. Section 23.1.3.30 of ECMA-262 (2023 edition)
 * requires `Array.prototype.sort` to be stable, so a comparator `(a, b) => key(b) - key(a)`
 * yields the unique arrangement that is non-increasing in the key and keeps the input order
 * among elements with equal keys. `SortDesc` computes it by insertion, and `StableSortUnique`
 * shows that every such arrangement is this one.
 */
module Ordering {

  /** The keys are non-increasing from left to right. */
  predicate SortedDesc<T>(key: T -> int, s: seq<T>) {
    forall i, j :: 0 <= i < j < |s| ==> key(s[i]) >= key(s[j])
  }

  /** The elements of `s` whose key is `k`, in their order in `s`. */
  function Band<T>(key: T -> int, s: seq<T>, k: int): (r: seq<T>)
    ensures |r| <= |s|
    ensures forall i :: 0 <= i < |r| ==> key(r[i]) == k && r[i] in s
  {
    if |s| == 0 then []
    else if key(s[0]) == k then [s[0]] + Band(key, s[1..], k)
    else Band(key, s[1..], k)
  }

  /** Places `x` in front of the first element whose key does not exceed `key(x)`. */
  function Insert<T>(key: T -> int, x: T, s: seq<T>): (r: seq<T>)
    ensures |r| == |s| + 1
    ensures multiset(r) == multiset(s) + multiset{x}
    ensures r[0] == x || (|s| > 0 && r[0] == s[0])
    ensures SortedDesc(key, s) ==> SortedDesc(key, r)
  {
    if |s| == 0 || key(x) >= key(s[0]) then
      [x] + s
    else
      var rest := Insert(key, x, s[1..]);
      ConsMultiset(s, rest, x);
      // the head of `rest` is x or s[1], neither above s[0]
      assert SortedDesc(key, s) ==> SortedDesc(key, [s[0]] + rest) by {
        if SortedDesc(key, s) {
          ConsSorted(key, s[0], rest);
        }
      }
      [s[0]] + rest
  }

  /** Putting the head of `s` back in front of `rest`, which is the tail of `s` plus `x`, gives `s` plus `x`. */
  lemma ConsMultiset<T>(s: seq<T>, rest: seq<T>, x: T)
    requires |s| > 0 && multiset(rest) == multiset(s[1..]) + multiset{x}
    ensures multiset([s[0]] + rest) == multiset(s) + multiset{x}
  {
    assert s == [s[0]] + s[1..];
  }

  /** A sorted sequence stays sorted behind a head whose key is not below its first one. */
  lemma ConsSorted<T>(key: T -> int, h: T, s: seq<T>)
    requires SortedDesc(key, s) && (|s| > 0 ==> key(h) >= key(s[0]))
    ensures SortedDesc(key, [h] + s)
  {
    forall i, j | 0 <= i < j < |s| + 1 ensures key(([h] + s)[i]) >= key(([h] + s)[j]) {
      if i == 0 && j > 1 {
        assert key(s[0]) >= key(s[j - 1]);
      }
    }
  }

  /** Insertion of `x` puts it before every element of `s` with the same key. */
  lemma {:induction false} InsertBand<T>(key: T -> int, x: T, s: seq<T>, k: int)
    ensures Band(key, Insert(key, x, s), k) == Band(key, [x] + s, k)
    decreases |s|
  {
    if |s| > 0 && key(x) < key(s[0]) {
      InsertBand(key, x, s[1..], k);
      assert ([x] + s)[1..] == s;
      assert ([s[0]] + Insert(key, x, s[1..]))[1..] == Insert(key, x, s[1..]);
      assert ([x] + s[1..])[1..] == s[1..];
      if key(s[0]) == k {
        assert key(x) != k;
      } else {
        assert Band(key, [x] + s, k) == Band(key, [x] + s[1..], k) by {
          if key(x) == k {
            assert Band(key, [x] + s, k) == [x] + Band(key, s, k);
            assert Band(key, s, k) == Band(key, s[1..], k);
            assert Band(key, [x] + s[1..], k) == [x] + Band(key, s[1..], k);
          } else {
            assert Band(key, [x] + s, k) == Band(key, s, k);
            assert Band(key, [x] + s[1..], k) == Band(key, s[1..], k);
          }
        }
      }
    }
  }

  /**
   * `arr.sort((a, b) => key(b) - key(a))`: a permutation of `s`, non-increasing in the key,
   * in which the elements of every key keep their relative order from `s`.
   */
  function SortDesc<T>(key: T -> int, s: seq<T>): (r: seq<T>)
    ensures |r| == |s|
    ensures multiset(r) == multiset(s)
    ensures SortedDesc(key, r)
  {
    if |s| == 0 then []
    else
      assert s == [s[0]] + s[1..];
      Insert(key, s[0], SortDesc(key, s[1..]))
  }

  /** Stability: for every key, the elements with that key appear in the same order as in the input. */
  lemma {:induction false} SortDescStable<T>(key: T -> int, s: seq<T>, k: int)
    ensures Band(key, SortDesc(key, s), k) == Band(key, s, k)
    decreases |s|
  {
    if |s| > 0 {
      var rest := SortDesc(key, s[1..]);
      SortDescStable(key, s[1..], k);
      InsertBand(key, s[0], rest, k);
      assert ([s[0]] + rest)[1..] == rest;
    }
  }

  /** Sorting an already sorted sequence leaves it unchanged. */
  lemma {:induction false} SortDescOfSorted<T>(key: T -> int, s: seq<T>)
    requires SortedDesc(key, s)
    ensures SortDesc(key, s) == s
    decreases |s|
  {
    if |s| > 0 {
      SortDescOfSorted(key, s[1..]);
      assert s == [s[0]] + s[1..];
    }
  }

  /** Sorting is idempotent. */
  lemma SortDescIdempotent<T>(key: T -> int, s: seq<T>)
    ensures SortDesc(key, SortDesc(key, s)) == SortDesc(key, s)
  {
    SortDescOfSorted(key, SortDesc(key, s));
  }

  /** An element with key `k` in `s` lies in the band of `k`. */
  lemma {:induction false} InBand<T>(key: T -> int, s: seq<T>, i: int)
    requires 0 <= i < |s|
    ensures |Band(key, s, key(s[i]))| > 0
    decreases |s|
  {
    if i > 0 && key(s[0]) != key(s[i]) {
      InBand(key, s[1..], i - 1);
    }
  }

  /**
   * Uniqueness of the stable sort: two sequences sorted by descending key whose bands agree
   * for every key are equal. Hence any stable sort by this comparator returns `SortDesc`.
   */
  lemma {:induction false} StableSortUnique<T>(key: T -> int, a: seq<T>, b: seq<T>)
    requires SortedDesc(key, a) && SortedDesc(key, b)
    requires forall k :: Band(key, a, k) == Band(key, b, k)
    ensures a == b
    decreases |a| + |b|
  {
    if |a| == 0 && |b| > 0 {
      InBand(key, b, 0);
    } else if |b| == 0 && |a| > 0 {
      InBand(key, a, 0);
    } else if |a| > 0 && |b| > 0 {
      var ka, kb := key(a[0]), key(b[0]);
      if ka > kb {
        BandKeysBounded(key, b, ka);
      } else if kb > ka {
        BandKeysBounded(key, a, kb);
      } else {
        assert Band(key, a, ka) == [a[0]] + Band(key, a[1..], ka);
        assert Band(key, b, ka) == [b[0]] + Band(key, b[1..], ka);
        assert a[0] == Band(key, a, ka)[0] == Band(key, b, ka)[0] == b[0];
        forall k ensures Band(key, a[1..], k) == Band(key, b[1..], k) {
          assert Band(key, a, k) == Band(key, b, k);
          if k == ka {
            assert Band(key, a, k)[1..] == Band(key, a[1..], k);
            assert Band(key, b, k)[1..] == Band(key, b[1..], k);
          }
        }
        StableSortUnique(key, a[1..], b[1..]);
        assert a == [a[0]] + a[1..] && b == [b[0]] + b[1..];
      }
    }
  }

  /** A sorted sequence has an empty band for every key above its first element's. */
  lemma {:induction false} BandKeysBounded<T>(key: T -> int, s: seq<T>, k: int)
    requires SortedDesc(key, s) && |s| > 0 && k > key(s[0])
    ensures Band(key, s, k) == []
  {
    BandAbove(key, s, k);
  }

  lemma {:induction false} BandAbove<T>(key: T -> int, s: seq<T>, k: int)
    requires forall i :: 0 <= i < |s| ==> key(s[i]) < k
    ensures Band(key, s, k) == []
    decreases |s|
  {
    if |s| > 0 {
      BandAbove(key, s[1..], k);
    }
  }

  /** The sorted result is exactly characterised by sortedness and stability. */
  lemma StableSortCharacterisation<T>(key: T -> int, s: seq<T>, r: seq<T>)
    requires SortedDesc(key, r)
    requires forall k :: Band(key, r, k) == Band(key, s, k)
    ensures r == SortDesc(key, s)
  {
    forall k ensures Band(key, r, k) == Band(key, SortDesc(key, s), k) {
      SortDescStable(key, s, k);
    }
    StableSortUnique(key, r, SortDesc(key, s));
  }

  /** Selecting one band of a sequence sorted by another key keeps it sorted by that key. */
  lemma {:induction false} BandOfSorted<T>(key: T -> int, other: T -> int, s: seq<T>, k: int)
    requires SortedDesc(other, s)
    ensures SortedDesc(other, Band(key, s, k))
    decreases |s|
  {
    if |s| > 0 {
      BandOfSorted(key, other, s[1..], k);
      var rest := Band(key, s[1..], k);
      forall i | 0 <= i < |rest| ensures other(s[0]) >= other(rest[i]) {
        var j :| 0 <= j < |s[1..]| && s[1..][j] == rest[i];
        assert s[j + 1] == rest[i];
      }
    }
  }
}
