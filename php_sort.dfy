/**
 * Byte-wise string order (`strcmp`, `sort(..., SORT_STRING)`) and the sort
 * that `sort` and `ksort` perform, specified as "the result is ordered and is
 * a permutation of the input". The key fact proved here is that an ordered
 * permutation is unique when the sort key tells elements apart: this is why
 * the order in which values are supplied to a sort never shows in its result.
 */
module PhpSort {

  /** `strcmp($a, $b) <= 0`: lexicographic order on byte values, a prefix first. */
  predicate StrLe(a: string, b: string) {
    |a| == 0 || (|b| > 0 && (a[0] < b[0] || (a[0] == b[0] && StrLe(a[1..], b[1..]))))
  }

  lemma {:induction false} StrLeReflexive(a: string)
    ensures StrLe(a, a)
  {
    if |a| > 0 {
      StrLeReflexive(a[1..]);
    }
  }

  lemma {:induction false} StrLeTotal(a: string, b: string)
    ensures StrLe(a, b) || StrLe(b, a)
  {
    if |a| > 0 && |b| > 0 && a[0] == b[0] {
      StrLeTotal(a[1..], b[1..]);
    }
  }

  lemma {:induction false} StrLeAntisymmetric(a: string, b: string)
    requires StrLe(a, b) && StrLe(b, a)
    ensures a == b
  {
    if |a| > 0 && |b| > 0 {
      StrLeAntisymmetric(a[1..], b[1..]);
      assert a == [a[0]] + a[1..] && b == [b[0]] + b[1..];
    }
  }

  lemma {:induction false} StrLeTransitive(a: string, b: string, c: string)
    requires StrLe(a, b) && StrLe(b, c)
    ensures StrLe(a, c)
  {
    if |a| > 0 && |b| > 0 && |c| > 0 && a[0] == b[0] && b[0] == c[0] {
      StrLeTransitive(a[1..], b[1..], c[1..]);
    }
  }

  /** `s` is in ascending order of `key`. */
  ghost predicate SortedBy<T>(s: seq<T>, key: T -> string) {
    forall i, j :: 0 <= i < j < |s| ==> StrLe(key(s[i]), key(s[j]))
  }

  /** Inserts `x` in front of the first element whose key is larger. */
  function InsertBy<T>(x: T, s: seq<T>, key: T -> string): (r: seq<T>)
    ensures |r| == |s| + 1
  {
    if |s| == 0 then [x]
    else if StrLe(key(x), key(s[0])) then [x] + s
    else [s[0]] + InsertBy(x, s[1..], key)
  }

  /** The sort performed by PHP's `sort` (on the values) and `ksort` (on the keys). */
  function SortBy<T>(s: seq<T>, key: T -> string): (r: seq<T>)
    ensures |r| == |s|
  {
    if |s| == 0 then [] else InsertBy(s[0], SortBy(s[1..], key), key)
  }

  lemma {:induction false} InsertByPermutes<T>(x: T, s: seq<T>, key: T -> string)
    ensures multiset(InsertBy(x, s, key)) == multiset(s) + multiset{x}
  {
    if |s| > 0 && !StrLe(key(x), key(s[0])) {
      InsertByPermutes(x, s[1..], key);
      assert s == [s[0]] + s[1..];
    }
  }

  lemma {:induction false} InsertBySorted<T>(x: T, s: seq<T>, key: T -> string)
    requires SortedBy(s, key)
    ensures SortedBy(InsertBy(x, s, key), key)
  {
    var r := InsertBy(x, s, key);
    if |s| == 0 {
    } else if StrLe(key(x), key(s[0])) {
      forall i, j | 0 <= i < j < |r| ensures StrLe(key(r[i]), key(r[j])) {
        if i == 0 && j > 1 {
          StrLeTransitive(key(x), key(s[0]), key(s[j - 1]));
        }
      }
    } else {
      StrLeTotal(key(x), key(s[0]));
      InsertBySorted(x, s[1..], key);
      InsertByLowerBound(x, s[1..], key, key(s[0]));
      var tail := InsertBy(x, s[1..], key);
      assert r == [s[0]] + tail;
      forall i, j | 0 <= i < j < |r| ensures StrLe(key(r[i]), key(r[j])) {
        assert r[j] == tail[j - 1];
        if i > 0 {
          assert r[i] == tail[i - 1];
        }
      }
    }
  }

  /** Inserting an element no smaller than `b` into elements no smaller than `b` keeps them all no smaller than `b`. */
  lemma {:induction false} InsertByLowerBound<T>(x: T, s: seq<T>, key: T -> string, b: string)
    requires StrLe(b, key(x))
    requires forall i :: 0 <= i < |s| ==> StrLe(b, key(s[i]))
    ensures forall i :: 0 <= i < |InsertBy(x, s, key)| ==> StrLe(b, key(InsertBy(x, s, key)[i]))
  {
    if |s| > 0 && !StrLe(key(x), key(s[0])) {
      InsertByLowerBound(x, s[1..], key, b);
      var r := InsertBy(x, s, key);
      var tail := InsertBy(x, s[1..], key);
      assert r == [s[0]] + tail;
      forall i | 0 <= i < |r| ensures StrLe(b, key(r[i])) {
        if i > 0 {
          assert r[i] == tail[i - 1];
        }
      }
    }
  }

  /** `SortBy` yields an ordered permutation of its input. */
  lemma {:induction false} SortByCorrect<T>(s: seq<T>, key: T -> string)
    ensures SortedBy(SortBy(s, key), key)
    ensures multiset(SortBy(s, key)) == multiset(s)
  {
    SortBySorted(s, key);
    SortByPermutes(s, key);
  }

  lemma {:induction false} SortBySorted<T>(s: seq<T>, key: T -> string)
    ensures SortedBy(SortBy(s, key), key)
  {
    if |s| > 0 {
      SortBySorted(s[1..], key);
      InsertBySorted(s[0], SortBy(s[1..], key), key);
    }
  }

  lemma {:induction false} SortByPermutes<T>(s: seq<T>, key: T -> string)
    ensures multiset(SortBy(s, key)) == multiset(s)
  {
    if |s| > 0 {
      SortByPermutes(s[1..], key);
      InsertByPermutes(s[0], SortBy(s[1..], key), key);
      assert s == [s[0]] + s[1..];
    }
  }

  /** Elements of `m` with the same key are the same element. */
  ghost predicate KeyDeterminesElement<T>(m: multiset<T>, key: T -> string) {
    forall x, y :: x in m && y in m && key(x) == key(y) ==> x == y
  }

  lemma HeadIsLeast<T>(s: seq<T>, key: T -> string, y: T)
    requires SortedBy(s, key) && |s| > 0 && y in multiset(s)
    ensures StrLe(key(s[0]), key(y))
  {
    var k :| 0 <= k < |s| && s[k] == y;
    if k == 0 {
      StrLeReflexive(key(y));
    }
  }

  lemma SortedTail<T>(s: seq<T>, key: T -> string)
    requires SortedBy(s, key) && |s| > 0
    ensures SortedBy(s[1..], key)
  {
    forall i, j | 0 <= i < j < |s[1..]| ensures StrLe(key(s[1..][i]), key(s[1..][j])) {
      assert s[1..][i] == s[i + 1] && s[1..][j] == s[j + 1];
    }
  }

  lemma TailMultiset<T>(s: seq<T>, t: seq<T>)
    requires |s| > 0 && |t| > 0 && s[0] == t[0] && multiset(s) == multiset(t)
    ensures multiset(s[1..]) == multiset(t[1..])
    ensures multiset(s[1..]) <= multiset(s)
  {
    assert s == [s[0]] + s[1..] && t == [t[0]] + t[1..];
    assert multiset(s) == multiset{s[0]} + multiset(s[1..]);
    assert multiset(t) == multiset{t[0]} + multiset(t[1..]);
    assert multiset(s[1..]) == multiset(s) - multiset{s[0]};
    assert multiset(t[1..]) == multiset(t) - multiset{t[0]};
  }

  lemma HeadsAgree<T>(s: seq<T>, t: seq<T>, key: T -> string)
    requires SortedBy(s, key) && SortedBy(t, key) && |s| > 0 && |t| > 0
    requires multiset(s) == multiset(t)
    requires KeyDeterminesElement(multiset(s), key)
    ensures s[0] == t[0]
  {
    assert s[0] in multiset(s) && t[0] in multiset(t);
    HeadIsLeast(t, key, s[0]);
    HeadIsLeast(s, key, t[0]);
    StrLeAntisymmetric(key(s[0]), key(t[0]));
  }

  /** Two ordered permutations of the same values are the same sequence. */
  lemma {:induction false} SortedPermutationUnique<T>(s: seq<T>, t: seq<T>, key: T -> string)
    requires SortedBy(s, key) && SortedBy(t, key)
    requires multiset(s) == multiset(t)
    requires KeyDeterminesElement(multiset(s), key)
    ensures s == t
    decreases |s|
  {
    assert |s| == |multiset(s)| == |t|;
    if |s| > 0 {
      HeadsAgree(s, t, key);
      TailMultiset(s, t);
      SortedTail(s, key);
      SortedTail(t, key);
      KeyDeterminesElementOfPart(multiset(s), multiset(s[1..]), key);
      SortedPermutationUnique(s[1..], t[1..], key);
      assert s == [s[0]] + s[1..];
      assert t == [t[0]] + t[1..];
    }
  }

  lemma KeyDeterminesElementOfPart<T>(m: multiset<T>, n: multiset<T>, key: T -> string)
    requires n <= m && KeyDeterminesElement(m, key)
    ensures KeyDeterminesElement(n, key)
  {
  }

  /** Sorting forgets the order of its input: permuted inputs sort to the same sequence. */
  lemma SortByIgnoresOrder<T>(s: seq<T>, t: seq<T>, key: T -> string)
    requires multiset(s) == multiset(t)
    requires KeyDeterminesElement(multiset(s), key)
    ensures SortBy(s, key) == SortBy(t, key)
  {
    SortByCorrect(s, key);
    SortByCorrect(t, key);
    SortedPermutationUnique(SortBy(s, key), SortBy(t, key), key);
  }
}
