/**
 * Sequence operations shared by the in-memory stores: order-preserving
 * filtering, prefixes, the id-keyed table helpers (lookup, append, removal,
 * fresh ids) and the stable descending sort used by the download queries.
 */
module Seqs {

  /** `a` is `b` with some elements left out; what is kept keeps its order. */
  ghost predicate Subseq<T>(a: seq<T>, b: seq<T>)
    decreases |b|
  {
    if a == [] then true
    else if b == [] then false
    else (a[0] == b[0] && Subseq(a[1..], b[1..])) || Subseq(a, b[1..])
  }

  /** A prefix of a subsequence is a subsequence. */
  lemma {:induction false} SubseqOfPrefix<T>(c: seq<T>, a: seq<T>, b: seq<T>)
    requires c <= a && Subseq(a, b)
    ensures Subseq(c, b)
    decreases |b|
  {
    if c != [] {
      assert a != [] && b != [];
      if a[0] == b[0] && Subseq(a[1..], b[1..]) {
        SubseqOfPrefix(c[1..], a[1..], b[1..]);
      } else {
        SubseqOfPrefix(c, a, b[1..]);
      }
    }
  }

  /** Every element of a subsequence is an element of the sequence it was taken from. */
  lemma {:induction false} SubseqMembers<T>(a: seq<T>, b: seq<T>)
    requires Subseq(a, b)
    ensures forall i :: 0 <= i < |a| ==> a[i] in b
    decreases |b|
  {
    if a != [] {
      if a[0] == b[0] && Subseq(a[1..], b[1..]) {
        SubseqMembers(a[1..], b[1..]);
        forall i | 0 <= i < |a| ensures a[i] in b {
          if i > 0 {
            assert a[i] == a[1..][i - 1];
          }
        }
      } else {
        SubseqMembers(a, b[1..]);
      }
    }
  }

  /** `Array.prototype.filter`: the elements satisfying `p`, in their original order. */
  function Filter<T(!new)>(s: seq<T>, p: T -> bool): (r: seq<T>)
    ensures Subseq(r, s)
    ensures forall x :: x in r <==> x in s && p(x)
  {
    if s == [] then []
    else
      var rest := Filter(s[1..], p);
      assert s == [s[0]] + s[1..];
      if p(s[0]) then [s[0]] + rest else rest
  }

  lemma {:induction false} FilterConcat<T(!new)>(a: seq<T>, b: seq<T>, p: T -> bool)
    ensures Filter(a + b, p) == Filter(a, p) + Filter(b, p)
  {
    if a != [] {
      var ab := a + b;
      assert ab != [] && ab[0] == a[0] && ab[1..] == a[1..] + b;
      FilterConcat(a[1..], b, p);
      if p(a[0]) {
        assert Filter(ab, p) == [a[0]] + Filter(a[1..] + b, p);
        assert Filter(a, p) == [a[0]] + Filter(a[1..], p);
      } else {
        assert Filter(ab, p) == Filter(a[1..] + b, p);
        assert Filter(a, p) == Filter(a[1..], p);
      }
    } else {
      assert a + b == b;
    }
  }

  /** The filter keeps every copy of an element satisfying `p` and no copy of any other. */
  lemma {:induction false} FilterCounts<T(!new)>(s: seq<T>, p: T -> bool)
    ensures forall x :: multiset(Filter(s, p))[x] == if p(x) then multiset(s)[x] else 0
  {
    if s != [] {
      FilterCounts(s[1..], p);
      assert s == [s[0]] + s[1..];
    }
  }

  lemma {:induction false} FilterKeepsAll<T(!new)>(s: seq<T>, p: T -> bool)
    requires forall i :: 0 <= i < |s| ==> p(s[i])
    ensures Filter(s, p) == s
  {
    if s != [] {
      FilterKeepsAll(s[1..], p);
    }
  }

  /** `slice(0, n)`: the first `n` elements, or all of them when there are fewer. */
  function Take<T>(s: seq<T>, n: nat): (r: seq<T>)
    ensures |r| == if |s| < n then |s| else n
    ensures r <= s
  {
    if |s| <= n then s else s[..n]
  }

  /** `splice(i, 1)`: the sequence without its `i`-th element. */
  function RemoveAt<T>(s: seq<T>, i: nat): (r: seq<T>)
    requires i < |s|
    ensures |r| == |s| - 1
    ensures forall k :: 0 <= k < i ==> r[k] == s[k]
    ensures forall k :: i <= k < |r| ==> r[k] == s[k + 1]
  {
    s[..i] + s[i + 1..]
  }

  // ---------------------------------------------------------------- id-keyed tables

  /** `items.map(x => x.Id)`. */
  function Ids<T>(items: seq<T>, idOf: T -> int): (r: seq<int>)
    ensures |r| == |items|
    ensures forall i :: 0 <= i < |items| ==> r[i] == idOf(items[i])
  {
    seq(|items|, i requires 0 <= i < |items| => idOf(items[i]))
  }

  lemma IdsConcat<T>(a: seq<T>, b: seq<T>, idOf: T -> int)
    ensures Ids(a + b, idOf) == Ids(a, idOf) + Ids(b, idOf)
  {
  }

  /** Some element carries the id (`items.find(x => x.Id === id)` is truthy). */
  predicate HasId<T>(items: seq<T>, id: int, idOf: T -> int)
  {
    exists i :: 0 <= i < |items| && idOf(items[i]) == id
  }

  /** `findIndex`: the first position whose id matches, or -1. */
  function IndexOfId<T>(items: seq<T>, id: int, idOf: T -> int): (r: int)
    ensures -1 <= r < |items|
    ensures r == -1 <==> !HasId(items, id, idOf)
    ensures 0 <= r ==> idOf(items[r]) == id
    ensures 0 <= r ==> forall i :: 0 <= i < r ==> idOf(items[i]) != id
  {
    if items == [] then -1
    else if idOf(items[0]) == id then 0
    else
      var k := IndexOfId(items[1..], id, idOf);
      if k == -1 then -1 else k + 1
  }

  /** Appends `x` unless an element with the same id is already present. */
  function AppendIfNewId<T>(items: seq<T>, x: T, idOf: T -> int): (r: seq<T>)
    ensures HasId(r, idOf(x), idOf)
    ensures HasId(items, idOf(x), idOf) ==> r == items
    ensures !HasId(items, idOf(x), idOf) ==> r == items + [x]
  {
    if HasId(items, idOf(x), idOf) then items
    else
      assert (items + [x])[|items|] == x;
      items + [x]
  }

  lemma AppendIfNewIdIdempotent<T>(items: seq<T>, x: T, idOf: T -> int)
    ensures AppendIfNewId(AppendIfNewId(items, x, idOf), x, idOf) == AppendIfNewId(items, x, idOf)
  {
  }

  /** `items.filter(x => x.Id !== id)`. */
  function RemoveId<T(!new)>(items: seq<T>, id: int, idOf: T -> int): (r: seq<T>)
    ensures !HasId(r, id, idOf)
    ensures Subseq(r, items)
    ensures forall x :: multiset(r)[x] == if idOf(x) != id then multiset(items)[x] else 0
  {
    var r := Filter(items, x => idOf(x) != id);
    FilterCounts(items, x => idOf(x) != id);
    assert forall i :: 0 <= i < |r| ==> r[i] in r;
    r
  }

  /** How many elements carry the id. */
  function CountId<T>(items: seq<T>, id: int, idOf: T -> int): (n: nat)
    ensures n <= |items|
    ensures n == 0 <==> !HasId(items, id, idOf)
  {
    if items == [] then 0
    else
      var rest := CountId(items[1..], id, idOf);
      assert forall i :: 0 < i < |items| ==> items[i] == items[1..][i - 1];
      (if idOf(items[0]) == id then 1 else 0) + rest
  }

  /** Removing an id drops exactly the elements that carry it. */
  lemma {:induction false} RemoveIdLength<T(!new)>(items: seq<T>, id: int, idOf: T -> int)
    ensures |RemoveId(items, id, idOf)| == |items| - CountId(items, id, idOf)
  {
    if items != [] {
      RemoveIdLength(items[1..], id, idOf);
      assert items == [items[0]] + items[1..];
    }
  }

  /** No two elements share an id. */
  ghost predicate UniqueIds<T>(items: seq<T>, idOf: T -> int)
  {
    forall i, j :: 0 <= i < j < |items| ==> idOf(items[i]) != idOf(items[j])
  }

  /** The largest id of a non-empty table (`Math.max(...ids)`). */
  function MaxId<T>(items: seq<T>, idOf: T -> int): (m: int)
    requires |items| > 0
    ensures forall i :: 0 <= i < |items| ==> idOf(items[i]) <= m
    ensures HasId(items, m, idOf)
  {
    if |items| == 1 then idOf(items[0])
    else
      var m := MaxId(items[1..], idOf);
      if idOf(items[0]) > m then idOf(items[0]) else m
  }

  /** A number extended with minus infinity, the value of `Math.max()` with no arguments. */
  datatype ExtendedInt = NegativeInfinity | Finite(n: int)

  /**
   * The id `create` computes, `Math.max(...ids) + 1`, as written: on an empty
   * table `Math.max()` is -Infinity and so is the new id.
   */
  function NextIdAsWritten<T>(items: seq<T>, idOf: T -> int): (r: ExtendedInt)
    ensures r.Finite? <==> |items| > 0
    ensures r.Finite? ==> forall i :: 0 <= i < |items| ==> idOf(items[i]) < r.n
  {
    if |items| == 0 then NegativeInfinity else Finite(MaxId(items, idOf) + 1)
  }

  /** The id `create` assigns: one more than the largest id, or 1 on an empty table. */
  function NextId<T>(items: seq<T>, idOf: T -> int): (r: int)
    ensures forall i :: 0 <= i < |items| ==> idOf(items[i]) < r
    ensures |items| > 0 ==> NextIdAsWritten(items, idOf) == Finite(r)
    ensures |items| == 0 ==> r == 1
  {
    if |items| == 0 then 1 else MaxId(items, idOf) + 1
  }

  lemma AppendNextIdKeepsUnique<T>(items: seq<T>, x: T, idOf: T -> int)
    requires UniqueIds(items, idOf)
    requires idOf(x) == NextId(items, idOf)
    ensures UniqueIds(items + [x], idOf)
  {
  }

  lemma RemoveAtMultiset<T>(s: seq<T>, i: nat)
    requires i < |s|
    ensures multiset(RemoveAt(s, i)) == multiset(s) - multiset{s[i]}
  {
    assert s == s[..i] + [s[i]] + s[i + 1..];
  }

  lemma RemoveAtKeepsUnique<T>(items: seq<T>, i: nat, idOf: T -> int)
    requires i < |items| && UniqueIds(items, idOf)
    ensures UniqueIds(RemoveAt(items, i), idOf)
  {
  }

  // ---------------------------------------------------------------- sorting

  /** Non-increasing by `key`, the order `sort((a, b) => key(b) - key(a))` produces. */
  ghost predicate SortedDesc<T>(s: seq<T>, key: T -> int)
  {
    forall i, j :: 0 <= i < j < |s| ==> key(s[i]) >= key(s[j])
  }

  /** Inserts `x` after every element whose key is at least `key(x)`. */
  function InsertDesc<T>(x: T, s: seq<T>, key: T -> int): (r: seq<T>)
    ensures |r| == |s| + 1
    ensures multiset(r) == multiset(s) + multiset{x}
  {
    if s == [] then [x]
    else if key(s[0]) >= key(x) then
      var rest := InsertDesc(x, s[1..], key);
      assert s == [s[0]] + s[1..];
      [s[0]] + rest
    else
      [x] + s
  }

  /** An element at least as high as every element of a sorted sequence can go in front of it. */
  lemma ConsSorted<T>(h: T, t: seq<T>, key: T -> int)
    requires SortedDesc(t, key)
    requires forall i :: 0 <= i < |t| ==> key(h) >= key(t[i])
    ensures SortedDesc([h] + t, key)
  {
    var r := [h] + t;
    forall i, j | 0 <= i < j < |r| ensures key(r[i]) >= key(r[j]) {
      assert r[j] == t[j - 1];
      if i > 0 {
        assert r[i] == t[i - 1];
      }
    }
  }

  /** Leaving elements out of a sorted sequence keeps it sorted. */
  lemma {:induction false} SubseqSorted<T>(a: seq<T>, b: seq<T>, key: T -> int)
    requires Subseq(a, b) && SortedDesc(b, key)
    ensures SortedDesc(a, key)
    decreases |b|
  {
    if a != [] {
      var tail := b[1..];
      assert SortedDesc(tail, key) by {
        forall i, j | 0 <= i < j < |tail| ensures key(tail[i]) >= key(tail[j]) {
          assert tail[i] == b[i + 1] && tail[j] == b[j + 1];
        }
      }
      if a[0] == b[0] && Subseq(a[1..], tail) {
        SubseqSorted(a[1..], tail, key);
        SubseqMembers(a[1..], tail);
        forall i | 0 <= i < |a[1..]| ensures key(a[0]) >= key(a[1..][i]) {
          var k :| 0 <= k < |tail| && tail[k] == a[1..][i];
          assert tail[k] == b[k + 1];
        }
        ConsSorted(a[0], a[1..], key);
        assert a == [a[0]] + a[1..];
      } else {
        SubseqSorted(a, tail, key);
      }
    }
  }

  /** Inserting into a sorted sequence keeps it sorted. */
  lemma {:induction false} InsertDescSorted<T>(x: T, s: seq<T>, key: T -> int)
    requires SortedDesc(s, key)
    ensures SortedDesc(InsertDesc(x, s, key), key)
  {
    if s == [] {
    } else if key(s[0]) >= key(x) {
      var tail := s[1..];
      assert SortedDesc(tail, key) by {
        forall i, j | 0 <= i < j < |tail| ensures key(tail[i]) >= key(tail[j]) {
          assert tail[i] == s[i + 1] && tail[j] == s[j + 1];
        }
      }
      InsertDescSorted(x, tail, key);
      var rest := InsertDesc(x, tail, key);
      forall i | 0 <= i < |rest| ensures key(s[0]) >= key(rest[i]) {
        assert rest[i] in multiset(rest);
        if rest[i] != x {
          assert rest[i] in multiset(tail);
          var k :| 0 <= k < |tail| && tail[k] == rest[i];
          assert tail[k] == s[k + 1];
        }
      }
      ConsSorted(s[0], rest, key);
    } else {
      assert forall i :: 0 <= i < |s| ==> key(s[0]) >= key(s[i]);
      ConsSorted(x, s, key);
    }
  }

  /**
   * A stable sort into non-increasing key order (ECMAScript's `Array.prototype.sort`
   * is stable): elements are inserted left to right, each after its equals.
   */
  function SortDesc<T(!new)>(s: seq<T>, key: T -> int): (r: seq<T>)
    ensures |r| == |s|
    ensures multiset(r) == multiset(s)
    ensures SortedDesc(r, key)
  {
    if s == [] then []
    else
      var n := |s| - 1;
      assert s == s[..n] + [s[n]];
      InsertDescSorted(s[n], SortDesc(s[..n], key), key);
      InsertDesc(s[n], SortDesc(s[..n], key), key)
  }

  /** A prefix of a sorted sequence is sorted, and nothing after it has a higher key. */
  lemma SortedPrefix<T>(sorted: seq<T>, r: seq<T>, key: T -> int)
    requires r <= sorted && SortedDesc(sorted, key)
    ensures SortedDesc(r, key)
    ensures multiset(r) <= multiset(sorted)
    ensures forall x :: x in sorted && x !in r ==> forall i :: 0 <= i < |r| ==> key(r[i]) >= key(x)
  {
    assert sorted == r + sorted[|r|..];
    forall x | x in sorted && x !in r
      ensures forall i :: 0 <= i < |r| ==> key(r[i]) >= key(x)
    {
      var k :| 0 <= k < |sorted| && sorted[k] == x;
    }
  }

  /** The top-`n` facts for any sorted prefix of a permutation of the kept elements. */
  lemma TopFacts<T>(s: seq<T>, p: T -> bool, key: T -> int, f: seq<T>, sorted: seq<T>, r: seq<T>)
    requires multiset(f) <= multiset(s)
    requires forall x :: x in f <==> x in s && p(x)
    requires multiset(sorted) == multiset(f) && SortedDesc(sorted, key) && r <= sorted
    ensures forall i :: 0 <= i < |r| ==> p(r[i])
    ensures SortedDesc(r, key)
    ensures multiset(r) <= multiset(s)
    ensures forall x :: x in s && p(x) && x !in r ==> forall i :: 0 <= i < |r| ==> key(r[i]) >= key(x)
  {
    SortedPrefix(sorted, r, key);
    forall i | 0 <= i < |r| ensures p(r[i]) {
      assert r[i] == sorted[i];
      assert r[i] in multiset(sorted);
    }
    forall x | x in s && p(x) ensures x in sorted {
      assert x in multiset(f);
    }
  }

  /**
   * `filter(p).sort(by key, descending).slice(0, n)`: at most `n` elements
   * satisfying `p`, highest key first, and no element left out of the result
   * has a higher key than one kept.
   */
  function TopBy<T(!new)>(s: seq<T>, p: T -> bool, key: T -> int, n: nat): (r: seq<T>)
    ensures |r| == if |Filter(s, p)| < n then |Filter(s, p)| else n
    ensures forall i :: 0 <= i < |r| ==> p(r[i])
    ensures SortedDesc(r, key)
    ensures multiset(r) <= multiset(s)
    ensures forall x :: x in s && p(x) && x !in r ==> forall i :: 0 <= i < |r| ==> key(r[i]) >= key(x)
  {
    var f := Filter(s, p);
    var sorted := SortDesc(f, key);
    FilterCounts(s, p);
    TopFacts(s, p, key, f, sorted, Take(sorted, n));
    Take(sorted, n)
  }
}
