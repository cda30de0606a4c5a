/**
 * Sequence operations the code base takes from the JavaScript array API
 * (`filter`, `map`, `find`, `findIndex`, `slice().reverse()`, `new Set`),
 * with the facts about them the rest of the model relies on.
 */
module Seqs {
  import opened Wrappers
  import opened Types

  /** `filter`: the elements satisfying `p`, in their original order. */
  function Filter<T(!new)>(s: seq<T>, p: T -> bool): (r: seq<T>)
    ensures |r| <= |s|
    ensures forall x :: x in r <==> x in s && p(x)
  {
    if s == [] then [] else (if p(s[0]) then [s[0]] else []) + Filter(s[1..], p)
  }

  /** Filtering distributes over concatenation, so it never reorders. */
  lemma {:induction false} FilterConcat<T(!new)>(a: seq<T>, b: seq<T>, p: T -> bool)
    ensures Filter(a + b, p) == Filter(a, p) + Filter(b, p)
  {
    if a == [] {
      assert a + b == b;
    } else {
      assert (a + b)[0] == a[0];
      assert (a + b)[1..] == a[1..] + b;
      FilterConcat(a[1..], b, p);
    }
  }

  /** A filter that every element passes returns its input. */
  lemma {:induction false} FilterKeepsAll<T(!new)>(s: seq<T>, p: T -> bool)
    requires forall x :: x in s ==> p(x)
    ensures Filter(s, p) == s
  {
    if s != [] {
      FilterKeepsAll(s[1..], p);
    }
  }

  /** A filter that no element passes returns nothing. */
  lemma {:induction false} FilterDropsAll<T(!new)>(s: seq<T>, p: T -> bool)
    requires forall x :: x in s ==> !p(x)
    ensures Filter(s, p) == []
  {
    if s != [] {
      FilterDropsAll(s[1..], p);
    }
  }

  lemma FilterIdempotent<T(!new)>(s: seq<T>, p: T -> bool)
    ensures Filter(Filter(s, p), p) == Filter(s, p)
  {
    FilterKeepsAll(Filter(s, p), p);
  }

  /** `a` is `b` with some of its elements deleted. */
  predicate IsSubsequence<T(==,!new)>(a: seq<T>, b: seq<T>)
    decreases |b|
  {
    a == [] ||
    (b != [] && ((a[0] == b[0] && IsSubsequence(a[1..], b[1..])) || IsSubsequence(a, b[1..])))
  }

  lemma {:induction false} FilterIsSubsequence<T(!new)>(s: seq<T>, p: T -> bool)
    ensures IsSubsequence(Filter(s, p), s)
  {
    if s != [] {
      var r := Filter(s[1..], p);
      FilterIsSubsequence(s[1..], p);
      if p(s[0]) {
        assert Filter(s, p) == [s[0]] + r;
        assert ([s[0]] + r)[1..] == r;
        assert IsSubsequence([s[0]] + r, s);
      } else {
        assert Filter(s, p) == r;
        assert IsSubsequence(r, s);
      }
    }
  }

  /** `map`. */
  function MapSeq<T(!new), U>(s: seq<T>, f: T -> U): (r: seq<U>)
    ensures |r| == |s|
    ensures forall i :: 0 <= i < |s| ==> r[i] == f(s[i])
  {
    if s == [] then [] else [f(s[0])] + MapSeq(s[1..], f)
  }

  /** `slice().reverse()`: a reversed copy. */
  function Reverse<T(!new)>(s: seq<T>): (r: seq<T>)
    ensures |r| == |s|
    ensures forall i :: 0 <= i < |s| ==> r[i] == s[|s| - 1 - i]
  {
    if s == [] then [] else [s[|s| - 1]] + Reverse(s[..|s| - 1])
  }

  lemma ReverseInvolution<T(!new)>(s: seq<T>)
    ensures Reverse(Reverse(s)) == s
  {
  }

  /** Reversing keeps every element and its multiplicity. */
  lemma {:induction false} ReverseMultiset<T(!new)>(s: seq<T>)
    ensures multiset(Reverse(s)) == multiset(s)
  {
    if s != [] {
      var n := |s| - 1;
      ReverseMultiset(s[..n]);
      assert Reverse(s) == [s[n]] + Reverse(s[..n]);
      assert s == s[..n] + [s[n]];
    }
  }

  /** Removing the element at `idx` (`filter((_, i) => i !== idx)`). */
  function RemoveAt<T(!new)>(s: seq<T>, idx: nat): (r: seq<T>)
    ensures idx >= |s| ==> r == s
    ensures idx < |s| ==> |r| == |s| - 1
    ensures idx < |s| ==> forall j :: 0 <= j < |r| ==> r[j] == (if j < idx then s[j] else s[j + 1])
  {
    if idx < |s| then s[..idx] + s[idx + 1..] else s
  }

  predicate NoDuplicates<T(==,!new)>(s: seq<T>) {
    forall i, j :: 0 <= i < j < |s| ==> s[i] != s[j]
  }

  /** Filtering a duplicate-free sequence leaves it duplicate-free. */
  lemma {:induction false} FilterNoDuplicates<T(!new)>(s: seq<T>, p: T -> bool)
    requires NoDuplicates(s)
    ensures NoDuplicates(Filter(s, p))
  {
    if s != [] {
      assert NoDuplicates(s[1..]) by {
        forall i, j | 0 <= i < j < |s[1..]| ensures s[1..][i] != s[1..][j] {
          assert s[1..][i] == s[i + 1] && s[1..][j] == s[j + 1];
        }
      }
      FilterNoDuplicates(s[1..], p);
      var r := Filter(s[1..], p);
      if p(s[0]) {
        assert s[0] !in s[1..] by {
          forall j | 0 <= j < |s[1..]| ensures s[1..][j] != s[0] {
            assert s[1..][j] == s[j + 1];
          }
        }
        assert s[0] !in r;
        forall i, j | 0 <= i < j < |[s[0]] + r| ensures ([s[0]] + r)[i] != ([s[0]] + r)[j] {
          if i == 0 {
            assert ([s[0]] + r)[j] == r[j - 1] && r[j - 1] in r;
          } else {
            assert ([s[0]] + r)[i] == r[i - 1] && ([s[0]] + r)[j] == r[j - 1];
          }
        }
      }
    }
  }

  /** Appending a new element keeps a duplicate-free sequence duplicate-free. */
  lemma AppendNoDuplicates<T(!new)>(s: seq<T>, x: T)
    requires NoDuplicates(s) && x !in s
    ensures NoDuplicates(s + [x])
  {
    forall i, j | 0 <= i < j < |s + [x]|
      ensures (s + [x])[i] != (s + [x])[j]
    {
      if j == |s| {
        assert s[i] in s;
      }
    }
  }

  /** Index of the first occurrence of `x`, or `|s|` when it is absent. */
  function FirstIndex<T(==,!new)>(s: seq<T>, x: T): (k: nat)
    ensures k <= |s|
    ensures k < |s| <==> x in s
    ensures k < |s| ==> s[k] == x
    ensures forall j :: 0 <= j < k ==> s[j] != x
  {
    if s == [] then 0 else if s[0] == x then 0 else 1 + FirstIndex(s[1..], x)
  }

  lemma FirstIndexAppend<T(!new)>(s: seq<T>, x: T, y: T)
    requires y in s
    ensures FirstIndex(s + [x], y) == FirstIndex(s, y)
  {
    assert forall j :: 0 <= j < |s| ==> (s + [x])[j] == s[j];
  }

  /**
   * `Array.from(new Set(s))`: each distinct element once, in the order of
   * its first occurrence.
   */
  function Dedup<T(==,!new)>(s: seq<T>): (r: seq<T>)
    ensures NoDuplicates(r)
    ensures forall x :: x in r <==> x in s
    ensures forall i, j :: 0 <= i < j < |r| ==> FirstIndex(s, r[i]) < FirstIndex(s, r[j])
  {
    if s == [] then []
    else
      var n := |s| - 1;
      var r := Dedup(s[..n]);
      assert forall y :: y in s <==> y in s[..n] || y == s[n] by {
        assert s == s[..n] + [s[n]];
      }
      assert s == s[..n] + [s[n]];
      forall y | y in s[..n] ensures FirstIndex(s, y) == FirstIndex(s[..n], y) {
        FirstIndexAppend(s[..n], s[n], y);
      }
      if s[n] in r then r
      else
        AppendNoDuplicates(r, s[n]);
        assert FirstIndex(s, s[n]) == n;
        r + [s[n]]
  }

  // Operations on collections of stored records, keyed by their ids.

  function IdsOf<T(!new)>(s: seq<Stored<T>>): (r: seq<Id>)
    ensures |r| == |s|
    ensures forall i :: 0 <= i < |s| ==> r[i] == s[i].id
  {
    MapSeq(s, (x: Stored<T>) => x.id)
  }

  /** The ids a collection holds. */
  ghost function IdSet<T(!new)>(s: seq<Stored<T>>): set<Id> {
    set x | x in s :: x.id
  }

  lemma IdSetConcat<T(!new)>(a: seq<Stored<T>>, b: seq<Stored<T>>)
    ensures IdSet(a + b) == IdSet(a) + IdSet(b)
  {
    assert forall x :: x in a + b <==> x in a || x in b;
  }

  /** No two records of the collection share an id. */
  predicate UniqueIds<T(!new)>(s: seq<Stored<T>>) {
    forall i, j :: 0 <= i < j < |s| ==> s[i].id != s[j].id
  }

  /** Appending a record whose id is new keeps the ids unique. */
  lemma UniqueAppend<T(!new)>(s: seq<Stored<T>>, x: Stored<T>)
    requires UniqueIds(s) && x.id !in IdSet(s)
    ensures UniqueIds(s + [x])
  {
    forall i, j | 0 <= i < j < |s + [x]|
      ensures (s + [x])[i].id != (s + [x])[j].id
    {
      if j == |s| {
        assert s[i] in s;
      }
    }
  }

  /** Two collections hold unique ids together iff each does and they share none. */
  lemma UniqueConcat<T(!new)>(a: seq<Stored<T>>, b: seq<Stored<T>>)
    ensures UniqueIds(a + b) <==> UniqueIds(a) && UniqueIds(b) && IdSet(a) !! IdSet(b)
  {
    var c := a + b;
    if UniqueIds(c) {
      forall i, j | 0 <= i < j < |a| ensures a[i].id != a[j].id {
        assert c[i] == a[i] && c[j] == a[j];
      }
      forall i, j | 0 <= i < j < |b| ensures b[i].id != b[j].id {
        assert c[|a| + i] == b[i] && c[|a| + j] == b[j];
      }
      forall id | id in IdSet(a) ensures id !in IdSet(b) {
        var x :| x in a && x.id == id;
        var i :| 0 <= i < |a| && a[i] == x;
        forall j | 0 <= j < |b| ensures b[j].id != id {
          assert c[i] == a[i] && c[|a| + j] == b[j];
        }
      }
    }
    if UniqueIds(a) && UniqueIds(b) && IdSet(a) !! IdSet(b) {
      forall i, j | 0 <= i < j < |c| ensures c[i].id != c[j].id {
        if j < |a| {
          assert c[i] == a[i] && c[j] == a[j];
        } else if |a| <= i {
          assert c[i] == b[i - |a|] && c[j] == b[j - |a|];
        } else {
          assert c[i] == a[i] && c[j] == b[j - |a|];
          assert a[i] in a && b[j - |a|] in b;
          assert a[i].id in IdSet(a) && b[j - |a|].id in IdSet(b);
        }
      }
    }
  }

  /** `findIndex(r => r.id === id)`: the first position holding `id`, or -1. */
  function IndexOfId<T(!new)>(s: seq<Stored<T>>, id: Id): (r: int)
    ensures -1 <= r < |s|
    ensures r >= 0 ==> s[r].id == id && forall j :: 0 <= j < r ==> s[j].id != id
    ensures r < 0 <==> id !in IdSet(s)
  {
    if s == [] then -1
    else if s[0].id == id then 0
    else
      var k := IndexOfId(s[1..], id);
      assert forall x :: x in s <==> x == s[0] || x in s[1..];
      if k < 0 then -1 else k + 1
  }

  /** `find(r => r.id === id)`. */
  function FindById<T(!new)>(s: seq<Stored<T>>, id: Id): (r: Option<Stored<T>>)
    ensures r.None? <==> id !in IdSet(s)
    ensures r.Some? ==> r.value in s && r.value.id == id
    ensures r.Some? ==> r.value == s[IndexOfId(s, id)]
  {
    var k := IndexOfId(s, id);
    if k < 0 then None else Some(s[k])
  }

  /** `filter(r => !ids.includes(r.id))`. */
  function Without<T(!new)>(s: seq<Stored<T>>, ids: seq<Id>): (r: seq<Stored<T>>)
    ensures forall x :: x in r <==> x in s && x.id !in ids
  {
    Filter(s, (x: Stored<T>) => x.id !in ids)
  }

  lemma WithoutConcat<T(!new)>(a: seq<Stored<T>>, b: seq<Stored<T>>, ids: seq<Id>)
    ensures Without(a + b, ids) == Without(a, ids) + Without(b, ids)
  {
    FilterConcat(a, b, (x: Stored<T>) => x.id !in ids);
  }

  /** Ids that occur in no record are ignored. */
  lemma WithoutAbsent<T(!new)>(s: seq<Stored<T>>, ids: seq<Id>)
    requires forall x :: x in s ==> x.id !in ids
    ensures Without(s, ids) == s
  {
    FilterKeepsAll(s, (x: Stored<T>) => x.id !in ids);
  }

  lemma WithoutIdempotent<T(!new)>(s: seq<Stored<T>>, ids: seq<Id>)
    ensures Without(Without(s, ids), ids) == Without(s, ids)
  {
    WithoutAbsent(Without(s, ids), ids);
  }

  lemma WithoutIsSubsequence<T(!new)>(s: seq<Stored<T>>, ids: seq<Id>)
    ensures IsSubsequence(Without(s, ids), s)
  {
    FilterIsSubsequence(s, (x: Stored<T>) => x.id !in ids);
  }

  /** Removing an id that no record carries changes nothing. */
  lemma WithoutMissingId<T(!new)>(s: seq<Stored<T>>, id: Id)
    requires forall i :: 0 <= i < |s| ==> s[i].id != id
    ensures Without(s, [id]) == s
  {
    forall x | x in s ensures x.id !in [id] {
      var i :| 0 <= i < |s| && s[i] == x;
    }
    WithoutAbsent(s, [id]);
  }

  /** The tail of a list with unique ids has unique ids. */
  lemma UniqueTail<T(!new)>(s: seq<Stored<T>>)
    requires UniqueIds(s) && s != []
    ensures UniqueIds(s[1..])
  {
    var t := s[1..];
    forall i, j | 0 <= i < j < |t| ensures t[i].id != t[j].id {
      assert t[i] == s[i + 1] && t[j] == s[j + 1];
    }
  }

  /** With unique ids, removing one record's id removes that record alone. */
  lemma {:induction false} WithoutUniqueOne<T(!new)>(s: seq<Stored<T>>, k: int)
    requires UniqueIds(s) && 0 <= k < |s|
    ensures Without(s, [s[k].id]) == s[..k] + s[k + 1..]
  {
    var id := s[k].id;
    var t := s[1..];
    assert Without(s, [id]) == (if s[0].id != id then [s[0]] else []) + Without(t, [id]);
    if k == 0 {
      forall i | 0 <= i < |t| ensures t[i].id != id {
        assert t[i] == s[i + 1];
      }
      WithoutMissingId(t, id);
      assert s[..0] + s[1..] == t;
    } else {
      assert t[k - 1] == s[k];
      UniqueTail(s);
      WithoutUniqueOne(t, k - 1);
      assert s[0].id != id;
      WithoutSplice(s, k, Without(t, [id]));
    }
  }

  lemma WithoutSplice<T>(s: seq<T>, k: int, rest: seq<T>)
    requires 0 < k < |s| && rest == s[1..][..k - 1] + s[1..][k..]
    ensures [s[0]] + rest == s[..k] + s[k + 1..]
  {
    assert [s[0]] + s[1..][..k - 1] == s[..k];
    assert s[1..][k..] == s[k + 1..];
  }

  lemma WithoutOfOwnId<T(!new)>(x: Stored<T>)
    ensures Without([x], [x.id]) == []
  {
    FilterDropsAll([x], (y: Stored<T>) => y.id !in [x.id]);
  }

  /** Removing records keeps the remaining ids unique. */
  lemma WithoutUnique<T(!new)>(s: seq<Stored<T>>, ids: seq<Id>)
    requires UniqueIds(s)
    ensures UniqueIds(Without(s, ids))
  {
    WithoutIsSubsequence(s, ids);
    UniqueSubsequence(Without(s, ids), s);
  }

  lemma {:induction false} UniqueSubsequence<T(!new)>(a: seq<Stored<T>>, b: seq<Stored<T>>)
    requires UniqueIds(b) && IsSubsequence(a, b)
    ensures UniqueIds(a)
    decreases |b|
  {
    if a != [] {
      if a[0] == b[0] && IsSubsequence(a[1..], b[1..]) {
        UniqueSubsequence(a[1..], b[1..]);
        SubsequenceIdSet(a[1..], b[1..]);
        forall j | 0 < j < |a| ensures a[0].id != a[j].id {
          assert a[j] == a[1..][j - 1];
          assert a[j] in b[1..];
          var i :| 0 <= i < |b[1..]| && b[1..][i] == a[j];
          assert b[i + 1].id == a[j].id;
        }
      } else {
        UniqueSubsequence(a, b[1..]);
      }
    }
  }

  lemma {:induction false} SubsequenceIdSet<T(!new)>(a: seq<Stored<T>>, b: seq<Stored<T>>)
    requires IsSubsequence(a, b)
    ensures forall x :: x in a ==> x in b
    decreases |b|
  {
    if a != [] {
      if a[0] == b[0] && IsSubsequence(a[1..], b[1..]) {
        SubsequenceIdSet(a[1..], b[1..]);
        assert forall x :: x in a ==> x == a[0] || x in a[1..];
      } else {
        SubsequenceIdSet(a, b[1..]);
      }
    }
  }
}
