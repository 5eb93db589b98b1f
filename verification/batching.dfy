/** Splitting a work list into chunks (`u_batchify`) and Python's stable
    `sorted(xs, key=len)`. */
module Batching {
  import opened Strings

  predicate NoDup<T(==)>(s: seq<T>) {
    forall i, j :: 0 <= i < j < |s| ==> s[i] != s[j]
  }

  /** `u_batchify(xs, n)`: consecutive chunks of `n` items, the last one possibly shorter.
      Its source is not part of this model; it is given the contract its callers rely on. */
  function Batchify<T>(s: seq<T>, n: nat): (chunks: seq<seq<T>>)
    requires n > 0
    ensures Flatten(chunks) == s
    ensures forall j :: 0 <= j < |chunks| ==> 0 < |chunks[j]| <= n
    decreases |s|
  {
    if |s| == 0 then []
    else if |s| <= n then
      assert [s][1..] == [];
      [s]
    else
      var rest := Batchify(s[n..], n);
      assert ([s[..n]] + rest)[1..] == rest;
      assert s == s[..n] + s[n..];
      [s[..n]] + rest
  }

  /** An item is in the flattened list exactly when it sits in some chunk. */
  lemma {:induction false} FlattenMember<T>(chunks: seq<seq<T>>, x: T)
    ensures x in Flatten(chunks) <==>
            exists j, k :: 0 <= j < |chunks| && 0 <= k < |chunks[j]| && chunks[j][k] == x
  {
    if |chunks| > 0 {
      FlattenMember(chunks[1..], x);
      if x in Flatten(chunks) {
        if x !in chunks[0] {
          var j', k :| 0 <= j' < |chunks[1..]| && 0 <= k < |chunks[1..][j']| && chunks[1..][j'][k] == x;
          assert chunks[j' + 1][k] == x;
        } else {
          var k :| 0 <= k < |chunks[0]| && chunks[0][k] == x;
        }
      } else {
        forall j, k | 0 <= j < |chunks| && 0 <= k < |chunks[j]|
          ensures chunks[j][k] != x
        {
          if j == 0 {
            assert chunks[0][k] in chunks[0];
          } else {
            assert chunks[1..][j - 1][k] == chunks[j][k];
          }
        }
      }
    }
  }

  /** Every chunk item is in the flattened list. */
  lemma FlattenHas<T>(chunks: seq<seq<T>>, j: nat, k: nat)
    requires j < |chunks| && k < |chunks[j]|
    ensures chunks[j][k] in Flatten(chunks)
  {
    FlattenMember(chunks, chunks[j][k]);
  }

  lemma NoDupSplit<T>(a: seq<T>, b: seq<T>)
    requires NoDup(a + b)
    ensures NoDup(a) && NoDup(b)
    ensures forall x :: x in a ==> x !in b
  {
    forall i, j | 0 <= i < j < |a|
      ensures a[i] != a[j]
    {
      assert (a + b)[i] == a[i] && (a + b)[j] == a[j];
    }
    forall i, j | 0 <= i < j < |b|
      ensures b[i] != b[j]
    {
      assert (a + b)[|a| + i] == b[i] && (a + b)[|a| + j] == b[j];
    }
    forall i, j | 0 <= i < |a| && 0 <= j < |b|
      ensures a[i] != b[j]
    {
      assert (a + b)[i] == a[i] && (a + b)[|a| + j] == b[j];
    }
  }

  /** In a duplicate-free flattened list, an item sits at exactly one chunk position. */
  lemma {:induction false} FlattenUniquePosition<T>(chunks: seq<seq<T>>, j: nat, k: nat, j': nat, k': nat)
    requires NoDup(Flatten(chunks))
    requires j < |chunks| && k < |chunks[j]|
    requires j' < |chunks| && k' < |chunks[j']|
    requires chunks[j][k] == chunks[j'][k']
    ensures j == j' && k == k'
  {
    NoDupSplit(chunks[0], Flatten(chunks[1..]));
    if j == 0 && j' == 0 {
    } else if j == 0 {
      assert chunks[1..][j' - 1][k'] == chunks[j'][k'];
      assert chunks[0][k] in chunks[0];
      FlattenHas(chunks[1..], j' - 1, k');
      assert false;
    } else if j' == 0 {
      assert chunks[1..][j - 1][k] == chunks[j][k];
      assert chunks[0][k'] in chunks[0];
      FlattenHas(chunks[1..], j - 1, k);
      assert false;
    } else {
      assert chunks[1..][j - 1][k] == chunks[j][k];
      assert chunks[1..][j' - 1][k'] == chunks[j'][k'];
      FlattenUniquePosition(chunks[1..], j - 1, k, j' - 1, k');
    }
  }

  /** A duplicate-free list counts every item at most once. */
  lemma {:induction false} NoDupCount<T>(s: seq<T>, x: T)
    requires NoDup(s)
    ensures multiset(s)[x] <= 1
  {
    if |s| > 0 {
      assert s == [s[0]] + s[1..];
      NoDupSplit([s[0]], s[1..]);
      NoDupCount(s[1..], x);
      if x == s[0] {
        assert x !in multiset(s[1..]);
      }
    }
  }

  /** Two equal items count twice. */
  lemma PairCount<T>(s: seq<T>, i: nat, j: nat)
    requires i < j < |s| && s[i] == s[j]
    ensures multiset(s)[s[i]] >= 2
  {
    assert s == s[..j] + s[j..];
    assert s[i] == s[..j][i];
    assert s[j] == s[j..][0];
  }

  /** Reordering keeps a list free of duplicates. */
  lemma NoDupPerm<T>(a: seq<T>, b: seq<T>)
    requires multiset(a) == multiset(b)
    requires NoDup(a)
    ensures NoDup(b)
  {
    forall i, j | 0 <= i < j < |b|
      ensures b[i] != b[j]
    {
      NoDupCount(a, b[i]);
      if b[i] == b[j] {
        PairCount(b, i, j);
      }
    }
  }

  /** Number of items over all chunks. */
  function TotalLen<T>(chunks: seq<seq<T>>): nat
  {
    if |chunks| == 0 then 0 else |chunks[0]| + TotalLen(chunks[1..])
  }

  lemma {:induction false} FlattenLength<T>(chunks: seq<seq<T>>)
    ensures |Flatten(chunks)| == TotalLen(chunks)
  {
    if |chunks| > 0 {
      FlattenLength(chunks[1..]);
    }
  }

  lemma TotalLenPrefix<T>(chunks: seq<seq<T>>, j: nat)
    requires 0 < j <= |chunks|
    ensures TotalLen(chunks[..j]) == |chunks[0]| + TotalLen(chunks[1..][..j - 1])
  {
    assert chunks[..j][0] == chunks[0];
    assert chunks[..j][1..] == chunks[1..][..j - 1];
  }

  /** The chunk `j` and the place `k` in it of item `i` of the flattened list:
      all items of the chunks before `j` come first. */
  function Locate<T>(chunks: seq<seq<T>>, i: nat): (p: (nat, nat))
    requires i < |Flatten(chunks)|
    ensures p.0 < |chunks| && p.1 < |chunks[p.0]|
    ensures TotalLen(chunks[..p.0]) + p.1 == i
    ensures Flatten(chunks)[i] == chunks[p.0][p.1]
  {
    if i < |chunks[0]| then
      assert chunks[..0] == [];
      (0, i)
    else
      var q := Locate(chunks[1..], i - |chunks[0]|);
      TotalLenPrefix(chunks, q.0 + 1);
      assert chunks[q.0 + 1] == chunks[1..][q.0];
      (q.0 + 1, q.1)
  }

  /** Non-empty chunks that flatten to a single item are that one chunk. */
  lemma SingleChunk<T>(chunks: seq<seq<T>>, x: T)
    requires Flatten(chunks) == [x]
    requires forall j :: 0 <= j < |chunks| ==> 0 < |chunks[j]|
    ensures chunks == [[x]]
  {
    assert |chunks| > 0;
    var rest := chunks[1..];
    assert |chunks[0]| + |Flatten(rest)| == 1;
    assert chunks[0] == [x];
    assert chunks == [chunks[0]] + rest;
  }

  predicate SortedByLen(s: seq<string>) {
    forall i, j :: 0 <= i < j < |s| ==> |s[i]| <= |s[j]|
  }

  /** The items of `s` whose length is `n`, in order. */
  function OfLength(s: seq<string>, n: nat): seq<string>
  {
    if |s| == 0 then []
    else (if |s[0]| == n then [s[0]] else []) + OfLength(s[1..], n)
  }

  /** Every item of `s` is at least `lo` long. */
  predicate AtLeast(lo: nat, s: seq<string>) {
    forall i :: 0 <= i < |s| ==> lo <= |s[i]|
  }

  /** A length bound survives any reordering. */
  lemma AtLeastPerm(lo: nat, a: seq<string>, b: seq<string>)
    requires multiset(a) == multiset(b)
    requires AtLeast(lo, a)
    ensures AtLeast(lo, b)
  {
    forall i | 0 <= i < |b|
      ensures lo <= |b[i]|
    {
      assert b[i] in multiset(a);
      var j :| 0 <= j < |a| && a[j] == b[i];
    }
  }

  /** Places `x` in front of the first item at least as long. */
  function InsertByLen(x: string, s: seq<string>): seq<string>
  {
    if |s| == 0 || |x| <= |s[0]| then [x] + s
    else [s[0]] + InsertByLen(x, s[1..])
  }

  /** Inserting adds exactly the one item. */
  lemma {:induction false} InsertByLenPerm(x: string, s: seq<string>)
    ensures multiset(InsertByLen(x, s)) == multiset(s) + multiset{x}
  {
    if |s| > 0 && |x| > |s[0]| {
      InsertByLenPerm(x, s[1..]);
      assert s == [s[0]] + s[1..];
    }
  }

  /** A lower bound on the lengths survives inserting an item that meets it. */
  lemma {:induction false} InsertByLenAtLeast(lo: nat, x: string, s: seq<string>)
    requires lo <= |x| && AtLeast(lo, s)
    ensures AtLeast(lo, InsertByLen(x, s))
  {
    if |s| > 0 && |x| > |s[0]| {
      InsertByLenAtLeast(lo, x, s[1..]);
    }
  }

  /** A sorted list stays sorted under a new first item no longer than any of its items. */
  lemma ConsSorted(h: string, t: seq<string>)
    requires SortedByLen(t) && AtLeast(|h|, t)
    ensures SortedByLen([h] + t)
  {
    var r := [h] + t;
    forall i, j | 0 <= i < j < |r|
      ensures |r[i]| <= |r[j]|
    {
      assert r[j] == t[j - 1];
      if i > 0 {
        assert r[i] == t[i - 1];
      }
    }
  }

  /** Inserting into a sorted list keeps it sorted. */
  lemma {:induction false} InsertByLenSorted(x: string, s: seq<string>)
    requires SortedByLen(s)
    ensures SortedByLen(InsertByLen(x, s))
  {
    if |s| == 0 || |x| <= |s[0]| {
      ConsSorted(x, s);
    } else {
      var t := s[1..];
      InsertByLenSorted(x, t);
      InsertByLenAtLeast(|s[0]|, x, t);
      ConsSorted(s[0], InsertByLen(x, t));
    }
  }

  /** Python's stable `sorted(s, key=len)`. */
  function SortByLen(s: seq<string>): (r: seq<string>)
    ensures SortedByLen(r)
    ensures multiset(r) == multiset(s)
  {
    if |s| == 0 then []
    else
      var t := SortByLen(s[1..]);
      InsertByLenPerm(s[0], t);
      InsertByLenSorted(s[0], t);
      assert s == [s[0]] + s[1..];
      InsertByLen(s[0], t)
  }

  lemma OfLengthCons(h: string, t: seq<string>, n: nat)
    ensures OfLength([h] + t, n) == (if |h| == n then [h] else []) + OfLength(t, n)
  {
    assert ([h] + t)[0] == h && ([h] + t)[1..] == t;
  }

  lemma {:induction false} InsertByLenOfLength(x: string, s: seq<string>, n: nat)
    ensures OfLength(InsertByLen(x, s), n) == if |x| == n then [x] + OfLength(s, n) else OfLength(s, n)
  {
    if |s| == 0 || |x| <= |s[0]| {
      assert InsertByLen(x, s) == [x] + s;
      OfLengthCons(x, s, n);
    } else {
      var rest := InsertByLen(x, s[1..]);
      assert InsertByLen(x, s) == [s[0]] + rest;
      OfLengthCons(s[0], rest, n);
      OfLengthCons(s[0], s[1..], n);
      assert s == [s[0]] + s[1..];
      InsertByLenOfLength(x, s[1..], n);
    }
  }

  /** The sort is stable: the items of each length keep their relative order. */
  lemma {:induction false} SortByLenStable(s: seq<string>, n: nat)
    ensures OfLength(SortByLen(s), n) == OfLength(s, n)
  {
    if |s| > 0 {
      SortByLenStable(s[1..], n);
      InsertByLenOfLength(s[0], SortByLen(s[1..]), n);
    }
  }
}
