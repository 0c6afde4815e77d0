/** Rows tagged with an integer index, as read from XML elements that carry an
    `index` attribute, and the facts shared by the validators that check that
    such indices run 0, 1, ..., n-1. */
module Indexed {

  function Indices<T>(rows: seq<(int, T)>): (s: seq<int>)
    ensures |s| == |rows|
  {
    seq(|rows|, i requires 0 <= i < |rows| => rows[i].0)
  }

  function Payloads<T>(rows: seq<(int, T)>): (s: seq<T>)
    ensures |s| == |rows|
  {
    seq(|rows|, i requires 0 <= i < |rows| => rows[i].1)
  }

  /** 0, 1, ..., n-1. */
  function Range(n: nat): (s: seq<int>)
    ensures |s| == n
  {
    seq(n, i => i)
  }

  predicate Sorted(s: seq<int>)
  {
    forall i, j :: 0 <= i < j < |s| ==> s[i] <= s[j]
  }

  predicate StrictlySorted(s: seq<int>)
  {
    forall i, j :: 0 <= i < j < |s| ==> s[i] < s[j]
  }

  /** The indices, each once, are exactly 0..n-1 in some order. */
  predicate IsIndexPermutation(s: seq<int>)
  {
    multiset(s) == multiset(Range(|s|))
  }

  // ---------------------------------------------------------------------
  // Sorting by index (Python's stable `sorted(rows, key=itemgetter(0))`)

  predicate SortedRows<T>(rows: seq<(int, T)>)
  {
    forall i, j :: 0 <= i < j < |rows| ==> rows[i].0 <= rows[j].0
  }

  predicate AtLeast<T>(rows: seq<(int, T)>, lo: int)
  {
    forall i :: 0 <= i < |rows| ==> lo <= rows[i].0
  }

  /** Insert `r` after every row whose index is not larger. */
  function Insert<T>(r: (int, T), s: seq<(int, T)>): (t: seq<(int, T)>)
    ensures |t| == |s| + 1
  {
    if s == [] then [r]
    else if r.0 < s[0].0 then [r] + s
    else [s[0]] + Insert(r, s[1..])
  }

  lemma {:induction false} InsertKeepsRows<T>(r: (int, T), s: seq<(int, T)>)
    ensures multiset(Insert(r, s)) == multiset(s) + multiset{r}
    decreases |s|
  {
    if s != [] && r.0 >= s[0].0 {
      assert s == [s[0]] + s[1..];
      InsertKeepsRows(r, s[1..]);
    }
  }

  lemma {:induction false} InsertKeepsIndices<T>(r: (int, T), s: seq<(int, T)>)
    ensures multiset(Indices(Insert(r, s))) == multiset(Indices(s)) + multiset{r.0}
    decreases |s|
  {
    if s != [] {
      assert Indices(s) == [s[0].0] + Indices(s[1..]);
      if r.0 < s[0].0 {
        assert Indices([r] + s) == [r.0] + Indices(s);
      } else {
        var rest := Insert(r, s[1..]);
        InsertKeepsIndices(r, s[1..]);
        assert Indices([s[0]] + rest) == [s[0].0] + Indices(rest);
      }
    }
  }

  lemma {:induction false} InsertAtLeast<T>(r: (int, T), s: seq<(int, T)>, lo: int)
    requires AtLeast(s, lo) && lo <= r.0
    ensures AtLeast(Insert(r, s), lo)
    decreases |s|
  {
    if s != [] && r.0 >= s[0].0 {
      InsertAtLeast(r, s[1..], lo);
    }
  }

  lemma {:induction false} InsertKeepsSorted<T>(r: (int, T), s: seq<(int, T)>)
    requires SortedRows(s)
    ensures SortedRows(Insert(r, s))
    decreases |s|
  {
    if s != [] && r.0 >= s[0].0 {
      var rest := Insert(r, s[1..]);
      InsertKeepsSorted(r, s[1..]);
      InsertAtLeast(r, s[1..], s[0].0);
      var t := [s[0]] + rest;
      forall i, j | 0 <= i < j < |t|
        ensures t[i].0 <= t[j].0
      {
        if i > 0 {
          assert t[i] == rest[i - 1] && t[j] == rest[j - 1];
        } else {
          assert t[j] == rest[j - 1];
        }
      }
    }
  }

  function SortByIndex<T>(rows: seq<(int, T)>): (s: seq<(int, T)>)
    ensures |s| == |rows|
  {
    if rows == [] then []
    else Insert(rows[|rows| - 1], SortByIndex(rows[..|rows| - 1]))
  }

  /** Sorting reorders the rows into ascending index order. */
  lemma {:induction false} SortByIndexSorts<T>(rows: seq<(int, T)>)
    ensures multiset(SortByIndex(rows)) == multiset(rows)
    ensures multiset(Indices(SortByIndex(rows))) == multiset(Indices(rows))
    ensures Sorted(Indices(SortByIndex(rows)))
    decreases |rows|
  {
    if rows != [] {
      var init := rows[..|rows| - 1];
      var last := rows[|rows| - 1];
      assert rows == init + [last];
      assert Indices(rows) == Indices(init) + [last.0];
      SortByIndexSorts(init);
      InsertKeepsRows(last, SortByIndex(init));
      InsertKeepsIndices(last, SortByIndex(init));
      SortedRowsIndices(SortByIndex(init));
      InsertKeepsSorted(last, SortByIndex(init));
      SortedRowsIndices(SortByIndex(rows));
    }
  }

  lemma SortedRowsIndices<T>(rows: seq<(int, T)>)
    ensures SortedRows(rows) <==> Sorted(Indices(rows))
  {
    assert forall i :: 0 <= i < |rows| ==> Indices(rows)[i] == rows[i].0;
  }

  // ---------------------------------------------------------------------
  // Facts about sorted index sequences

  lemma SortedTail(s: seq<int>)
    requires Sorted(s) && s != []
    ensures Sorted(s[1..])
  {
    forall i, j | 0 <= i < j < |s| - 1
      ensures s[1..][i] <= s[1..][j]
    {
      assert s[1..][i] == s[i + 1] && s[1..][j] == s[j + 1];
    }
  }

  /** Two sorted sequences holding the same indices are the same sequence. */
  lemma {:induction false} SortedUnique(s: seq<int>, t: seq<int>)
    requires Sorted(s) && Sorted(t)
    requires multiset(s) == multiset(t)
    ensures s == t
    decreases |s|
  {
    assert |s| == |multiset(s)| == |multiset(t)| == |t|;
    if s != [] {
      assert s[0] <= t[0] by {
        assert t[0] in multiset(s);
        var j :| 0 <= j < |s| && s[j] == t[0];
      }
      assert t[0] <= s[0] by {
        assert s[0] in multiset(t);
        var i :| 0 <= i < |t| && t[i] == s[0];
      }
      assert s == [s[0]] + s[1..];
      assert t == [t[0]] + t[1..];
      assert multiset(s[1..]) == multiset(s) - multiset{s[0]};
      assert multiset(t[1..]) == multiset(t) - multiset{t[0]};
      SortedTail(s);
      SortedTail(t);
      SortedUnique(s[1..], t[1..]);
    }
  }

  /** A strictly sorted sequence of integers climbs by at least one per step. */
  lemma {:induction false} StrictClimb(s: seq<int>, i: nat, j: nat)
    requires StrictlySorted(s)
    requires i <= j < |s|
    ensures s[j] - s[i] >= j - i
    decreases j - i
  {
    if i < j {
      StrictClimb(s, i, j - 1);
    }
  }

  /** A strictly sorted sequence starting at 0 or above and ending below its
      length is 0..n-1. */
  lemma PinnedIsRange(s: seq<int>)
    requires StrictlySorted(s)
    requires s != [] ==> 0 <= s[0] && s[|s| - 1] < |s|
    ensures s == Range(|s|)
  {
    forall j | 0 <= j < |s|
      ensures s[j] == j
    {
      StrictClimb(s, 0, j);
      StrictClimb(s, j, |s| - 1);
    }
  }

  lemma RangeStrictlySorted(n: nat)
    ensures StrictlySorted(Range(n))
  {
  }

  /** For sorted entries, no repeat anywhere is no repeat next door. */
  lemma SortedAdjacentDistinct(s: seq<int>)
    requires Sorted(s)
    ensures (forall k :: 0 < k < |s| ==> s[k - 1] != s[k]) <==> Distinct(s)
  {
    if forall k :: 0 < k < |s| ==> s[k - 1] != s[k] {
      AdjacentDistinctStrict(s);
    }
  }

  /** Sorted and adjacent entries differ: strictly sorted. */
  lemma {:induction false} AdjacentDistinctStrict(s: seq<int>)
    requires Sorted(s)
    requires forall k :: 0 < k < |s| ==> s[k - 1] != s[k]
    ensures StrictlySorted(s)
  {
    forall i, j | 0 <= i < j < |s|
      ensures s[i] < s[j]
    {
      assert s[j - 1] < s[j];
      assert s[i] <= s[j - 1];
    }
  }

  /** No entry occurs twice. */
  predicate Distinct(s: seq<int>)
  {
    forall i, j :: 0 <= i < j < |s| ==> s[i] != s[j]
  }

  lemma DistinctSnoc(s: seq<int>, x: int)
    ensures Distinct(s + [x]) <==> Distinct(s) && x !in s
  {
    var t := s + [x];
    assert forall k :: 0 <= k < |s| ==> t[k] == s[k];
    if x in s {
      var i :| 0 <= i < |s| && s[i] == x;
      assert t[i] == t[|s|];
    }
  }

  /** How many distinct entries a sequence has. */
  function DistinctCount(s: seq<int>): nat
  {
    |set x | x in s|
  }

  lemma {:induction false} DistinctCountSnoc(s: seq<int>, x: int)
    ensures (set y | y in s + [x]) == (set y | y in s) + {x}
  {
  }

  lemma {:induction false} DistinctCountBound(s: seq<int>)
    ensures DistinctCount(s) <= |s|
    decreases |s|
  {
    if s != [] {
      var init := s[..|s| - 1];
      assert s == init + [s[|s| - 1]];
      DistinctCountSnoc(init, s[|s| - 1]);
      DistinctCountBound(init);
    }
  }

  /** A sequence has as many distinct entries as it is long exactly when no
      entry repeats. */
  lemma {:induction false} DistinctCountFull(s: seq<int>)
    ensures DistinctCount(s) == |s| <==> Distinct(s)
    decreases |s|
  {
    if s != [] {
      var init := s[..|s| - 1];
      var x := s[|s| - 1];
      assert s == init + [x];
      DistinctCountSnoc(init, x);
      DistinctCountFull(init);
      DistinctCountBound(init);
      DistinctSnoc(init, x);
      if x in init {
        assert (set y | y in init) + {x} == (set y | y in init);
      } else {
        assert x !in (set y | y in init);
      }
    }
  }

  /** Python's `itertools.groupby` over a sequence: the number of runs of
      equal adjacent entries. */
  function Runs(s: seq<int>): (c: nat)
    ensures c <= |s|
  {
    if |s| <= 1 then |s|
    else Runs(s[..|s| - 1]) + (if s[|s| - 2] != s[|s| - 1] then 1 else 0)
  }

  /** There are as many runs as entries exactly when adjacent entries differ. */
  lemma {:induction false} RunsFull(s: seq<int>)
    ensures Runs(s) == |s| <==> forall k :: 0 < k < |s| ==> s[k - 1] != s[k]
    decreases |s|
  {
    if |s| > 1 {
      var init := s[..|s| - 1];
      RunsFull(init);
      assert forall k :: 0 <= k < |init| ==> init[k] == s[k];
    }
  }

  /** For sorted indices: they form a permutation of 0..n-1 exactly when the
      first is not negative, the last is below the length and no index
      repeats. */
  lemma IndexPermutationBounds(s: seq<int>)
    requires Sorted(s) && s != []
    ensures IsIndexPermutation(s) <==> 0 <= s[0] && s[|s| - 1] < |s| && Distinct(s)
  {
    if 0 <= s[0] && s[|s| - 1] < |s| && Distinct(s) {
      assert StrictlySorted(s);
      PinnedIsRange(s);
    }
    if IsIndexPermutation(s) {
      RangeStrictlySorted(|s|);
      SortedUnique(s, Range(|s|));
    }
  }

  /** A permutation of 0..n-1 keeps that property under reordering. */
  lemma PermutationInvariant(s: seq<int>, t: seq<int>)
    requires multiset(s) == multiset(t)
    ensures IsIndexPermutation(s) <==> IsIndexPermutation(t)
  {
    assert |s| == |multiset(s)| == |multiset(t)| == |t|;
  }

  /** Rows sorted by an index permutation sit at their own index, so every
      input row's payload lands at its index. */
  lemma PlacedAtIndex<T>(rows: seq<(int, T)>, sorted: seq<(int, T)>)
    requires multiset(sorted) == multiset(rows)
    requires Indices(sorted) == Range(|sorted|)
    ensures forall k :: 0 <= k < |rows| ==>
              0 <= rows[k].0 < |sorted| && Payloads(sorted)[rows[k].0] == rows[k].1
  {
    forall k | 0 <= k < |rows|
      ensures 0 <= rows[k].0 < |sorted| && Payloads(sorted)[rows[k].0] == rows[k].1
    {
      assert rows[k] in multiset(rows);
      var p :| 0 <= p < |sorted| && sorted[p] == rows[k];
      assert Indices(sorted)[p] == p;
    }
  }

  /** The test both index validators perform after sorting: the rows' indices
      are 0..n-1, each once, exactly when the sorted indices start at 0 or
      above, end below n and do not repeat; every payload then sits at its
      index in the sorted payloads, the sorted indices being 0..n-1. */
  lemma SortedIndexCheck<T>(rows: seq<(int, T)>)
    requires rows != []
    ensures var ix := Indices(SortByIndex(rows));
            IsIndexPermutation(Indices(rows)) <==> 0 <= ix[0] && ix[|ix| - 1] < |ix| && Distinct(ix)
    ensures IsIndexPermutation(Indices(rows)) ==> Indices(SortByIndex(rows)) == Range(|rows|)
    ensures IsIndexPermutation(Indices(rows)) ==>
              forall k :: 0 <= k < |rows| ==>
                0 <= rows[k].0 < |rows| && Payloads(SortByIndex(rows))[rows[k].0] == rows[k].1
  {
    var sorted := SortByIndex(rows);
    var ix := Indices(sorted);
    SortByIndexSorts(rows);
    IndexPermutationBounds(ix);
    PermutationInvariant(ix, Indices(rows));
    if IsIndexPermutation(ix) {
      RangeStrictlySorted(|ix|);
      SortedUnique(ix, Range(|ix|));
      PlacedAtIndex(rows, sorted);
    }
  }
}
