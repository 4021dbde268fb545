/**
 * The local branch of the discovery list (src/pages/Index.tsx, the debounce
 * effect with an empty query): keep the places of the active category, then
 * sort them with a stable insertion sort by distance, rating or entry fee.
 */
module Discovery {
  import opened Types
  import opened Fee
  import opened Seqs

  function Sign(x: real): (r: int)
    ensures r < 0 <==> x < 0.0
    ensures r == 0 <==> x == 0.0
  {
    if x < 0.0 then -1 else if x == 0.0 then 0 else 1
  }

  /**
   * The sign of the comparator passed to `result.sort`: negative puts `a`
   * first. A NaN fee difference counts as a tie (SortCompare in section
   * 23.1.3.30.2 of ECMA-262 turns NaN into +0).
   */
  function Compare(key: SortType, a: Place, b: Place): (r: int)
    ensures -1 <= r <= 1
  {
    match key
    case ByDistance => Sign(a.distance - b.distance)
    case ByRating => Sign(b.rating - a.rating)
    case ByEntryFee => CompareFees(FeeKeyOf(a.entryFee), FeeKeyOf(b.entryFee))
  }

  /** What "`a` may stay before `b`" means for each key. */
  lemma CompareMeaning(key: SortType, a: Place, b: Place)
    ensures key == ByDistance ==> (Compare(key, a, b) <= 0 <==> a.distance <= b.distance)
    ensures key == ByRating ==> (Compare(key, a, b) <= 0 <==> a.rating >= b.rating)
    ensures key == ByEntryFee && FeeKeyOf(a.entryFee).Num? && FeeKeyOf(b.entryFee).Num? ==>
              (Compare(key, a, b) <= 0 <==> FeeKeyOf(a.entryFee).value <= FeeKeyOf(b.entryFee).value)
    ensures key == ByEntryFee && (FeeKeyOf(a.entryFee).NaN? || FeeKeyOf(b.entryFee).NaN?) ==>
              Compare(key, a, b) == 0
  {
  }

  lemma CompareAntisymmetric(key: SortType, a: Place, b: Place)
    ensures Compare(key, a, b) == -Compare(key, b, a)
  {
  }

  /** The comparator is a total preorder on `p`: always for distance and rating, for fees only when the key is a number. */
  predicate Comparable(key: SortType, p: Place) {
    key != ByEntryFee || FeeKeyOf(p.entryFee).Num?
  }

  predicate AllComparable(key: SortType, s: seq<Place>) {
    forall p :: p in s ==> Comparable(key, p)
  }

  lemma CompareTransitive(key: SortType, a: Place, b: Place, c: Place)
    requires Comparable(key, a) && Comparable(key, b) && Comparable(key, c)
    requires Compare(key, a, b) <= 0 && Compare(key, b, c) <= 0
    ensures Compare(key, a, c) <= 0
  {
  }

  /** Every neighbouring pair is in comparator order. */
  predicate AdjacentSorted(key: SortType, s: seq<Place>) {
    forall i :: 0 < i < |s| ==> Compare(key, s[i - 1], s[i]) <= 0
  }

  /** Every pair is in comparator order. */
  predicate Sorted(key: SortType, s: seq<Place>) {
    forall i, j :: 0 <= i < j < |s| ==> Compare(key, s[i], s[j]) <= 0
  }

  /**
   * One step of insertion sort: `x` moves left past every element that
   * compares strictly greater, and stops at the first that does not.
   */
  function Insert(key: SortType, t: seq<Place>, x: Place): (r: seq<Place>)
    ensures |r| == |t| + 1
    ensures r[|r| - 1] == x || (|t| > 0 && r[|r| - 1] == t[|t| - 1])
    decreases |t|
  {
    if |t| == 0 || Compare(key, t[|t| - 1], x) <= 0 then t + [x]
    else Insert(key, t[..|t| - 1], x) + [t[|t| - 1]]
  }

  /** Inserting adds `x` and loses nothing. */
  lemma {:induction false} InsertPermutes(key: SortType, t: seq<Place>, x: Place)
    ensures multiset(Insert(key, t, x)) == multiset(t) + multiset{x}
    decreases |t|
  {
    if |t| > 0 && Compare(key, t[|t| - 1], x) > 0 {
      SplitLast(t);
      InsertPermutes(key, t[..|t| - 1], x);
    }
  }

  /** Insertion sort over the whole list, inserting elements in input order. */
  function InsertionSort(key: SortType, s: seq<Place>): (r: seq<Place>)
    ensures |r| == |s|
  {
    if |s| == 0 then []
    else Insert(key, InsertionSort(key, s[..|s| - 1]), s[|s| - 1])
  }

  /** The sort is a permutation of its input. */
  lemma {:induction false} SortPermutes(key: SortType, s: seq<Place>)
    ensures multiset(InsertionSort(key, s)) == multiset(s)
  {
    if |s| > 0 {
      SplitLast(s);
      SortPermutes(key, s[..|s| - 1]);
      InsertPermutes(key, InsertionSort(key, s[..|s| - 1]), s[|s| - 1]);
    }
  }

  lemma {:induction false} InsertAdjacentSorted(key: SortType, t: seq<Place>, x: Place)
    requires AdjacentSorted(key, t)
    ensures AdjacentSorted(key, Insert(key, t, x))
    decreases |t|
  {
    if |t| > 0 && Compare(key, t[|t| - 1], x) > 0 {
      var t', last := t[..|t| - 1], t[|t| - 1];
      assert AdjacentSorted(key, t') by {
        forall i | 0 < i < |t'|
          ensures Compare(key, t'[i - 1], t'[i]) <= 0
        {
          assert t'[i - 1] == t[i - 1] && t'[i] == t[i];
        }
      }
      InsertAdjacentSorted(key, t', x);
      var r' := Insert(key, t', x);
      var r := r' + [last];
      assert Insert(key, t, x) == r;
      assert Compare(key, r'[|r'| - 1], last) <= 0 by {
        if r'[|r'| - 1] == x {
          CompareAntisymmetric(key, last, x);
        } else {
          assert r'[|r'| - 1] == t[|t| - 2];
        }
      }
      forall i | 0 < i < |r|
        ensures Compare(key, r[i - 1], r[i]) <= 0
      {
        if i < |r'| {
          assert r[i - 1] == r'[i - 1] && r[i] == r'[i];
        }
      }
    }
  }

  /**
   * The output of the sort is ordered between neighbours for every sort key,
   * even when some fee keys are NaN. With NaN and numeric fee keys mixed the
   * comparator is inconsistent and the order an engine produces is not fixed;
   * this is the order of the model's insertion from the right.
   */
  lemma {:induction false} SortAdjacentSorted(key: SortType, s: seq<Place>)
    ensures AdjacentSorted(key, InsertionSort(key, s))
  {
    if |s| > 0 {
      SortAdjacentSorted(key, s[..|s| - 1]);
      InsertAdjacentSorted(key, InsertionSort(key, s[..|s| - 1]), s[|s| - 1]);
    }
  }

  lemma {:induction false} AdjacentToSorted(key: SortType, s: seq<Place>)
    requires AdjacentSorted(key, s) && AllComparable(key, s)
    ensures Sorted(key, s)
    decreases |s|
  {
    if |s| > 1 {
      var s' := s[..|s| - 1];
      assert AdjacentSorted(key, s') by {
        forall i | 0 < i < |s'|
          ensures Compare(key, s'[i - 1], s'[i]) <= 0
        {
          assert s'[i - 1] == s[i - 1] && s'[i] == s[i];
        }
      }
      assert AllComparable(key, s') by {
        forall q | q in s'
          ensures Comparable(key, q)
        {
          assert q in s;
        }
      }
      AdjacentToSorted(key, s');
      var n := |s| - 1;
      forall i, j | 0 <= i < j < |s|
        ensures Compare(key, s[i], s[j]) <= 0
      {
        if j < n {
          assert s[i] == s'[i] && s[j] == s'[j];
        } else if i < n - 1 {
          assert s[i] == s'[i] && s[n - 1] == s'[n - 1];
          assert s[i] in s && s[n - 1] in s && s[n] in s;
          CompareTransitive(key, s[i], s[n - 1], s[n]);
        }
      }
    }
  }

  /** When every key is comparable, the sorted output is ordered between every pair. */
  lemma SortSorted(key: SortType, s: seq<Place>)
    requires AllComparable(key, s)
    ensures Sorted(key, InsertionSort(key, s))
  {
    var r := InsertionSort(key, s);
    SortAdjacentSorted(key, s);
    SortPermutes(key, s);
    assert forall p :: p in r ==> p in multiset(s);
    AdjacentToSorted(key, r);
  }

  /** Sorting a list that is already ordered between neighbours changes nothing. */
  lemma {:induction false} SortIdentityOnSorted(key: SortType, s: seq<Place>)
    requires AdjacentSorted(key, s)
    ensures InsertionSort(key, s) == s
  {
    if |s| > 0 {
      var s', x := s[..|s| - 1], s[|s| - 1];
      assert AdjacentSorted(key, s') by {
        forall i | 0 < i < |s'|
          ensures Compare(key, s'[i - 1], s'[i]) <= 0
        {
          assert s'[i - 1] == s[i - 1] && s'[i] == s[i];
        }
      }
      SortIdentityOnSorted(key, s');
      assert InsertionSort(key, s) == Insert(key, s', x);
      if |s'| > 0 {
        assert s'[|s'| - 1] == s[|s| - 2];
      }
      assert Insert(key, s', x) == s' + [x];
      SplitLast(s);
    }
  }

  /** The places of `s` that tie with `p` under the comparator, in the order of `s`. */
  function Ties(key: SortType, s: seq<Place>, p: Place): (r: seq<Place>)
    ensures |r| <= |s|
  {
    if |s| == 0 then []
    else (if Compare(key, s[0], p) == 0 then [s[0]] else []) + Ties(key, s[1..], p)
  }

  lemma {:induction false} TiesAppend(key: SortType, a: seq<Place>, b: seq<Place>, p: Place)
    ensures Ties(key, a + b, p) == Ties(key, a, p) + Ties(key, b, p)
    decreases |a|
  {
    if |a| > 0 {
      AppendTail(a, b);
      TiesAppend(key, a[1..], b, p);
    } else {
      AppendEmpty(b);
    }
  }

  /** Two places out of order cannot both tie with a third. */
  lemma NoTieAcrossInversion(key: SortType, a: Place, b: Place, p: Place)
    requires Comparable(key, a) && Comparable(key, b) && Comparable(key, p)
    requires Compare(key, a, b) > 0
    ensures Compare(key, a, p) != 0 || Compare(key, b, p) != 0
  {
  }

  lemma AllComparablePrefix(key: SortType, t: seq<Place>)
    requires |t| > 0 && AllComparable(key, t)
    ensures AllComparable(key, t[..|t| - 1]) && Comparable(key, t[|t| - 1])
  {
    assert t[|t| - 1] in t;
    forall q | q in t[..|t| - 1]
      ensures Comparable(key, q)
    {
      SplitLast(t);
      assert q in t;
    }
  }

  /** The ties of `t` are those of all but its last element, then those of the last. */
  lemma TiesSplitLast(key: SortType, t: seq<Place>, p: Place)
    requires |t| > 0
    ensures Ties(key, t, p) == Ties(key, t[..|t| - 1], p) + Ties(key, [t[|t| - 1]], p)
  {
    SplitLast(t);
    TiesAppend(key, t[..|t| - 1], [t[|t| - 1]], p);
  }

  /** A single place contributes no tie unless it compares equal to `p`. */
  lemma TiesSingle(key: SortType, y: Place, p: Place)
    ensures Compare(key, y, p) != 0 ==> Ties(key, [y], p) == []
  {
    assert [y][1..] == [];
  }

  /** The inductive step of `InsertTies`: `x` moves past a last element it cannot tie with alongside `p`. */
  lemma InsertTiesStep(key: SortType, t: seq<Place>, x: Place, p: Place)
    requires |t| > 0 && Compare(key, t[|t| - 1], x) > 0
    requires Comparable(key, t[|t| - 1]) && Comparable(key, x) && Comparable(key, p)
    requires Ties(key, Insert(key, t[..|t| - 1], x), p) == Ties(key, t[..|t| - 1], p) + Ties(key, [x], p)
    ensures Ties(key, Insert(key, t, x), p) == Ties(key, t, p) + Ties(key, [x], p)
  {
    var t', last := t[..|t| - 1], t[|t| - 1];
    var r' := Insert(key, t', x);
    TiesAppend(key, r', [last], p);
    TiesSplitLast(key, t, p);
    NoTieAcrossInversion(key, last, x, p);
    TiesSingle(key, x, p);
    TiesSingle(key, last, p);
    if Compare(key, x, p) != 0 {
      AppendEmpty(Ties(key, t', p));
      AppendEmpty(Ties(key, t, p));
    } else {
      AppendEmpty(Ties(key, t', p));
      AppendEmpty(Ties(key, r', p));
    }
  }

  lemma {:induction false} InsertTies(key: SortType, t: seq<Place>, x: Place, p: Place)
    requires AllComparable(key, t) && Comparable(key, x) && Comparable(key, p)
    ensures Ties(key, Insert(key, t, x), p) == Ties(key, t, p) + Ties(key, [x], p)
    decreases |t|
  {
    if |t| == 0 || Compare(key, t[|t| - 1], x) <= 0 {
      TiesAppend(key, t, [x], p);
    } else {
      AllComparablePrefix(key, t);
      InsertTies(key, t[..|t| - 1], x, p);
      InsertTiesStep(key, t, x, p);
    }
  }

  /**
   * Stability: for every comparable `p`, the places tying with `p` appear in
   * the output in the same order as in the input.
   */
  lemma {:induction false} SortStable(key: SortType, s: seq<Place>, p: Place)
    requires AllComparable(key, s) && Comparable(key, p)
    ensures Ties(key, InsertionSort(key, s), p) == Ties(key, s, p)
  {
    if |s| > 0 {
      var s', x := s[..|s| - 1], s[|s| - 1];
      assert s == s' + [x];
      assert AllComparable(key, s');
      SortStable(key, s', p);
      var r' := InsertionSort(key, s');
      SortPermutes(key, s');
      assert forall q :: q in r' ==> q in multiset(s');
      InsertTies(key, r', x, p);
      TiesAppend(key, s', [x], p);
    }
  }

  /** `places.filter(place => place.category === activeFilter)`, or every place for `'all'`. */
  function FilterByCategory(s: seq<Place>, f: FilterType): (r: seq<Place>)
    ensures |r| <= |s|
  {
    if |s| == 0 then []
    else (if Matches(f, s[0]) then [s[0]] else []) + FilterByCategory(s[1..], f)
  }

  /** The filter keeps every matching place as often as it occurs, and nothing else. */
  lemma {:induction false} FilterCounts(s: seq<Place>, f: FilterType)
    ensures forall q :: multiset(FilterByCategory(s, f))[q] == if Matches(f, q) then multiset(s)[q] else 0
  {
    if |s| > 0 {
      SplitFirst(s);
      FilterCounts(s[1..], f);
    }
  }

  lemma {:induction false} FilterAllKeepsEverything(s: seq<Place>, f: FilterType)
    requires forall q :: q in s ==> Matches(f, q)
    ensures FilterByCategory(s, f) == s
  {
    if |s| > 0 {
      assert forall q :: q in s[1..] ==> q in s;
      FilterAllKeepsEverything(s[1..], f);
      assert s == [s[0]] + s[1..];
    }
  }

  /** The displayed list for an empty query: filter by category, then sort. */
  function DeriveLocal(places: seq<Place>, f: FilterType, key: SortType): (r: seq<Place>)
    ensures forall q :: multiset(r)[q] == if Matches(f, q) then multiset(places)[q] else 0
    ensures f == All ==> multiset(r) == multiset(places)
    ensures AdjacentSorted(key, r)
  {
    var kept := FilterByCategory(places, f);
    FilterCounts(places, f);
    SortPermutes(key, kept);
    SortAdjacentSorted(key, kept);
    InsertionSort(key, kept)
  }

  /** Every displayed place is of the active category. */
  lemma DeriveLocalMatches(places: seq<Place>, f: FilterType, key: SortType)
    ensures forall q :: q in DeriveLocal(places, f, key) ==> Matches(f, q)
  {
    var r := DeriveLocal(places, f, key);
    forall q | q in r
      ensures Matches(f, q)
    {
      assert multiset(r)[q] > 0;
    }
  }

  /** With the distance key the list is non-decreasing in distance. */
  lemma DeriveLocalByDistance(places: seq<Place>, f: FilterType)
    ensures var r := DeriveLocal(places, f, ByDistance);
            forall i, j :: 0 <= i < j < |r| ==> r[i].distance <= r[j].distance
  {
    var kept := FilterByCategory(places, f);
    SortSorted(ByDistance, kept);
    var r := DeriveLocal(places, f, ByDistance);
    forall i, j | 0 <= i < j < |r|
      ensures r[i].distance <= r[j].distance
    {
      CompareMeaning(ByDistance, r[i], r[j]);
    }
  }

  /** With the rating key the list is non-increasing in rating. */
  lemma DeriveLocalByRating(places: seq<Place>, f: FilterType)
    ensures var r := DeriveLocal(places, f, ByRating);
            forall i, j :: 0 <= i < j < |r| ==> r[i].rating >= r[j].rating
  {
    var kept := FilterByCategory(places, f);
    SortSorted(ByRating, kept);
    var r := DeriveLocal(places, f, ByRating);
    forall i, j | 0 <= i < j < |r|
      ensures r[i].rating >= r[j].rating
    {
      CompareMeaning(ByRating, r[i], r[j]);
    }
  }

  /** With the fee key the list is non-decreasing in fee, provided every fee key is a number. */
  lemma DeriveLocalByEntryFee(places: seq<Place>, f: FilterType)
    requires forall q :: q in places ==> FeeKeyOf(q.entryFee).Num?
    ensures var r := DeriveLocal(places, f, ByEntryFee);
            forall i, j :: 0 <= i < j < |r| ==>
              FeeKeyOf(r[i].entryFee).Num? && FeeKeyOf(r[j].entryFee).Num? &&
              FeeKeyOf(r[i].entryFee).value <= FeeKeyOf(r[j].entryFee).value
  {
    var kept := FilterByCategory(places, f);
    assert AllComparable(ByEntryFee, kept) by {
      FilterCounts(places, f);
      assert forall q :: q in kept ==> q in multiset(places);
    }
    SortSorted(ByEntryFee, kept);
    var r := DeriveLocal(places, f, ByEntryFee);
    assert AllComparable(ByEntryFee, r) by {
      SortPermutes(ByEntryFee, kept);
      assert forall q :: q in r ==> q in multiset(kept);
    }
    forall i, j | 0 <= i < j < |r|
      ensures FeeKeyOf(r[i].entryFee).Num? && FeeKeyOf(r[j].entryFee).Num?
      ensures FeeKeyOf(r[i].entryFee).value <= FeeKeyOf(r[j].entryFee).value
    {
      assert r[i] in r && r[j] in r;
      CompareMeaning(ByEntryFee, r[i], r[j]);
    }
  }

  /** Places with equal keys keep their input order. */
  lemma DeriveLocalStable(places: seq<Place>, f: FilterType, key: SortType, p: Place)
    requires AllComparable(key, places) && Comparable(key, p)
    ensures Ties(key, DeriveLocal(places, f, key), p) == Ties(key, FilterByCategory(places, f), p)
  {
    var kept := FilterByCategory(places, f);
    FilterCounts(places, f);
    assert forall q :: q in kept ==> q in multiset(places);
    SortStable(key, kept, p);
  }

  /** Feeding the displayed list back through the same filter and sort reproduces it. */
  lemma DeriveLocalIdempotent(places: seq<Place>, f: FilterType, key: SortType)
    ensures DeriveLocal(DeriveLocal(places, f, key), f, key) == DeriveLocal(places, f, key)
  {
    var r := DeriveLocal(places, f, key);
    DeriveLocalMatches(places, f, key);
    FilterAllKeepsEverything(r, f);
    SortIdentityOnSorted(key, r);
  }

  /**
   * When no fee has a numeric key (every place of the live backend says
   * "Contact for details"), sorting by entry fee keeps the input order.
   */
  lemma FeeSortKeepsOrderWhenAllNaN(s: seq<Place>)
    requires forall q :: q in s ==> FeeKeyOf(q.entryFee).NaN?
    ensures InsertionSort(ByEntryFee, s) == s
  {
    assert AdjacentSorted(ByEntryFee, s) by {
      forall i | 0 < i < |s|
        ensures Compare(ByEntryFee, s[i - 1], s[i]) <= 0
      {
        assert s[i] in s;
      }
    }
    SortIdentityOnSorted(ByEntryFee, s);
  }
}
