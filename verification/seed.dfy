/**
 * The four sample places of src/lib/mockData.ts, used as concrete witnesses
 * for the discovery order and the fee key.
 */
module Seed {
  import opened Wrappers
  import opened Types
  import opened Fee
  import opened Discovery
  import opened Text

  const PLACEHOLDER := "/placeholder.svg"

  const MEENAKSHI := Place("1", "Meenakshi Amman Temple", Temple,
    "A historic Hindu temple located on the southern bank of the Vaigai River.",
    Location(9.9195, 78.1193), 2.5, PLACEHOLDER, PLACEHOLDER, 4.8, "5:00 AM - 10:00 PM", "Free",
    Some([Festival("f1", "Meenakshi Thirukalyanam", "2024-04-15",
                   "Annual celebration of the divine marriage of Meenakshi and Sundareswarar",
                   [PLACEHOLDER], false)]))

  const BRIHADEESWARAR := Place("2", "Brihadeeswarar Temple", Temple,
    "A UNESCO World Heritage Site and an example of Chola architecture.",
    Location(10.7824, 79.1318), 5.3, PLACEHOLDER, PLACEHOLDER, 4.9, "6:00 AM - 8:30 PM", "₹50", None)

  const GANDHI_MUSEUM := Place("3", "Gandhi Memorial Museum", Museum,
    "Museum dedicated to Mahatma Gandhi, housed in the Rani Mangammal Palace.",
    Location(9.9312, 78.1215), 3.2, PLACEHOLDER, PLACEHOLDER, 4.5, "10:00 AM - 5:30 PM", "₹10", None)

  const NAYAKKAR_PALACE := Place("4", "Thirumalai Nayakkar Palace", Monument,
    "A 17th-century palace built by King Thirumalai Nayak.",
    Location(9.9174, 78.1210), 1.8, PLACEHOLDER, PLACEHOLDER, 4.6, "9:00 AM - 5:00 PM", "₹50", None)

  const SAMPLE := [MEENAKSHI, BRIHADEESWARAR, GANDHI_MUSEUM, NAYAKKAR_PALACE]

  function Ids(s: seq<Place>): (r: seq<string>)
    ensures |r| == |s| && forall i :: 0 <= i < |s| ==> r[i] == s[i].id
  {
    if s == [] then [] else [s[0].id] + Ids(s[1..])
  }

  lemma RenderedTens()
    ensures Decimal(10) == "10" && Decimal(20) == "20" && Decimal(50) == "50"
  {
    assert Decimal(1) == "1" && Decimal(2) == "2" && Decimal(5) == "5";
  }

  /** The sample fees: "Free" is 0, a rupee amount is its number. */
  lemma SampleFeeKeys()
    ensures FeeKeyOf(MEENAKSHI.entryFee) == Num(0)
    ensures FeeKeyOf(BRIHADEESWARAR.entryFee) == Num(50)
    ensures FeeKeyOf(GANDHI_MUSEUM.entryFee) == Num(10)
    ensures FeeKeyOf(NAYAKKAR_PALACE.entryFee) == Num(50)
  {
    RenderedTens();
    FeeKeyOfRendered("₹", 50);
    FeeKeyOfRendered("₹", 10);
    assert "₹" + Decimal(50) == "₹50";
    assert "₹" + Decimal(10) == "₹10";
  }

  /** A fee with no digit at all has no numeric key. */
  lemma ContactFeeIsNaN()
    ensures FeeKeyOf("Contact for details") == NaN
  {
    assert NoDigits("Contact for details");
  }

  /** The spelling must be exactly "Free": any other casing has no digit and no key. */
  lemma LowerCaseFreeIsNaN()
    ensures FeeKeyOf("free") == NaN
  {
    assert NoDigits("free");
  }

  /** A price range keeps both numbers' digits side by side: "₹10-20" sorts as 1020. */
  lemma RangeFeeConcatenatesDigits()
    ensures FeeKeyOf("₹10-20") == Num(1020)
  {
    RenderedTens();
    FeeKeyOfRange("₹", 10, "-", 20);
    assert "₹" + Decimal(10) + "-" + Decimal(20) == "₹10-20";
    assert Pow10(|Decimal(20)|) == 100;
  }

  lemma FilterAllSample()
    ensures FilterByCategory(SAMPLE, All) == SAMPLE
  {
    FilterAllKeepsEverything(SAMPLE, All);
  }

  /** One step of `Insert` that moves past the last element. */
  lemma InsertPasses(k: SortType, t: seq<Place>, x: Place)
    requires |t| > 0 && Compare(k, t[|t| - 1], x) > 0
    ensures Insert(k, t, x) == Insert(k, t[..|t| - 1], x) + [t[|t| - 1]]
  {
  }

  /** One step of `InsertionSort`: sort all but the last element, then insert it. */
  lemma SortSnoc(k: SortType, s: seq<Place>, x: Place)
    ensures InsertionSort(k, s + [x]) == Insert(k, InsertionSort(k, s), x)
  {
    assert (s + [x])[..|s|] == s;
  }

  lemma SortSingle(k: SortType, a: Place)
    ensures InsertionSort(k, [a]) == [a]
  {
    SortSnoc(k, [], a);
    assert [] + [a] == [a];
  }

  /** Sorting two places swaps them exactly when the first compares greater. */
  lemma SortPair(k: SortType, a: Place, b: Place)
    ensures InsertionSort(k, [a, b]) == if Compare(k, a, b) <= 0 then [a, b] else [b, a]
  {
    SortSingle(k, a);
    SortSnoc(k, [a], b);
    assert [a] + [b] == [a, b];
    if Compare(k, a, b) > 0 {
      InsertPasses(k, [a], b);
      assert [a][..0] == [];
    }
  }

  /** A place that does not compare below the last of three stays at the end. */
  lemma InsertAfterThree(k: SortType, x: Place, y: Place, z: Place, w: Place)
    requires Compare(k, z, w) <= 0
    ensures Insert(k, [x, y, z], w) == [x, y, z, w]
  {
  }

  /** A place that compares below all three moves to the front. */
  lemma InsertBeforeThree(k: SortType, x: Place, y: Place, z: Place, w: Place)
    requires Compare(k, z, w) > 0 && Compare(k, y, w) > 0 && Compare(k, x, w) > 0
    ensures Insert(k, [x, y, z], w) == [w, x, y, z]
  {
    InsertPasses(k, [x, y, z], w);
    assert [x, y, z][..2] == [x, y];
    InsertBeforeBoth(k, x, y, w);
  }

  lemma InsertBeforeBoth(k: SortType, x: Place, y: Place, w: Place)
    requires Compare(k, y, w) > 0 && Compare(k, x, w) > 0
    ensures Insert(k, [x, y], w) == [w, x, y]
  {
    InsertPasses(k, [x, y], w);
    assert [x, y][..1] == [x];
    InsertPasses(k, [x], w);
    assert [x][..0] == [];
  }

  lemma SortThree(k: SortType, a: Place, b: Place, c: Place)
    ensures InsertionSort(k, [a, b, c]) == Insert(k, InsertionSort(k, [a, b]), c)
  {
    SortSnoc(k, [a, b], c);
    assert [a, b] + [c] == [a, b, c];
  }

  lemma SortFour(k: SortType, a: Place, b: Place, c: Place, d: Place)
    ensures InsertionSort(k, [a, b, c, d]) == Insert(k, InsertionSort(k, [a, b, c]), d)
  {
    SortSnoc(k, [a, b, c], d);
    assert [a, b, c] + [d] == [a, b, c, d];
  }

  lemma InsertIntoTwo(k: SortType, x: Place, y: Place, w: Place)
    ensures Compare(k, y, w) <= 0 ==> Insert(k, [x, y], w) == [x, y, w]
    ensures Compare(k, y, w) > 0 && Compare(k, x, w) <= 0 ==> Insert(k, [x, y], w) == [x, w, y]
  {
    if Compare(k, y, w) > 0 {
      InsertPasses(k, [x, y], w);
      assert [x, y][..1] == [x];
    }
  }

  /** Four places at distances 2.5, 5.3, 3.2 and 1.8 sort to positions 4, 1, 3, 2. */
  lemma DistanceOrder(a: Place, b: Place, c: Place, d: Place)
    requires a.distance == 2.5 && b.distance == 5.3 && c.distance == 3.2 && d.distance == 1.8
    ensures InsertionSort(ByDistance, [a, b, c, d]) == [d, a, c, b]
  {
    var k := ByDistance;
    assert InsertionSort(k, [a, b]) == [a, b] by {
      SortPair(k, a, b);
      CompareMeaning(k, a, b);
    }
    assert InsertionSort(k, [a, b, c]) == [a, c, b] by {
      SortThree(k, a, b, c);
      CompareMeaning(k, b, c);
      CompareMeaning(k, a, c);
      InsertIntoTwo(k, a, b, c);
    }
    SortFour(k, a, b, c, d);
    CompareMeaning(k, b, d);
    CompareMeaning(k, c, d);
    CompareMeaning(k, a, d);
    InsertBeforeThree(k, a, c, b, d);
  }

  /** Fees 0, 50, 10 and 50 sort to positions 1, 3, 2, 4: the two 50s keep their order. */
  lemma FeeOrder(a: Place, b: Place, c: Place, d: Place)
    requires FeeKeyOf(a.entryFee) == Num(0) && FeeKeyOf(b.entryFee) == Num(50)
    requires FeeKeyOf(c.entryFee) == Num(10) && FeeKeyOf(d.entryFee) == Num(50)
    ensures InsertionSort(ByEntryFee, [a, b, c, d]) == [a, c, b, d]
  {
    var k := ByEntryFee;
    assert InsertionSort(k, [a, b]) == [a, b] by {
      SortPair(k, a, b);
      CompareMeaning(k, a, b);
    }
    assert InsertionSort(k, [a, b, c]) == [a, c, b] by {
      SortThree(k, a, b, c);
      CompareMeaning(k, b, c);
      CompareMeaning(k, a, c);
      InsertIntoTwo(k, a, b, c);
    }
    SortFour(k, a, b, c, d);
    CompareMeaning(k, b, d);
    InsertAfterThree(k, a, c, b, d);
  }

  lemma IdsOfFour(a: Place, b: Place, c: Place, d: Place)
    ensures Ids([a, b, c, d]) == [a.id, b.id, c.id, d.id]
  {
    assert [a, b, c, d][1..] == [b, c, d] && [b, c, d][1..] == [c, d];
    assert [c, d][1..] == [d] && [d][1..] == [];
  }

  /** Nearest first: ids 4, 1, 3, 2. */
  lemma SampleByDistance()
    ensures Ids(DeriveLocal(SAMPLE, All, ByDistance)) == ["4", "1", "3", "2"]
  {
    var a, b, c, d := MEENAKSHI, BRIHADEESWARAR, GANDHI_MUSEUM, NAYAKKAR_PALACE;
    FilterAllSample();
    DistanceOrder(a, b, c, d);
    IdsOfFour(d, a, c, b);
  }

  /** Cheapest first, equal fees in list order: ids 1, 3, 2, 4. */
  lemma SampleByEntryFee()
    ensures Ids(DeriveLocal(SAMPLE, All, ByEntryFee)) == ["1", "3", "2", "4"]
  {
    var a, b, c, d := MEENAKSHI, BRIHADEESWARAR, GANDHI_MUSEUM, NAYAKKAR_PALACE;
    SampleFeeKeys();
    FilterAllSample();
    FeeOrder(a, b, c, d);
    IdsOfFour(a, c, b, d);
  }

  lemma TemplesFirstTwo(a: Place, b: Place, c: Place, d: Place)
    requires a.category == Temple && b.category == Temple && c.category != Temple && d.category != Temple
    ensures FilterByCategory([a, b, c, d], Only(Temple)) == [a, b]
  {
    var f := Only(Temple);
    assert FilterByCategory([d], f) == [] by {
      assert [d][1..] == [];
    }
    assert FilterByCategory([c, d], f) == [] by {
      assert [c, d][1..] == [d];
    }
    assert FilterByCategory([b, c, d], f) == [b] by {
      assert [b, c, d][1..] == [c, d];
    }
    assert [a, b, c, d][1..] == [b, c, d];
  }

  /** Only the temples, best rated first: ids 2, 1. */
  lemma SampleTemplesByRating()
    ensures Ids(DeriveLocal(SAMPLE, Only(Temple), ByRating)) == ["2", "1"]
  {
    var a, b, c, d := MEENAKSHI, BRIHADEESWARAR, GANDHI_MUSEUM, NAYAKKAR_PALACE;
    TemplesFirstTwo(a, b, c, d);
    RatingPair(a, b);
  }

  lemma RatingPair(a: Place, b: Place)
    requires a.rating == 4.8 && b.rating == 4.9
    ensures Ids(InsertionSort(ByRating, [a, b])) == [b.id, a.id]
  {
    SortPair(ByRating, a, b);
    assert [b, a][1..] == [a] && [a][1..] == [];
  }
}
