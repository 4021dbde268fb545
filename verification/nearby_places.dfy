/** The nearby-search backend function: status gate, its own classifier, distance rounding and the normaliser. */
module NearbyPlaces {
  import opened Wrappers
  import opened Types
  import opened Text
  import opened Fee
  import opened Provider
  import PlaceSearch

  datatype NearbyRequest = NearbyRequest(latitude: real, longitude: real)

  const PLACEHOLDER := "/placeholder.svg"
  const NO_DESCRIPTION := "No description available"

  /** This function's priority table: only `hindu_temple` is a temple, and monument outranks park. */
  const NEARBY_RULES: seq<(seq<string>, Category)> :=
    [(["hindu_temple"], Temple), (["museum"], Museum), (["monument"], Monument), (["park"], Park)]

  /** The inline category chain. */
  function ClassifyNearby(types: seq<string>): (c: Category)
    ensures c == Temple <==> "hindu_temple" in types
  {
    if "hindu_temple" in types then Temple
    else if "museum" in types then Museum
    else if "monument" in types then Monument
    else if "park" in types then Park
    else TouristSpot
  }

  /** The if-chain is the priority table `NEARBY_RULES` read top to bottom. */
  lemma ClassifyNearbyIsTable(types: seq<string>)
    ensures ClassifyNearby(types) == FirstMatch(NEARBY_RULES, types)
  {
    var r0 := NEARBY_RULES;
    var r1, r2, r3 := r0[1..], r0[2..], r0[3..];
    assert r0[1..][1..] == r2 && r2[1..] == r3 && r3[1..] == [];
    if "hindu_temple" in types {
      assert "hindu_temple" in r0[0].0;
      return;
    }
    assert !exists t :: t in r0[0].0 && t in types;
    assert FirstMatch(r0, types) == FirstMatch(r1, types);
    if "museum" in types {
      assert "museum" in r1[0].0;
      return;
    }
    assert !exists t :: t in r1[0].0 && t in types;
    assert FirstMatch(r1, types) == FirstMatch(r2, types);
    if "monument" in types {
      assert "monument" in r2[0].0;
      return;
    }
    assert !exists t :: t in r2[0].0 && t in types;
    assert FirstMatch(r2, types) == FirstMatch(r3, types);
    if "park" in types {
      assert "park" in r3[0].0;
      return;
    }
    assert !exists t :: t in r3[0].0 && t in types;
    assert FirstMatch(r3, types) == FirstMatch([], types);
  }

  /** The two classifiers disagree on purpose: on park-and-monument, and on non-Hindu worship places. */
  lemma ClassifiersDiffer()
    ensures ClassifyNearby(["park", "monument"]) == Monument
    ensures PlaceSearch.ClassifySearch(["park", "monument"]) == Park
    ensures ClassifyNearby(["church"]) == TouristSpot
    ensures PlaceSearch.ClassifySearch(["church"]) == Temple
  {
    assert "monument" in ["park", "monument"];
    assert "church" in ["church"];
  }

  /** `x` is a whole number of tenths. */
  predicate IsTenths(x: real) {
    (x * 10.0).Floor as real == x * 10.0
  }

  /** `Math.round(d * 10) / 10`; `Math.round` rounds halves up. */
  function RoundTenth(d: real): (r: real)
    ensures IsTenths(r)
    ensures d - 0.05 < r <= d + 0.05
  {
    (d * 10.0 + 0.5).Floor as real / 10.0
  }

  /** Rounding a rounded distance changes nothing. */
  lemma RoundTenthIdempotent(d: real)
    ensures RoundTenth(RoundTenth(d)) == RoundTenth(d)
  {
    var r := RoundTenth(d);
    var k := (r * 10.0).Floor;
    assert r * 10.0 == k as real;
    assert (r * 10.0 + 0.5).Floor == k;
  }

  /** Rounding never reverses the order of two distances. */
  lemma RoundTenthMonotone(d1: real, d2: real)
    requires d1 <= d2
    ensures RoundTenth(d1) <= RoundTenth(d2)
  {
    var k1, k2 := (d1 * 10.0 + 0.5).Floor, (d2 * 10.0 + 0.5).Floor;
    assert k1 <= k2;
  }

  /** `place.photos?.[0]?.photo_reference`, when truthy. */
  function PhotoReference(p: RawPlace): Option<string> {
    var photo := FirstPhoto(p.photos);
    if photo.Some? && photo.value.reference != "" then Some(photo.value.reference) else None
  }

  /** The place record for one provider result whose `types` is present. */
  function NormaliseNearbyPlace(p: RawPlace, types: seq<string>, origin: Location, distance: DistanceFn,
                                apiKey: string): (r: Place)
    ensures r.id == p.placeId && r.name == p.name && r.location == p.location
    ensures r.category == ClassifyNearby(types)
    ensures Truthy(p.vicinity) ==> r.description == p.vicinity.value
    ensures !Truthy(p.vicinity) ==> r.description == NO_DESCRIPTION
    ensures r.distance == RoundTenth(distance(origin, p.location))
    ensures PhotoReference(p).Some? ==>
              r.image == PhotoUrl("800", PhotoReference(p).value, apiKey) &&
              r.thumbnail == PhotoUrl("400", PhotoReference(p).value, apiKey)
    ensures PhotoReference(p).None? ==> r.image == PLACEHOLDER && r.thumbnail == PLACEHOLDER
    ensures TruthyNumber(p.rating) ==> r.rating == p.rating.value
    ensures !TruthyNumber(p.rating) ==> r.rating == 0.0
    ensures r.timings == OPEN_NOW <==> p.openingHours.Some? && p.openingHours.value.openNow == Some(true)
    ensures r.timings != OPEN_NOW ==> r.timings == CLOSED
    ensures r.entryFee == CONTACT_FOR_DETAILS && FeeKeyOf(r.entryFee).NaN?
    ensures r.festivalInfo.None?
  {
    var reference := PhotoReference(p);
    assert NoDigits(CONTACT_FOR_DETAILS);
    Place(
      id := p.placeId,
      name := p.name,
      category := ClassifyNearby(types),
      description := OrElse(p.vicinity, NO_DESCRIPTION),
      location := p.location,
      distance := RoundTenth(distance(origin, p.location)),
      image := if reference.Some? then PhotoUrl("800", reference.value, apiKey) else PLACEHOLDER,
      thumbnail := if reference.Some? then PhotoUrl("400", reference.value, apiKey) else PLACEHOLDER,
      rating := NumberOr(p.rating, 0.0),
      timings :=
        if p.openingHours.Some? && p.openingHours.value.openNow == Some(true) then OPEN_NOW else CLOSED,
      entryFee := CONTACT_FOR_DETAILS,
      festivalInfo := None)
  }

  /** `place.types.includes` throws unless every result carries `types`. */
  predicate AllTyped(results: seq<RawPlace>) {
    forall i :: 0 <= i < |results| ==> results[i].types.Some?
  }

  function NormaliseAll(results: seq<RawPlace>, origin: Location, distance: DistanceFn, apiKey: string): (r: seq<Place>)
    requires AllTyped(results)
    ensures |r| == |results|
    ensures forall i :: 0 <= i < |r| ==>
              r[i] == NormaliseNearbyPlace(results[i], results[i].types.value, origin, distance, apiKey)
  {
    seq(|results|, i requires 0 <= i < |results| =>
      NormaliseNearbyPlace(results[i], results[i].types.value, origin, distance, apiKey))
  }

  /**
   * The whole function: the status gate, then one place per result in order.
   * One result without `types` makes the whole call fail.
   */
  function Nearby(req: NearbyRequest, reply: PlacesReply, distance: DistanceFn, apiKey: string): (r: Result<seq<Place>>)
    ensures !ListStatusAccepted(reply.status) ==> r == Err(ApiError(reply.status, reply.errorMessage))
    ensures ListStatusAccepted(reply.status) && !AllTyped(reply.results) ==> r == Err(TYPE_ERROR)
    ensures r.Ok? <==> ListStatusAccepted(reply.status) && AllTyped(reply.results)
    ensures r.Ok? ==> |r.value| == |reply.results|
    ensures r.Ok? ==> forall i :: 0 <= i < |r.value| ==>
              r.value[i].id == reply.results[i].placeId &&
              r.value[i] == NormaliseNearbyPlace(reply.results[i], reply.results[i].types.value,
                                                 Location(req.latitude, req.longitude), distance, apiKey)
  {
    if !ListStatusAccepted(reply.status) then Err(ApiError(reply.status, reply.errorMessage))
    else if !AllTyped(reply.results) then Err(TYPE_ERROR)
    else Ok(NormaliseAll(reply.results, Location(req.latitude, req.longitude), distance, apiKey))
  }

  /** Every distance a successful call returns is a whole number of tenths of a km. */
  lemma NearbyDistancesInTenths(req: NearbyRequest, reply: PlacesReply, distance: DistanceFn, apiKey: string)
    requires Nearby(req, reply, distance, apiKey).Ok?
    ensures forall q :: q in Nearby(req, reply, distance, apiKey).value ==> IsTenths(q.distance)
  {
    var r := Nearby(req, reply, distance, apiKey).value;
    forall q | q in r
      ensures IsTenths(q.distance)
    {
      var i :| 0 <= i < |r| && r[i] == q;
      var d := distance(Location(req.latitude, req.longitude), reply.results[i].location);
      assert q.distance == RoundTenth(d);
    }
  }
}
