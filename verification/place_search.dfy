/** The text-search backend function: gates, category classifier and the `results.map` normaliser. */
module PlaceSearch {
  import opened Wrappers
  import opened Types
  import opened Text
  import opened Fee
  import opened Provider

  /** The request body; a field that is absent is `None`. */
  datatype SearchRequest = SearchRequest(query: Option<string>, latitude: Option<real>, longitude: Option<real>)

  const REQUIRED := "Query, latitude, and longitude are required"
  const FALLBACK_IMAGE := "https://images.unsplash.com/photo-1564507592333-c60657eea523"
  const WORSHIP_TAGS := ["hindu_temple", "church", "mosque", "place_of_worship"]

  /** The priority table of this function: worship tags, then museum, park, monument. */
  const SEARCH_RULES: seq<(seq<string>, Category)> :=
    [(WORSHIP_TAGS, Temple), (["museum"], Museum), (["park"], Park), (["monument"], Monument)]

  /** `!query || !latitude || !longitude` does not hold; a coordinate of 0 is falsy. */
  predicate InputOk(req: SearchRequest) {
    Truthy(req.query) && TruthyNumber(req.latitude) && TruthyNumber(req.longitude)
  }

  predicate IsWorship(types: seq<string>) {
    "hindu_temple" in types || "church" in types || "mosque" in types || "place_of_worship" in types
  }

  /** `getCategoryFromTypes`. */
  function ClassifySearch(types: seq<string>): (c: Category)
    ensures c == Temple <==> exists t :: t in WORSHIP_TAGS && t in types
    ensures c == TouristSpot <==> forall t :: t in types ==> t !in WORSHIP_TAGS + ["museum", "park", "monument"]
  {
    if IsWorship(types) then Temple
    else if "museum" in types then Museum
    else if "park" in types then Park
    else if "monument" in types then Monument
    else TouristSpot
  }

  /** The if-chain is the priority table `SEARCH_RULES` read top to bottom. */
  lemma ClassifySearchIsTable(types: seq<string>)
    ensures ClassifySearch(types) == FirstMatch(SEARCH_RULES, types)
  {
    var r0 := SEARCH_RULES;
    var r1, r2, r3 := r0[1..], r0[2..], r0[3..];
    assert r0[1..][1..] == r2 && r2[1..] == r3 && r3[1..] == [];
    if IsWorship(types) {
      var t :| t in WORSHIP_TAGS && t in types;
      assert t in r0[0].0;
      return;
    }
    assert !exists t :: t in r0[0].0 && t in types;
    assert FirstMatch(r0, types) == FirstMatch(r1, types);
    if "museum" in types {
      assert "museum" in r1[0].0;
      return;
    }
    assert !exists t :: t in r1[0].0 && t in types;
    assert FirstMatch(r1, types) == FirstMatch(r2, types);
    if "park" in types {
      assert "park" in r2[0].0;
      return;
    }
    assert !exists t :: t in r2[0].0 && t in types;
    assert FirstMatch(r2, types) == FirstMatch(r3, types);
    if "monument" in types {
      assert "monument" in r3[0].0;
      return;
    }
    assert !exists t :: t in r3[0].0 && t in types;
    assert FirstMatch(r3, types) == FirstMatch([], types);
  }

  /** Only which tags occur matters, not their order or repetition. */
  lemma ClassifySearchUsesTagSet(a: seq<string>, b: seq<string>)
    requires forall t :: t in a <==> t in b
    ensures ClassifySearch(a) == ClassifySearch(b)
  {
  }

  /** The place record the function returns for one provider result. */
  function NormaliseSearchPlace(p: RawPlace, origin: Location, distance: DistanceFn, apiKey: string): (r: Place)
    ensures r.id == p.placeId && r.name == p.name && r.location == p.location
    ensures r.category == ClassifySearch(p.types.GetOr([]))
    ensures r.description == p.formattedAddress.GetOr("")
    ensures r.distance == distance(origin, p.location)
    ensures FirstPhoto(p.photos).Some? ==>
              r.image == PhotoUrl("800", FirstPhoto(p.photos).value.reference, apiKey) &&
              r.thumbnail == PhotoUrl("400", FirstPhoto(p.photos).value.reference, apiKey)
    ensures FirstPhoto(p.photos).None? ==> r.image == FALLBACK_IMAGE && r.thumbnail == FALLBACK_IMAGE
    ensures r.image == r.thumbnail <==> FirstPhoto(p.photos).None?
    ensures r.rating != 0.0
    ensures TruthyNumber(p.rating) ==> r.rating == p.rating.value
    ensures !TruthyNumber(p.rating) ==> r.rating == 4.0
    ensures r.timings in {OPEN_NOW, CLOSED, HOURS_NOT_AVAILABLE}
    ensures r.timings == HOURS_NOT_AVAILABLE <==> p.openingHours.None? || p.openingHours.value.openNow.None?
    ensures r.timings == OPEN_NOW <==> p.openingHours.Some? && p.openingHours.value.openNow == Some(true)
    ensures r.entryFee == CONTACT_FOR_DETAILS && FeeKeyOf(r.entryFee).NaN?
    ensures r.festivalInfo.None?
  {
    var photo := FirstPhoto(p.photos);
    assert photo.Some? ==>
             PhotoUrl("800", photo.value.reference, apiKey) != PhotoUrl("400", photo.value.reference, apiKey) by {
      if photo.Some? {
        PhotoUrlWidthsDiffer(photo.value.reference, apiKey);
      }
    }
    assert NoDigits(CONTACT_FOR_DETAILS);
    Place(
      id := p.placeId,
      name := p.name,
      category := ClassifySearch(p.types.GetOr([])),
      description := p.formattedAddress.GetOr(""),
      location := p.location,
      distance := distance(origin, p.location),
      image := if photo.Some? then PhotoUrl("800", photo.value.reference, apiKey) else FALLBACK_IMAGE,
      thumbnail := if photo.Some? then PhotoUrl("400", photo.value.reference, apiKey) else FALLBACK_IMAGE,
      rating := NumberOr(p.rating, 4.0),
      timings :=
        if p.openingHours.Some? && p.openingHours.value.openNow.Some? then
          (if p.openingHours.value.openNow.value then OPEN_NOW else CLOSED)
        else HOURS_NOT_AVAILABLE,
      entryFee := CONTACT_FOR_DETAILS,
      festivalInfo := None)
  }

  function NormaliseAll(results: seq<RawPlace>, origin: Location, distance: DistanceFn, apiKey: string): (r: seq<Place>)
    ensures |r| == |results|
    ensures forall i :: 0 <= i < |r| ==> r[i] == NormaliseSearchPlace(results[i], origin, distance, apiKey)
  {
    seq(|results|, i requires 0 <= i < |results| => NormaliseSearchPlace(results[i], origin, distance, apiKey))
  }

  /**
   * The whole function for one request and the provider's reply: the input
   * gate, then the status gate, then one place per result, in order.
   */
  function Search(req: SearchRequest, reply: PlacesReply, distance: DistanceFn, apiKey: string): (r: Result<seq<Place>>)
    ensures !InputOk(req) ==> r == Err(REQUIRED)
    ensures InputOk(req) && !ListStatusAccepted(reply.status) ==> r == Err(ApiError(reply.status, reply.errorMessage))
    ensures r.Ok? <==> InputOk(req) && ListStatusAccepted(reply.status)
    ensures r.Ok? ==> |r.value| == |reply.results|
    ensures r.Ok? ==> forall i :: 0 <= i < |r.value| ==>
              r.value[i].id == reply.results[i].placeId &&
              r.value[i] == NormaliseSearchPlace(reply.results[i],
                                                 Location(req.latitude.value, req.longitude.value),
                                                 distance, apiKey)
  {
    if !InputOk(req) then Err(REQUIRED)
    else if !ListStatusAccepted(reply.status) then Err(ApiError(reply.status, reply.errorMessage))
    else Ok(NormaliseAll(reply.results, Location(req.latitude.value, req.longitude.value), distance, apiKey))
  }

  /** A user standing on the equator or the prime meridian is refused. */
  lemma ZeroCoordinateRejected(req: SearchRequest, reply: PlacesReply, distance: DistanceFn, apiKey: string)
    requires req.latitude == Some(0.0) || req.longitude == Some(0.0)
    ensures Search(req, reply, distance, apiKey) == Err(REQUIRED)
  {
  }

  /** Every place of a successful search has the fee text "Contact for details", whose sort key is NaN. */
  lemma SearchFeesAreNaN(req: SearchRequest, reply: PlacesReply, distance: DistanceFn, apiKey: string)
    requires Search(req, reply, distance, apiKey).Ok?
    ensures forall q :: q in Search(req, reply, distance, apiKey).value ==> FeeKeyOf(q.entryFee).NaN?
  {
  }
}
