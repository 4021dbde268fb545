/**
 * The reverse-geocoding backend function: the input and status gates, the
 * scan over the first result's address components, and the display name.
 */
module LocationName {
  import opened Wrappers
  import opened Text
  import opened Seqs
  import opened Provider

  datatype NameRequest = NameRequest(latitude: Option<real>, longitude: Option<real>)
  datatype AddressComponent = AddressComponent(longName: string, shortName: string, types: seq<string>)
  datatype GeocodeResult = GeocodeResult(components: seq<AddressComponent>, formattedAddress: Option<string>)
  datatype GeocodeReply = GeocodeReply(status: string, errorMessage: Option<string>, results: seq<GeocodeResult>)

  /** The three accumulators of the loop. */
  datatype Parts = Parts(city: string, state: string, country: string)

  /** The response body. */
  datatype NameResult = NameResult(locationName: string, fullAddress: Option<string>)

  const LOCALITY := "locality"
  const LEVEL2 := "administrative_area_level_2"
  const LEVEL1 := "administrative_area_level_1"
  const COUNTRY := "country"
  const REQUIRED := "Latitude and longitude are required"
  const UNKNOWN_LOCATION := "Unknown location"

  /** One iteration of the loop: the first branch of the else-if chain that applies. */
  function ScanStep(acc: Parts, c: AddressComponent): (r: Parts)
    ensures (r.city == acc.city && r.state == acc.state)
         || (r.city == acc.city && r.country == acc.country)
         || (r.state == acc.state && r.country == acc.country)
  {
    if LOCALITY in c.types then acc.(city := c.longName)
    else if LEVEL2 in c.types && acc.city == "" then acc.(city := c.longName)
    else if LEVEL1 in c.types then acc.(state := c.shortName)
    else if COUNTRY in c.types then acc.(country := c.shortName)
    else acc
  }

  /** The loop over all components, starting from three empty strings. */
  function Scan(comps: seq<AddressComponent>): Parts {
    if |comps| == 0 then Parts("", "", "")
    else ScanStep(Scan(comps[..|comps| - 1]), comps[|comps| - 1])
  }

  lemma ScanAppend(comps: seq<AddressComponent>, c: AddressComponent)
    ensures Scan(comps + [c]) == ScanStep(Scan(comps), c)
  {
    assert (comps + [c])[..|comps|] == comps;
  }

  /** A locality component overwrites the city, whatever came before. */
  lemma LocalityOverwrites(comps: seq<AddressComponent>, c: AddressComponent)
    requires LOCALITY in c.types
    ensures Scan(comps + [c]).city == c.longName
  {
    ScanAppend(comps, c);
  }

  /** A level-2 component without the locality tag leaves a non-empty city alone. */
  lemma Level2OnlyFillsEmptyCity(comps: seq<AddressComponent>, c: AddressComponent)
    requires LOCALITY !in c.types && LEVEL2 in c.types
    requires Scan(comps).city != ""
    ensures Scan(comps + [c]).city == Scan(comps).city
  {
    ScanAppend(comps, c);
  }

  /**
   * The city is the long name of the last locality component when that name is
   * non-empty, even if level-2 components come before or after it.
   */
  lemma {:induction false} LastLocalityWins(comps: seq<AddressComponent>, at: nat)
    requires at < |comps| && LOCALITY in comps[at].types && comps[at].longName != ""
    requires forall k :: at < k < |comps| ==> LOCALITY !in comps[k].types
    ensures Scan(comps).city == comps[at].longName
    decreases |comps|
  {
    var prefix := comps[..|comps| - 1];
    if at < |comps| - 1 {
      assert forall k :: at < k < |prefix| ==> prefix[k] == comps[k];
      LastLocalityWins(prefix, at);
    }
  }

  /** Reference: the long name of the first level-2 component whose name is non-empty, or "". */
  function FirstNamedLevel2(comps: seq<AddressComponent>): string {
    if |comps| == 0 then ""
    else
      var earlier := FirstNamedLevel2(comps[..|comps| - 1]);
      var c := comps[|comps| - 1];
      if earlier != "" then earlier else if LEVEL2 in c.types then c.longName else ""
  }

  /** Without any locality component, the first named level-2 component gives the city. */
  lemma {:induction false} NoLocalityUsesFirstLevel2(comps: seq<AddressComponent>)
    requires forall k :: 0 <= k < |comps| ==> LOCALITY !in comps[k].types
    ensures Scan(comps).city == FirstNamedLevel2(comps)
  {
    if |comps| > 0 {
      var prefix := comps[..|comps| - 1];
      assert forall k :: 0 <= k < |prefix| ==> prefix[k] == comps[k];
      NoLocalityUsesFirstLevel2(prefix);
    }
  }

  /** Reference: the short name of the last component carrying `tag`, or "". */
  function LastShortName(comps: seq<AddressComponent>, tag: string): string {
    if |comps| == 0 then ""
    else if tag in comps[|comps| - 1].types then comps[|comps| - 1].shortName
    else LastShortName(comps[..|comps| - 1], tag)
  }

  /** No component is tagged both `tag` and one of `others`. */
  predicate Unambiguous(comps: seq<AddressComponent>, tag: string, others: seq<string>) {
    forall k, o :: 0 <= k < |comps| && o in others && tag in comps[k].types ==> o !in comps[k].types
  }

  /** The state is the short name of the last level-1 component. */
  lemma {:induction false} StateIsLastLevel1(comps: seq<AddressComponent>)
    requires Unambiguous(comps, LEVEL1, [LOCALITY, LEVEL2])
    ensures Scan(comps).state == LastShortName(comps, LEVEL1)
  {
    if |comps| > 0 {
      var prefix := comps[..|comps| - 1];
      assert forall k :: 0 <= k < |prefix| ==> prefix[k] == comps[k];
      StateIsLastLevel1(prefix);
      var c := comps[|comps| - 1];
      if LEVEL1 in c.types {
        var others := [LOCALITY, LEVEL2];
        assert others[0] in others && others[1] in others;
        assert LOCALITY !in c.types && LEVEL2 !in c.types;
      }
    }
  }

  /** The country is the short name of the last country component. */
  lemma {:induction false} CountryIsLastCountry(comps: seq<AddressComponent>)
    requires Unambiguous(comps, COUNTRY, [LOCALITY, LEVEL2, LEVEL1])
    ensures Scan(comps).country == LastShortName(comps, COUNTRY)
  {
    if |comps| > 0 {
      var prefix := comps[..|comps| - 1];
      assert forall k :: 0 <= k < |prefix| ==> prefix[k] == comps[k];
      CountryIsLastCountry(prefix);
      var c := comps[|comps| - 1];
      if COUNTRY in c.types {
        var others := [LOCALITY, LEVEL2, LEVEL1];
        assert others[0] in others && others[1] in others && others[2] in others;
        assert LOCALITY !in c.types && LEVEL2 !in c.types && LEVEL1 !in c.types;
      }
    }
  }

  /**
   * `city ? city + ", " + (state || country) : results[0]?.formatted_address || 'Unknown location'`.
   */
  function DisplayName(parts: Parts, first: Option<GeocodeResult>): (name: string)
    ensures name != ""
    ensures parts.city != "" ==> StartsWith(name, parts.city + ", ")
    ensures parts.city != "" && parts.state != "" ==> name == parts.city + ", " + parts.state
    ensures parts.city != "" && parts.state == "" ==> name == parts.city + ", " + parts.country
    ensures parts.city == "" && first.Some? && Truthy(first.value.formattedAddress) ==>
              name == first.value.formattedAddress.value
    ensures parts.city == "" && (first.None? || !Truthy(first.value.formattedAddress)) ==>
              name == UNKNOWN_LOCATION
  {
    if parts.city != "" then
      var name := parts.city + ", " + (if parts.state != "" then parts.state else parts.country);
      assert name[..|parts.city + ", "|] == parts.city + ", ";
      name
    else if first.Some? then OrElse(first.value.formattedAddress, UNKNOWN_LOCATION)
    else UNKNOWN_LOCATION
  }

  /** `!latitude || !longitude` does not hold; 0 is falsy. */
  predicate InputOk(req: NameRequest) {
    TruthyNumber(req.latitude) && TruthyNumber(req.longitude)
  }

  /** The whole function: gates, then the scan of `results[0]` only, then the name. */
  function FetchLocationName(req: NameRequest, reply: GeocodeReply): (r: Result<NameResult>)
    ensures !InputOk(req) ==> r == Err(REQUIRED)
    ensures InputOk(req) && reply.status != OK ==> r == Err(ApiError(reply.status, reply.errorMessage))
    ensures r.Ok? <==> InputOk(req) && reply.status == OK
    ensures r.Ok? ==> r.value.locationName != ""
    ensures r.Ok? && |reply.results| == 0 ==> r.value == NameResult(UNKNOWN_LOCATION, None)
    ensures r.Ok? && |reply.results| > 0 ==>
              r.value.locationName == DisplayName(Scan(reply.results[0].components), Some(reply.results[0])) &&
              r.value.fullAddress == reply.results[0].formattedAddress
  {
    if !InputOk(req) then Err(REQUIRED)
    else if reply.status != OK then Err(ApiError(reply.status, reply.errorMessage))
    else
      var first := if |reply.results| > 0 then Some(reply.results[0]) else None;
      var parts := if first.Some? then Scan(first.value.components) else Parts("", "", "");
      Ok(NameResult(DisplayName(parts, first), if first.Some? then first.value.formattedAddress else None))
  }

  /** Components of later results never influence the name. */
  lemma OnlyFirstResultScanned(req: NameRequest, reply: GeocodeReply, more: seq<GeocodeResult>)
    requires |reply.results| > 0
    ensures FetchLocationName(req, reply) == FetchLocationName(req, reply.(results := reply.results + more))
  {
    assert (reply.results + more)[0] == reply.results[0];
  }
}
