/**
 * The decoded payload of the places provider as the backend functions read it,
 * and the pieces the functions share: status gates, error messages, photo URLs
 * and JavaScript `||` on numbers.
 */
module Provider {
  import opened Wrappers
  import opened Types
  import opened Text

  datatype Photo = Photo(reference: string)

  datatype OpeningHours = OpeningHours(openNow: Option<bool>, weekdayText: Option<seq<string>>)

  /** One entry of `results` in a nearby or text search reply. */
  datatype RawPlace = RawPlace(
    placeId: string,
    name: string,
    types: Option<seq<string>>,
    formattedAddress: Option<string>,
    vicinity: Option<string>,
    location: Location,
    photos: Option<seq<Photo>>,
    rating: Option<real>,
    openingHours: Option<OpeningHours>)

  datatype PlacesReply = PlacesReply(status: string, errorMessage: Option<string>, results: seq<RawPlace>)

  const OK := "OK"
  const ZERO_RESULTS := "ZERO_RESULTS"
  const CONTACT_FOR_DETAILS := "Contact for details"
  const OPEN_NOW := "Open Now"
  const CLOSED := "Closed"
  const HOURS_NOT_AVAILABLE := "Hours not available"

  /** Stands for the message of the runtime error thrown when a required field is missing. */
  const TYPE_ERROR := "TypeError"

  /** The search functions accept a reply with results or with none. */
  predicate ListStatusAccepted(status: string) {
    status == OK || status == ZERO_RESULTS
  }

  function ApiError(status: string, errorMessage: Option<string>): string {
    "Google API error: " + status + " - " + OrElse(errorMessage, "Unknown error")
  }

  const PHOTO_BASE := "https://maps.googleapis.com/maps/api/place/photo?maxwidth="

  /** The provider photo URL for a reference at a given maximum width. */
  function PhotoUrl(width: string, reference: string, apiKey: string): string {
    PHOTO_BASE + width + "&photo_reference=" + reference + "&key=" + apiKey
  }

  /** The full-size and thumbnail URLs of one photo are different strings. */
  lemma PhotoUrlWidthsDiffer(reference: string, apiKey: string)
    ensures PhotoUrl("800", reference, apiKey) != PhotoUrl("400", reference, apiKey)
  {
    assert PhotoUrl("800", reference, apiKey)[|PHOTO_BASE|] == '8';
    assert PhotoUrl("400", reference, apiKey)[|PHOTO_BASE|] == '4';
  }

  /** JavaScript truthiness of an optional number (NaN is not modelled). */
  predicate TruthyNumber(o: Option<real>) {
    o.Some? && o.value != 0.0
  }

  /** `o || fallback` for an optional number. */
  function NumberOr(o: Option<real>, fallback: real): (r: real)
    ensures TruthyNumber(o) ==> r == o.value
    ensures !TruthyNumber(o) ==> r == fallback
  {
    if TruthyNumber(o) then o.value else fallback
  }

  /** The first photo, when `photos` is present and non-empty (`place.photos?.[0]`). */
  function FirstPhoto(photos: Option<seq<Photo>>): Option<Photo> {
    if photos.Some? && |photos.value| > 0 then Some(photos.value[0]) else None
  }

  /**
   * The great-circle distance in km from an origin to a point. The trigonometry
   * is outside the model; every function that needs it takes it as a parameter.
   */
  type DistanceFn = (Location, Location) -> real

  /** Classification by a priority table: the category of the first row with a tag in `types`. */
  function FirstMatch(rules: seq<(seq<string>, Category)>, types: seq<string>): (c: Category)
    ensures c == TouristSpot || exists k :: 0 <= k < |rules| && rules[k].1 == c
  {
    if |rules| == 0 then TouristSpot
    else if exists t :: t in rules[0].0 && t in types then rules[0].1
    else FirstMatch(rules[1..], types)
  }
}
