/** The place-details backend function: status gate, photo and review truncation, timings precedence, defaults. */
module PlaceDetails {
  import opened Wrappers
  import opened Types
  import opened Text
  import opened Provider

  datatype RawReview = RawReview(authorName: string, rating: real, text: string, relativeTime: string)

  /** The `result` object of a details reply. */
  datatype DetailsRecord = DetailsRecord(
    name: string,
    formattedAddress: Option<string>,
    phone: Option<string>,
    website: Option<string>,
    rating: Option<real>,
    reviews: Option<seq<RawReview>>,
    photos: Option<seq<Photo>>,
    openingHours: Option<OpeningHours>,
    location: Location)

  datatype DetailsReply = DetailsReply(status: string, result: DetailsRecord)

  datatype Review = Review(author: string, rating: real, text: string, time: string)

  /** The response body; `website` is `null` when `None`. */
  datatype Details = Details(
    name: string,
    address: Option<string>,
    phone: string,
    website: Option<string>,
    rating: real,
    reviews: seq<Review>,
    photos: seq<string>,
    timings: string,
    location: Location)

  const NOT_AVAILABLE := "Not available"
  const MAX_PHOTOS := 5
  const MAX_REVIEWS := 3

  function Min(a: nat, b: nat): nat {
    if a <= b then a else b
  }

  /** `photos?.slice(0, 5).map(photo => url) || []`. */
  function PhotoUrls(photos: Option<seq<Photo>>, apiKey: string): (r: seq<string>)
    ensures photos.None? ==> r == []
    ensures photos.Some? ==> |r| == Min(MAX_PHOTOS, |photos.value|)
    ensures forall i :: 0 <= i < |r| ==> r[i] == PhotoUrl("800", photos.value[i].reference, apiKey)
  {
    if photos.None? then []
    else
      var kept := photos.value[..Min(MAX_PHOTOS, |photos.value|)];
      seq(|kept|, i requires 0 <= i < |kept| => PhotoUrl("800", kept[i].reference, apiKey))
  }

  /** `reviews?.slice(0, 3).map(...) || []`. */
  function Reviews(reviews: Option<seq<RawReview>>): (r: seq<Review>)
    ensures reviews.None? ==> r == []
    ensures reviews.Some? ==> |r| == Min(MAX_REVIEWS, |reviews.value|)
    ensures forall i :: 0 <= i < |r| ==>
              var src := reviews.value[i];
              r[i] == Review(src.authorName, src.rating, src.text, src.relativeTime)
  {
    if reviews.None? then []
    else
      var kept := reviews.value[..Min(MAX_REVIEWS, |reviews.value|)];
      seq(|kept|, i requires 0 <= i < |kept| =>
        Review(kept[i].authorName, kept[i].rating, kept[i].text, kept[i].relativeTime))
  }

  /**
   * Weekly hours text first (any array is truthy, so an empty one gives ""),
   * then the live open flag, then "Hours not available".
   */
  function Timings(hours: Option<OpeningHours>): (t: string)
    ensures hours.Some? && hours.value.weekdayText.Some? ==> t == Join(hours.value.weekdayText.value, ", ")
    ensures (hours.None? || hours.value.weekdayText.None?) ==>
              t == (if hours.Some? && hours.value.openNow.Some? then
                      (if hours.value.openNow.value then OPEN_NOW else CLOSED)
                    else HOURS_NOT_AVAILABLE)
  {
    if hours.Some? && hours.value.weekdayText.Some? then Join(hours.value.weekdayText.value, ", ")
    else if hours.Some? && hours.value.openNow.Some? then (if hours.value.openNow.value then OPEN_NOW else CLOSED)
    else HOURS_NOT_AVAILABLE
  }

  /** The whole function: only status OK is accepted, then the record is reshaped. */
  function FetchDetails(reply: DetailsReply, apiKey: string): (r: Result<Details>)
    ensures reply.status != OK ==> r == Err("Google API error: " + reply.status)
    ensures reply.status == OK ==> r.Ok?
    ensures r.Ok? ==>
              var d, src := r.value, reply.result;
              && d.name == src.name && d.address == src.formattedAddress && d.location == src.location
              && |d.photos| <= MAX_PHOTOS && |d.reviews| <= MAX_REVIEWS
              && d.photos == PhotoUrls(src.photos, apiKey) && d.reviews == Reviews(src.reviews)
              && d.timings == Timings(src.openingHours)
              && (Truthy(src.phone) ==> d.phone == src.phone.value)
              && (!Truthy(src.phone) ==> d.phone == NOT_AVAILABLE)
              && (Truthy(src.website) ==> d.website == src.website)
              && (!Truthy(src.website) ==> d.website.None?)
              && (TruthyNumber(src.rating) ==> d.rating == src.rating.value)
              && (!TruthyNumber(src.rating) ==> d.rating == 0.0)
  {
    if reply.status != OK then Err("Google API error: " + reply.status)
    else
      var src := reply.result;
      Ok(Details(
        name := src.name,
        address := src.formattedAddress,
        phone := OrElse(src.phone, NOT_AVAILABLE),
        website := if Truthy(src.website) then src.website else None,
        rating := NumberOr(src.rating, 0.0),
        reviews := Reviews(src.reviews),
        photos := PhotoUrls(src.photos, apiKey),
        timings := Timings(src.openingHours),
        location := src.location))
  }

  /** Unlike the list functions, a details reply with ZERO_RESULTS is an error. */
  lemma DetailsRejectsZeroResults(reply: DetailsReply, apiKey: string)
    requires reply.status == ZERO_RESULTS
    ensures FetchDetails(reply, apiKey).Err?
  {
  }

  /**
   * Weekly hours take precedence over the open flag, whatever it says: with
   * any weekday array present, replacing the flag leaves the text unchanged,
   * and a single line is the text itself.
   */
  lemma WeeklyHoursWin(hours: OpeningHours, flag: Option<bool>)
    requires hours.weekdayText.Some?
    ensures Timings(Some(hours)) == Timings(Some(OpeningHours(flag, hours.weekdayText)))
    ensures |hours.weekdayText.value| == 1 ==> Timings(Some(hours)) == hours.weekdayText.value[0]
  {
  }

  /** An empty weekday array is still present, so it gives "" and not the open flag's text. */
  lemma EmptyWeeklyHoursBlank(flag: Option<bool>)
    ensures Timings(Some(OpeningHours(flag, Some([])))) == ""
    ensures Timings(Some(OpeningHours(flag, Some([])))) != Timings(Some(OpeningHours(flag, None)))
  {
  }
}
