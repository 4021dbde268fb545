/**
 * The state of the discovery page (src/pages/Index.tsx): the place list, the
 * displayed list, buses, the filter, sort and query choices, and the debounce
 * effect that recomputes the displayed list. The 500 ms timer is an `armed`
 * flag: a change to query, places, filter or sort arms it, and `FireDebounce`
 * is the timer going off with the latest values.
 */
module Controller {
  import opened Wrappers
  import opened Types
  import opened Text
  import opened Discovery
  import PlaceSearch
  import TransitRoutes

  /** What `supabase.functions.invoke` yields: a thrown error, or data that may lack the expected field. */
  datatype Reply<T> = Failed | Answered(payload: Option<T>)

  datatype ViewState = ViewState(
    places: seq<Place>,
    displayed: seq<Place>,
    buses: seq<Bus>,
    activeFilter: FilterType,
    sortBy: SortType,
    query: string,
    coords: Option<Location>,
    searching: bool,
    loading: bool,
    armed: bool)

  /** The state on mount; the effect runs once after the first render, so the timer starts armed. */
  const INITIAL := ViewState([], [], [], All, ByDistance, "", None, false, true, true)

  /** React re-runs the effect only when a dependency changes (`Object.is`). */
  function SetQuery(st: ViewState, q: string): (r: ViewState)
    ensures r.query == q && r.armed == (st.armed || q != st.query)
    ensures r.(query := st.query, armed := st.armed) == st
  {
    st.(query := q, armed := st.armed || q != st.query)
  }

  function SetFilter(st: ViewState, f: FilterType): (r: ViewState)
    ensures r.activeFilter == f && r.armed == (st.armed || f != st.activeFilter)
    ensures r.(activeFilter := st.activeFilter, armed := st.armed) == st
  {
    st.(activeFilter := f, armed := st.armed || f != st.activeFilter)
  }

  function SetSort(st: ViewState, b: SortType): (r: ViewState)
    ensures r.sortBy == b && r.armed == (st.armed || b != st.sortBy)
    ensures r.(sortBy := st.sortBy, armed := st.armed) == st
  {
    st.(sortBy := b, armed := st.armed || b != st.sortBy)
  }

  /** The remote text search the page asks for. */
  datatype SearchCall = SearchCall(query: string, latitude: real, longitude: real)

  datatype Fired = Fired(state: ViewState, call: Option<SearchCall>)

  /**
   * The timer goes off. An empty query shows the filtered, sorted places; a
   * non-empty one goes to `searchPlaces`, which shows the raw places when the
   * trimmed query is empty or there are no coordinates, and otherwise starts a
   * remote search and leaves the display as it is.
   */
  function FireDebounce(st: ViewState): (r: Fired)
    ensures !st.armed ==> r == Fired(st, None)
    ensures st.armed ==> !r.state.armed
    ensures r.state.(displayed := st.displayed, searching := st.searching, armed := st.armed) == st
    ensures st.armed && st.query == "" ==>
              r.call.None? && r.state.displayed == DeriveLocal(st.places, st.activeFilter, st.sortBy)
    ensures st.armed && st.query != "" && (IsBlank(st.query) || st.coords.None?) ==>
              r.call.None? && r.state.displayed == st.places
    ensures r.call.Some? <==> st.armed && st.query != "" && !IsBlank(st.query) && st.coords.Some?
    ensures r.call.Some? ==>
              r.state.searching && r.state.displayed == st.displayed &&
              r.call.value == SearchCall(st.query, st.coords.value.lat, st.coords.value.lng)
  {
    if !st.armed then Fired(st, None)
    else if st.query == "" then
      Fired(st.(displayed := DeriveLocal(st.places, st.activeFilter, st.sortBy), armed := false), None)
    else
      TrimEmptyIffBlank(st.query);
      if Trim(st.query) == "" || st.coords.None? then Fired(st.(displayed := st.places, armed := false), None)
      else
        Fired(st.(searching := true, armed := false),
              Some(SearchCall(st.query, st.coords.value.lat, st.coords.value.lng)))
  }

  /**
   * With an empty query the displayed list holds exactly the places of the
   * active category (all of them for 'all'), each as often as in `places`,
   * ordered by the sort key with ties in input order.
   */
  lemma LocalDisplay(st: ViewState)
    requires st.armed && st.query == ""
    ensures var shown := FireDebounce(st).state.displayed;
            && (forall q :: multiset(shown)[q] == if Matches(st.activeFilter, q) then multiset(st.places)[q] else 0)
            && (forall q :: q in shown ==> Matches(st.activeFilter, q))
            && (st.activeFilter == All ==> multiset(shown) == multiset(st.places))
            && AdjacentSorted(st.sortBy, shown)
  {
    DeriveLocalMatches(st.places, st.activeFilter, st.sortBy);
  }

  /** The search the page sends passes the backend's input gate unless a coordinate is exactly 0. */
  lemma SearchCallPassesGate(st: ViewState)
    requires FireDebounce(st).call.Some?
    ensures var c := FireDebounce(st).call.value;
            PlaceSearch.InputOk(PlaceSearch.SearchRequest(Some(c.query), Some(c.latitude), Some(c.longitude)))
            <==> c.latitude != 0.0 && c.longitude != 0.0
  {
  }

  /**
   * The end of `searchPlaces`: a list in the reply replaces the display
   * verbatim; a failure or a reply without a list leaves it unchanged.
   */
  function ApplySearchReply(st: ViewState, reply: Reply<seq<Place>>): (r: ViewState)
    ensures !r.searching
    ensures reply.Answered? && reply.payload.Some? ==> r.displayed == reply.payload.value
    ensures !(reply.Answered? && reply.payload.Some?) ==> r.displayed == st.displayed
    ensures r.(displayed := st.displayed, searching := st.searching) == st
  {
    match reply
    case Answered(Some(found)) => st.(displayed := found, searching := false)
    case _ => st.(searching := false)
  }

  /** No generation check: the reply lands whatever the filter, sort or current query are by then. */
  lemma SearchReplyIgnoresViewChoices(st: ViewState, reply: Reply<seq<Place>>, f: FilterType, b: SortType, q: string)
    ensures ApplySearchReply(st.(activeFilter := f, sortBy := b, query := q), reply).displayed
            == ApplySearchReply(st, reply).displayed
  {
  }

  /** How the page sees a backend result: an error reply is thrown, a success carries the list. */
  function ReplyOf<T>(r: Result<T>): Reply<T> {
    if r.Ok? then Answered(Some(r.value)) else Failed
  }

  /** A successful backend search is displayed as the backend built it; a failed one changes nothing. */
  lemma SearchRoundTrip(st: ViewState, server: Result<seq<Place>>)
    ensures server.Ok? ==> ApplySearchReply(st, ReplyOf(server)).displayed == server.value
    ensures server.Err? ==> ApplySearchReply(st, ReplyOf(server)).displayed == st.displayed
  {
  }

  /**
   * The end of `fetchNearbyPlaces`: a list sets both the places and the display
   * to it (and, being a new array, re-arms the timer); loading always ends.
   */
  function ApplyNearbyReply(st: ViewState, reply: Reply<seq<Place>>): (r: ViewState)
    ensures !r.loading
    ensures reply.Answered? && reply.payload.Some? ==>
              r.places == reply.payload.value && r.displayed == reply.payload.value && r.armed
    ensures !(reply.Answered? && reply.payload.Some?) ==> r == st.(loading := false)
    ensures r.(places := st.places, displayed := st.displayed, loading := st.loading, armed := st.armed) == st
  {
    match reply
    case Answered(Some(found)) => st.(places := found, displayed := found, loading := false, armed := true)
    case _ => st.(loading := false)
  }

  /** After nearby places arrive, the next timer with an empty query sorts and filters the new list. */
  lemma NearbyThenFire(st: ViewState, found: seq<Place>)
    requires st.query == ""
    ensures var after := FireDebounce(ApplyNearbyReply(st, Answered(Some(found)))).state;
            after.displayed == DeriveLocal(found, st.activeFilter, st.sortBy) && after.places == found
  {
  }

  /**
   * `fetchTransitRoutes`: without coordinates nothing happens; a failure
   * empties the buses; a list replaces them.
   */
  function ApplyTransitReply(st: ViewState, reply: Reply<seq<Bus>>): (r: ViewState)
    ensures st.coords.None? ==> r == st
    ensures st.coords.Some? && reply.Failed? ==> r == st.(buses := [])
    ensures st.coords.Some? && reply.Answered? && reply.payload.Some? ==> r == st.(buses := reply.payload.value)
    ensures reply.Answered? && reply.payload.None? ==> r == st
  {
    if st.coords.None? then st
    else match reply
      case Failed => st.(buses := [])
      case Answered(Some(found)) => st.(buses := found)
      case Answered(None) => st
  }

  /**
   * The first load: on mount the timer fires with no places yet, then the
   * nearby places arrive, and the next timer shows them by distance, all
   * categories, with loading over.
   */
  lemma FirstLoad(found: seq<Place>)
    ensures var mounted := FireDebounce(INITIAL);
            var loaded := FireDebounce(ApplyNearbyReply(mounted.state, Answered(Some(found))));
            && mounted.call.None? && mounted.state.displayed == []
            && loaded.call.None? && !loaded.state.loading
            && loaded.state.displayed == DeriveLocal(found, All, ByDistance)
            && multiset(loaded.state.displayed) == multiset(found)
  {
  }

  /** Whether the transit function succeeds or fails, the page ends with the `buses` of its reply body. */
  lemma TransitRoundTrip(st: ViewState, server: Result<seq<Bus>>)
    requires st.coords.Some?
    ensures ApplyTransitReply(st, ReplyOf(server)).buses == TransitRoutes.ResponseBuses(server)
  {
  }
}
