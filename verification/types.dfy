/** The application's canonical records: places, buses and the view's filter and sort choices. */
module Types {
  import opened Wrappers

  datatype Location = Location(lat: real, lng: real)

  /** The five place categories; a place has exactly one. */
  datatype Category = Temple | TouristSpot | Park | Monument | Museum

  /** The string the application stores in `Place.category`. */
  function CategoryName(c: Category): string {
    match c
    case Temple => "Temple"
    case TouristSpot => "Tourist Spot"
    case Park => "Park"
    case Monument => "Monument"
    case Museum => "Museum"
  }

  /** Reads a category string back; any other string is not a category. */
  function ParseCategory(s: string): Option<Category> {
    if s == "Temple" then Some(Temple)
    else if s == "Tourist Spot" then Some(TouristSpot)
    else if s == "Park" then Some(Park)
    else if s == "Monument" then Some(Monument)
    else if s == "Museum" then Some(Museum)
    else None
  }

  /** The category names are exactly the five strings of the union type, and each reads back as itself. */
  lemma CategoryNameRoundTrip(c: Category, s: string)
    ensures ParseCategory(CategoryName(c)) == Some(c)
    ensures ParseCategory(s).Some? ==> CategoryName(ParseCategory(s).value) == s
  {
  }

  datatype Festival = Festival(id: string, name: string, date: string, description: string,
                               images: seq<string>, isPast: bool)

  /** A point of interest; `distance` is in km from the current origin. */
  datatype Place = Place(
    id: string,
    name: string,
    category: Category,
    description: string,
    location: Location,
    distance: real,
    image: string,
    thumbnail: string,
    rating: real,
    timings: string,
    entryFee: string,
    festivalInfo: Option<seq<Festival>>)

  /** The four bus kinds of `Bus.type`. */
  datatype BusType = AC | NonAC | Express | Luxury

  function BusTypeName(t: BusType): string {
    match t
    case AC => "AC"
    case NonAC => "Non-AC"
    case Express => "Express"
    case Luxury => "Luxury"
  }

  /** Reads a bus-type string back; any other string is not a bus type. */
  function ParseBusType(s: string): Option<BusType> {
    if s == "AC" then Some(AC)
    else if s == "Non-AC" then Some(NonAC)
    else if s == "Express" then Some(Express)
    else if s == "Luxury" then Some(Luxury)
    else None
  }

  /** The bus-type names are exactly the four strings of the union type, and each reads back as itself. */
  lemma BusTypeNameRoundTrip(t: BusType, s: string)
    ensures ParseBusType(BusTypeName(t)) == Some(t)
    ensures ParseBusType(s).Some? ==> BusTypeName(ParseBusType(s).value) == s
  {
  }

  datatype Bus = Bus(
    id: string,
    number: string,
    name: string,
    busType: BusType,
    departureTime: string,
    arrivalTime: string,
    fare: int,
    route: string)

  /** `'all'` or one category. */
  datatype FilterType = All | Only(category: Category)

  datatype SortType = ByDistance | ByRating | ByEntryFee

  /** Whether the category filter keeps `p`. */
  predicate Matches(f: FilterType, p: Place) {
    f.All? || p.category == f.category
  }
}
