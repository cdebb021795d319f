/**
 * The data of one place search: the request, the two providers' replies
 * (already decoded from JSON), the per-place record that the view builds,
 * and the rows that it persists (SearchHistory and RecommendedPlace).
 */
module PlaceModel {
  import opened Wrappers

  /** A coordinate in degrees. */
  datatype Coord = Coord(lat: real, lng: real)

  /** The query parameters the view reads; None when a parameter is absent. */
  datatype Request = Request(q: Option<string>, lat: Option<string>, lng: Option<string>)

  /**
   * One entry of the text-search "results" list. `lat` and `lng` are
   * geometry.location.lat/lng, None when any level of that path is missing.
   */
  datatype RawPlace = RawPlace(
    name: Option<string>,
    formattedAddress: Option<string>,
    vicinity: Option<string>,
    rating: Option<real>,
    userRatingsTotal: Option<int>,
    lat: Option<real>,
    lng: Option<real>)

  /** The parameters of the text-search request. */
  datatype PlacesQuery = PlacesQuery(query: string, location: Coord, radius: int, key: string)

  /**
   * What the text-search call yields: an exception (with its text) or the
   * decoded body's "results" list (an absent list reads as []).
   */
  datatype PlacesReply = PlacesFailed(error: string) | PlacesData(results: seq<RawPlace>)

  /** One distance-matrix element: its status and distance.value / duration.value. */
  datatype Element = Element(status: Option<string>, distanceValue: int, durationValue: int)

  /** The parameters of the distance-matrix request. */
  datatype DistanceQuery = DistanceQuery(
    origin: Coord,
    destinations: seq<Coord>,
    mode: string,
    units: string,
    key: string)

  /**
   * What the distance-matrix call yields: an exception, or the decoded
   * body's top-level status and the "elements" of each row. An absent
   * "rows" key reads as [[]] (the code's default [{}]), a row without
   * "elements" as [].
   */
  datatype DistanceReply = DistanceFailed | DistanceData(status: Option<string>, rows: seq<seq<Element>>)

  /**
   * settings.GOOGLE_MAPS_API_KEY, read as a plain attribute: either not
   * defined at all (reading it raises AttributeError), or defined with a
   * value, None when it is set to None.
   */
  datatype KeySetting = Undefined | Defined(setting: Option<string>)

  /** A provider request the view issued, in the order issued. */
  datatype Call = TextSearch(placesQuery: PlacesQuery) | DistanceMatrix(distanceQuery: DistanceQuery)

  /** The dictionary the view builds per place and then mutates in place. */
  datatype Candidate = Candidate(
    name: Option<string>,
    address: string,
    rating: Option<real>,
    userRatingsCount: Option<int>,
    latitude: Option<real>,
    longitude: Option<real>,
    description: string,
    reviewSummary: string,
    distanceM: Option<int>,
    walkingTimeMin: Option<int>,
    isBest: bool)

  /** A RecommendedPlace row (places_api/models.py). */
  datatype StoredPlace = StoredPlace(
    name: Option<string>,
    address: string,
    rating: Option<real>,
    userRatingsCount: int,
    description: string,
    reviewSummary: string,
    distanceM: Option<int>,
    walkingTimeMin: Option<int>,
    isBest: bool)

  /** A SearchHistory row together with its RecommendedPlace children, in creation order. */
  datatype SearchRecord = SearchRecord(
    query: string,
    latitude: real,
    longitude: real,
    searchTime: int,
    places: seq<StoredPlace>)

  /**
   * The HTTP outcome. Ok carries the persisted record and the serializer's
   * best_recommendation; Unhandled is an exception the view does not catch,
   * which the framework turns into a 500.
   */
  datatype Response =
    | BadRequest(error: string)
    | ServerError(error: string)
    | BadGateway(error: string)
    | NoPlaces(message: string)
    | Ok(record: SearchRecord, bestRecommendation: Option<StoredPlace>)
    | Unhandled(exception: string)

  /** A response together with the provider calls made to produce it. */
  datatype Run = Run(response: Response, calls: seq<Call>)

  /** Python truthiness of an optional string: present and non-empty. */
  predicate Truthy(s: Option<string>) {
    s.Some? && s.value != ""
  }

  /** Python truthiness of an optional number: present and non-zero. */
  predicate TruthyReal(x: Option<real>) {
    x.Some? && x.value != 0.0
  }

  const DefaultOrigin := Coord(35.6895, 139.6917)
  const SearchRadius := 5000
  const MaxResults := 5
  const WalkingMode := "walking"
  const MetricUnits := "metric"
  const OkStatus := "OK"

  const NoQueryError := "No search query provided."
  const BadCoordinatesError := "Invalid latitude/longitude format."
  const NoKeyError := "Server Google API key not configured."
  const PlacesFailedPrefix := "Places API request failed: "
  const NoPlacesMessage := "No places found for the given query."
  const IndexErrorName := "IndexError"
  const AttributeErrorName := "AttributeError"

  const OutstandingSummary := "Users give it outstanding reviews, praising its quality and experience."
  const VeryGoodSummary := "Users give it very good reviews overall, with most customers being satisfied."
  const MixedSummary := "Reviews are mixed, with both positive feedback and some criticisms."
  const BelowAverageSummary := "This place has below-average reviews from customers."
  const UnavailableDescription := "Details are unavailable for this place."
}
