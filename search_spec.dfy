/**
 * Reference definitions of every stage of the place-search view, as
 * values: what each loop of the view computes, and the whole run
 * (response plus provider calls) as one function of its inputs.
 */
module SearchSpec {
  import opened Wrappers
  import opened PlaceModel

  function Min(a: int, b: int): int {
    if a <= b then a else b
  }

  // ---------------------------------------------------------------- origin

  /**
   * The origin of the search. None stands for the 400 "invalid format"
   * exit; `parse` is Python's float() on a parameter, None when it raises.
   */
  function ResolveOrigin(lat: Option<string>, lng: Option<string>, parse: string -> Option<real>): (r: Option<Coord>)
    ensures !(Truthy(lat) && Truthy(lng)) ==> r == Some(DefaultOrigin)
    ensures Truthy(lat) && Truthy(lng) ==>
              (r.Some? <==> parse(lat.value).Some? && parse(lng.value).Some?)
    ensures Truthy(lat) && Truthy(lng) && r.Some? ==>
              r.value == Coord(parse(lat.value).value, parse(lng.value).value)
  {
    if Truthy(lat) && Truthy(lng) then
      var la := parse(lat.value);
      var ln := parse(lng.value);
      if la.None? || ln.None? then None else Some(Coord(la.value, ln.value))
    else
      Some(DefaultOrigin)
  }

  // ------------------------------------------------------------ candidates

  /** `formatted_address`, else `vicinity`, else the empty string. */
  function Address(p: RawPlace): string {
    if Truthy(p.formattedAddress) then p.formattedAddress.value
    else if p.vicinity.Some? then p.vicinity.value
    else ""
  }

  /** The record the view starts from for one provider place. */
  function Skeleton(p: RawPlace): Candidate {
    Candidate(p.name, Address(p), p.rating, p.userRatingsTotal, p.lat, p.lng,
              "", "", None, None, false)
  }

  function Skeletons(top: seq<RawPlace>): seq<Candidate> {
    seq(|top|, i requires 0 <= i < |top| => Skeleton(top[i]))
  }

  /** Whether the place contributes a destination: both coordinates truthy. */
  predicate HasCoords(p: RawPlace) {
    TruthyReal(p.lat) && TruthyReal(p.lng)
  }

  function CoordOf(p: RawPlace): Coord
    requires HasCoords(p)
  {
    Coord(p.lat.value, p.lng.value)
  }

  /** The destination list, built like the view builds it: one append per place. */
  function Destinations(top: seq<RawPlace>): seq<Coord>
    decreases |top|
  {
    if top == [] then []
    else
      var last := top[|top| - 1];
      Destinations(top[..|top| - 1]) + (if HasCoords(last) then [CoordOf(last)] else [])
  }

  /** The provider indices of the places that contribute a destination. */
  function CoordIndices(top: seq<RawPlace>): seq<nat>
    decreases |top|
  {
    if top == [] then []
    else
      CoordIndices(top[..|top| - 1]) + (if HasCoords(top[|top| - 1]) then [|top| - 1] else [])
  }

  /** Whether element k of the reply is written to the place it measured. */
  predicate AlignedAt(top: seq<RawPlace>, k: nat) {
    k < |CoordIndices(top)| && CoordIndices(top)[k] == k
  }

  // -------------------------------------------------------------- distance

  /** How the distance-matrix reply is read. */
  datatype Elements =
    | Skipped                          // exception, or top-level status not "OK"
    | RowsMissing                      // status "OK" but rows == []: rows[0] raises IndexError
    | ElementsRead(elements: seq<Element>)

  function ReadElements(reply: DistanceReply): (r: Elements)
    ensures r.Skipped? <==> reply.DistanceFailed? || reply.status != Some(OkStatus)
    ensures r.RowsMissing? <==> reply.DistanceData? && reply.status == Some(OkStatus) && reply.rows == []
    ensures r.ElementsRead? ==> reply.DistanceData? && reply.rows != [] && r.elements == reply.rows[0]
  {
    match reply
    case DistanceFailed => Skipped
    case DistanceData(status, rows) =>
      if status != Some(OkStatus) then Skipped
      else if rows == [] then RowsMissing
      else ElementsRead(rows[0])
  }

  /** Python's `int(dur_s // 60)`: floor division by a positive divisor. */
  function WalkingMinutes(seconds: int): (m: int)
    ensures m * 60 <= seconds < m * 60 + 60
  {
    seconds / 60
  }

  function WithDistance(c: Candidate, e: Element): Candidate {
    c.(distanceM := Some(e.distanceValue), walkingTimeMin := Some(WalkingMinutes(e.durationValue)))
  }

  predicate ElementOk(elements: seq<Element>, i: int) {
    0 <= i < |elements| && elements[i].status == Some(OkStatus)
  }

  /** Element i, when OK, is written to candidate i (positional, not per destination). */
  function Enriched(places: seq<Candidate>, elements: seq<Element>): (r: seq<Candidate>)
    ensures |r| == |places|
    ensures forall i :: 0 <= i < |places| ==>
              r[i].(distanceM := places[i].distanceM, walkingTimeMin := places[i].walkingTimeMin) == places[i]
    ensures forall i :: 0 <= i < |places| && !ElementOk(elements, i) ==> r[i] == places[i]
  {
    seq(|places|, i requires 0 <= i < |places| =>
      if ElementOk(elements, i) then WithDistance(places[i], elements[i]) else places[i])
  }

  /** The elements written into the records, [] when none are. */
  function ElementsFor(top: seq<RawPlace>, origin: Coord, key: string,
                       distanceApi: DistanceQuery -> DistanceReply): seq<Element>
  {
    var destinations := Destinations(top);
    if destinations == [] then []
    else
      match ReadElements(distanceApi(DistanceMatrixQuery(origin, destinations, key)))
      case ElementsRead(elements) => elements
      case _ => []
  }

  /** Whether reading the distance reply raises IndexError. */
  predicate DistanceCrash(top: seq<RawPlace>, origin: Coord, key: string,
                          distanceApi: DistanceQuery -> DistanceReply)
  {
    var destinations := Destinations(top);
    destinations != [] &&
    ReadElements(distanceApi(DistanceMatrixQuery(origin, destinations, key))).RowsMissing?
  }

  // ------------------------------------------------------------ annotation

  /** The review tier: 3 outstanding, 2 very good, 1 mixed, 0 below average. */
  function Tier(rating: Option<real>): (t: nat)
    ensures t <= 3
    ensures t == 3 <==> TruthyReal(rating) && rating.value >= 4.5
    ensures t >= 2 <==> TruthyReal(rating) && rating.value >= 4.0
    ensures t >= 1 <==> TruthyReal(rating) && rating.value >= 3.0
  {
    if TruthyReal(rating) && rating.value >= 4.5 then 3
    else if TruthyReal(rating) && rating.value >= 4.0 then 2
    else if TruthyReal(rating) && rating.value >= 3.0 then 1
    else 0
  }

  function SummaryText(tier: nat): string {
    if tier == 3 then OutstandingSummary
    else if tier == 2 then VeryGoodSummary
    else if tier == 1 then MixedSummary
    else BelowAverageSummary
  }

  function ReviewSummary(rating: Option<real>): string {
    SummaryText(Tier(rating))
  }

  function DigitChar(d: int): char
    requires 0 <= d < 10
  {
    "0123456789"[d]
  }

  /** Python's str() of a non-negative int. */
  function NatText(n: nat): (s: string)
    ensures |s| > 0
    decreases n
  {
    if n < 10 then [DigitChar(n)] else NatText(n / 10) + [DigitChar(n % 10)]
  }

  /** Python's str() of an int. */
  function IntText(n: int): string {
    if n < 0 then "-" + NatText(-n) else NatText(n)
  }

  /** The f-string rendering of an optional rating; float repr is a parameter. */
  function RatingText(rating: Option<real>, formatReal: real -> string): string {
    if rating.Some? then formatReal(rating.value) else "None"
  }

  function CountText(count: Option<int>): string {
    if count.Some? then IntText(count.value) else "None"
  }

  const RecommendedFor := " is a recommended place for "

  function Describe(name: string, query: string, rating: Option<real>, count: Option<int>,
                    formatReal: real -> string): string
  {
    name + RecommendedFor + query + ". It has a rating of " + RatingText(rating, formatReal)
      + " based on " + CountText(count) + " reviews."
  }

  function Annotated(c: Candidate, query: string, formatReal: real -> string): Candidate {
    if Truthy(c.name) then
      c.(description := Describe(c.name.value, query, c.rating, c.userRatingsCount, formatReal),
         reviewSummary := ReviewSummary(c.rating))
    else
      c.(description := UnavailableDescription, reviewSummary := "")
  }

  function Annotate(places: seq<Candidate>, query: string, formatReal: real -> string): seq<Candidate> {
    seq(|places|, i requires 0 <= i < |places| => Annotated(places[i], query, formatReal))
  }

  // -------------------------------------------------------- best selection

  function Ratings(places: seq<Candidate>): seq<Option<real>> {
    seq(|places|, i requires 0 <= i < |places| => places[i].rating)
  }

  function RawRatings(top: seq<RawPlace>): seq<Option<real>> {
    seq(|top|, i requires 0 <= i < |top| => top[i].rating)
  }

  /** The loop's accumulators best_index and highest_rating. */
  datatype Leader = Leader(index: nat, highest: real)

  /** The accumulators after the loop has seen every rating of `rs`. */
  function Scan(rs: seq<Option<real>>): Leader
    decreases |rs|
  {
    if rs == [] then Leader(0, -1.0)
    else
      var prev := Scan(rs[..|rs| - 1]);
      var r := rs[|rs| - 1];
      if TruthyReal(r) && r.value > prev.highest then Leader(|rs| - 1, r.value) else prev
  }

  function BestIndex(rs: seq<Option<real>>): nat {
    Scan(rs).index
  }

  /**
   * A rating that can win: truthy and above the initial highest_rating
   * of -1 (a rating of -1 or below is truthy but never beats it).
   */
  predicate Eligible(r: Option<real>) {
    TruthyReal(r) && r.value > -1.0
  }

  predicate SomeEligible(rs: seq<Option<real>>) {
    exists j :: 0 <= j < |rs| && Eligible(rs[j])
  }

  /**
   * Independent description of the winner: the lowest index holding the
   * highest eligible rating, or 0 when no rating is eligible.
   */
  predicate IsFirstHighest(rs: seq<Option<real>>, b: nat) {
    if SomeEligible(rs) then
      && b < |rs|
      && Eligible(rs[b])
      && (forall j :: 0 <= j < |rs| && Eligible(rs[j]) ==> rs[j].value <= rs[b].value)
      && (forall j :: 0 <= j < b && Eligible(rs[j]) ==> rs[j].value < rs[b].value)
    else
      b == 0
  }

  /** Only is_best changes, and it is set on the best index and nowhere else that was unset. */
  function MarkBest(places: seq<Candidate>, best: nat): (r: seq<Candidate>)
    ensures |r| == |places|
    ensures forall i :: 0 <= i < |places| ==>
              && r[i].(isBest := places[i].isBest) == places[i]
              && (r[i].isBest <==> places[i].isBest || i == best)
  {
    if best < |places| then places[best := places[best].(isBest := true)] else places
  }

  // ----------------------------------------------------------- persistence

  /** `user_ratings_count or 0`. */
  function CountOrZero(count: Option<int>): (n: int)
    ensures n == 0 <==> count.None? || count.value == 0
    ensures n != 0 ==> count == Some(n)
  {
    if count.Some? && count.value != 0 then count.value else 0
  }

  /** The RecommendedPlace row for one final record. */
  function Stored(c: Candidate): StoredPlace {
    StoredPlace(c.name, c.address, c.rating, CountOrZero(c.userRatingsCount),
                c.description, c.reviewSummary, c.distanceM, c.walkingTimeMin, c.isBest)
  }

  function StoredAll(places: seq<Candidate>): seq<StoredPlace> {
    seq(|places|, i requires 0 <= i < |places| => Stored(places[i]))
  }

  /** The row persisted for a record: annotated, flagged, copied into a RecommendedPlace. */
  function FinalPlace(c: Candidate, query: string, formatReal: real -> string, best: bool): StoredPlace {
    Stored(Annotated(c, query, formatReal).(isBest := best))
  }

  /** The serializer's best_recommendation: the first child with is_best, if any. */
  function BestRecommendation(places: seq<StoredPlace>): (r: Option<StoredPlace>)
    ensures r.Some? <==> exists i :: 0 <= i < |places| && places[i].isBest
    ensures r.Some? ==> exists i :: 0 <= i < |places| && places[i].isBest && r.value == places[i]
                                      && forall j :: 0 <= j < i ==> !places[j].isBest
    decreases |places|
  {
    if places == [] then None
    else if places[0].isBest then Some(places[0])
    else
      var rest := BestRecommendation(places[1..]);
      assert forall i :: 1 <= i < |places| ==> places[i] == places[1..][i - 1];
      rest
  }

  // ------------------------------------------------------------- whole run

  /** From the annotation loop to the response, for the final candidate list. */
  function Finish(query: string, origin: Coord, candidates: seq<Candidate>,
                  formatReal: real -> string, now: int, calls: seq<Call>): Run
  {
    var best := BestIndex(Ratings(candidates));
    var marked := MarkBest(Annotate(candidates, query, formatReal), best);
    var stored := StoredAll(marked);
    Run(Ok(SearchRecord(query, origin.lat, origin.lng, now, stored), BestRecommendation(stored)), calls)
  }

  function TextSearchQuery(query: string, origin: Coord, key: string): PlacesQuery {
    PlacesQuery(query, origin, SearchRadius, key)
  }

  function DistanceMatrixQuery(origin: Coord, destinations: seq<Coord>, key: string): DistanceQuery {
    DistanceQuery(origin, destinations, WalkingMode, MetricUnits, key)
  }

  /**
   * From a non-empty result list to the response; `prior` are the calls
   * made before (the text search). The run persists a record unless
   * reading the distance reply raises IndexError.
   */
  function Pipeline(query: string, origin: Coord, key: string, results: seq<RawPlace>,
                    distanceApi: DistanceQuery -> DistanceReply,
                    formatReal: real -> string, now: int, prior: seq<Call>): (r: Run)
    ensures r.response.Ok? || r.response == Unhandled(IndexErrorName)
    ensures |prior| < |r.calls| <==> Destinations(results[..Min(MaxResults, |results|)]) != []
    ensures prior <= r.calls
  {
    var calls := prior;
    var top := results[..Min(MaxResults, |results|)];
    var candidates := Skeletons(top);
    var destinations := Destinations(top);
    if destinations == [] then Finish(query, origin, candidates, formatReal, now, calls)
    else
      var dq := DistanceMatrixQuery(origin, destinations, key);
      var calls' := calls + [DistanceMatrix(dq)];
      match ReadElements(distanceApi(dq))
      case Skipped => Finish(query, origin, candidates, formatReal, now, calls')
      case RowsMissing => Run(Unhandled(IndexErrorName), calls')
      case ElementsRead(elements) => Finish(query, origin, Enriched(candidates, elements), formatReal, now, calls')
  }

  /** From the text search on, once the query, the origin and the key are known. */
  function Search(query: string, origin: Coord, key: string,
                  placesApi: PlacesQuery -> PlacesReply,
                  distanceApi: DistanceQuery -> DistanceReply,
                  formatReal: real -> string, now: int): Run
  {
    var pq := TextSearchQuery(query, origin, key);
    match placesApi(pq)
    case PlacesFailed(e) => Run(BadGateway(PlacesFailedPrefix + e), [TextSearch(pq)])
    case PlacesData(results) =>
      if results == [] then Run(NoPlaces(NoPlacesMessage), [TextSearch(pq)])
      else Pipeline(query, origin, key, results, distanceApi, formatReal, now, [TextSearch(pq)])
  }

  /** What one GET /search/ request does, as a function of every input. */
  function Outcome(req: Request, apiKey: KeySetting, parse: string -> Option<real>,
                   placesApi: PlacesQuery -> PlacesReply,
                   distanceApi: DistanceQuery -> DistanceReply,
                   formatReal: real -> string, now: int): Run
  {
    if !Truthy(req.q) then Run(BadRequest(NoQueryError), [])
    else
      var origin := ResolveOrigin(req.lat, req.lng, parse);
      if origin.None? then Run(BadRequest(BadCoordinatesError), [])
      else if apiKey.Undefined? then Run(Unhandled(AttributeErrorName), [])
      else if !Truthy(apiKey.setting) then Run(ServerError(NoKeyError), [])
      else
        Search(req.q.value, origin.value, apiKey.setting.value, placesApi, distanceApi, formatReal, now)
  }
}
