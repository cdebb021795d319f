/**
 * PlaceSearchView.get, step by step as the view runs it: the loops that
 * build, enrich, annotate and persist the per-place records. Each loop is
 * a method proved against its reference definition in SearchSpec, and Get
 * is proved equal to SearchSpec.Outcome.
 */
module PlaceSearchView {
  import opened Wrappers
  import opened PlaceModel
  import opened SearchSpec
  import SearchProperties

  /** The loop over `results[:5]`: one record per place, destinations for the located ones. */
  method BuildCandidates(top: seq<RawPlace>) returns (processed: seq<Candidate>, destinations: seq<Coord>)
    ensures processed == Skeletons(top)
    ensures destinations == Destinations(top)
  {
    processed, destinations := [], [];
    var i := 0;
    while i < |top|
      invariant 0 <= i <= |top|
      invariant processed == Skeletons(top[..i])
      invariant destinations == Destinations(top[..i])
    {
      var place := top[i];
      assert top[..i + 1][..i] == top[..i];
      if HasCoords(place) {
        destinations := destinations + [Coord(place.lat.value, place.lng.value)];
      }
      processed := processed + [Skeleton(place)];
      i := i + 1;
    }
    assert top[..i] == top;
  }

  /** The loop over the distance-matrix elements, each written to the record at its own index. */
  method AttachDistances(places: seq<Candidate>, elements: seq<Element>) returns (enriched: seq<Candidate>)
    ensures enriched == Enriched(places, elements)
  {
    enriched := places;
    var idx := 0;
    while idx < |elements|
      invariant 0 <= idx <= |elements|
      invariant |enriched| == |places|
      invariant forall i :: 0 <= i < |places| ==>
                  enriched[i] == if i < idx && ElementOk(elements, i) then WithDistance(places[i], elements[i]) else places[i]
    {
      var elem := elements[idx];
      if idx < |enriched| && elem.status == Some(OkStatus) {
        var distM := elem.distanceValue;
        var durS := elem.durationValue;
        enriched := enriched[idx := enriched[idx].(distanceM := Some(distM), walkingTimeMin := Some(WalkingMinutes(durS)))];
      }
      idx := idx + 1;
    }
  }

  /**
   * The loop that tracks best_index / highest_rating and writes each
   * record's description and review summary.
   */
  method AnnotateAndPickBest(places: seq<Candidate>, query: string, formatReal: real -> string)
    returns (annotated: seq<Candidate>, best: nat)
    ensures annotated == Annotate(places, query, formatReal)
    ensures best == BestIndex(Ratings(places))
    ensures IsFirstHighest(Ratings(places), best)
    ensures places != [] ==> best < |places|
  {
    ghost var rs := Ratings(places);
    best := 0;
    var highest: real := -1.0;
    annotated := places;
    var i := 0;
    while i < |places|
      invariant 0 <= i <= |places|
      invariant |annotated| == |places|
      invariant forall k :: 0 <= k < i ==> annotated[k] == Annotated(places[k], query, formatReal)
      invariant forall k :: i <= k < |places| ==> annotated[k] == places[k]
      invariant Leader(best, highest) == Scan(rs[..i])
    {
      var place := annotated[i];
      assert place == places[i] && rs[i] == place.rating;
      SearchProperties.ScanStep(rs, i);
      if TruthyReal(place.rating) && place.rating.value > highest {
        highest := place.rating.value;
        best := i;
      }
      place := AnnotatePlace(place, query, formatReal);
      annotated := annotated[i := place];
      i := i + 1;
    }
    assert rs[..i] == rs;
    SearchProperties.ScanFindsFirstHighest(rs);
    assert forall k :: 0 <= k < |places| ==> annotated[k] == Annotate(places, query, formatReal)[k];
  }

  /** The description and review summary written for one record inside that loop. */
  method AnnotatePlace(place: Candidate, query: string, formatReal: real -> string) returns (annotated: Candidate)
    ensures annotated == Annotated(place, query, formatReal)
  {
    annotated := place;
    if Truthy(place.name) {
      annotated := annotated.(description := Describe(place.name.value, query, place.rating, place.userRatingsCount, formatReal));
      annotated := annotated.(reviewSummary := ReviewSummary(place.rating));
    } else {
      annotated := annotated.(description := UnavailableDescription, reviewSummary := "");
    }
  }

  /** The loop that builds one RecommendedPlace per record, in order. */
  method PersistPlaces(places: seq<Candidate>) returns (stored: seq<StoredPlace>)
    ensures stored == StoredAll(places)
  {
    stored := [];
    var i := 0;
    while i < |places|
      invariant 0 <= i <= |places|
      invariant stored == StoredAll(places[..i])
    {
      stored := stored + [Stored(places[i])];
      i := i + 1;
    }
    assert places[..i] == places;
  }

  /** PlaceSearchView.get with both providers, float(), float repr and the clock as parameters. */
  method Get(req: Request, apiKey: KeySetting, parse: string -> Option<real>,
             placesApi: PlacesQuery -> PlacesReply,
             distanceApi: DistanceQuery -> DistanceReply,
             formatReal: real -> string, now: int)
    returns (response: Response, calls: seq<Call>)
    ensures Run(response, calls) == Outcome(req, apiKey, parse, placesApi, distanceApi, formatReal, now)
  {
    calls := [];
    if !Truthy(req.q) {
      return BadRequest(NoQueryError), calls;
    }
    var query := req.q.value;

    var origin: Coord;
    if Truthy(req.lat) && Truthy(req.lng) {
      var userLat := parse(req.lat.value);
      var userLng := parse(req.lng.value);
      if userLat.None? || userLng.None? {
        return BadRequest(BadCoordinatesError), calls;
      }
      origin := Coord(userLat.value, userLng.value);
    } else {
      origin := DefaultOrigin;
    }

    if apiKey.Undefined? {
      return Unhandled(AttributeErrorName), calls;
    }
    if !Truthy(apiKey.setting) {
      return ServerError(NoKeyError), calls;
    }
    response, calls := Search(query, origin, apiKey.setting.value, placesApi, distanceApi, formatReal, now, calls);
  }

  /** The body of get from the text search on; `prior` are the calls made so far. */
  method Search(query: string, origin: Coord, key: string,
                placesApi: PlacesQuery -> PlacesReply,
                distanceApi: DistanceQuery -> DistanceReply,
                formatReal: real -> string, now: int, prior: seq<Call>)
    returns (response: Response, calls: seq<Call>)
    ensures Run(response, calls) == var run := SearchSpec.Search(query, origin, key, placesApi, distanceApi, formatReal, now);
                                    Run(run.response, prior + run.calls)
  {
    var pq := TextSearchQuery(query, origin, key);
    calls := prior + [TextSearch(pq)];
    var data := placesApi(pq);
    if data.PlacesFailed? {
      return BadGateway(PlacesFailedPrefix + data.error), calls;
    }
    var results := data.results;
    if results == [] {
      return NoPlaces(NoPlacesMessage), calls;
    }
    response, calls := ProcessResults(query, origin, key, results, distanceApi, formatReal, now, calls);
  }

  /**
   * The body of get from `results[:5]` on, once the text search returned
   * some places; `prior` are the calls made so far, extended with the
   * distance call when it is made.
   */
  method ProcessResults(query: string, origin: Coord, key: string, results: seq<RawPlace>,
                        distanceApi: DistanceQuery -> DistanceReply,
                        formatReal: real -> string, now: int, prior: seq<Call>)
    returns (response: Response, calls: seq<Call>)
    ensures Run(response, calls) == Pipeline(query, origin, key, results, distanceApi, formatReal, now, prior)
  {
    calls := prior;
    var top := results[..Min(MaxResults, |results|)];

    var processed, destinations := BuildCandidates(top);

    if destinations != [] {
      var dq := DistanceMatrixQuery(origin, destinations, key);
      calls := calls + [DistanceMatrix(dq)];
      var dmData := distanceApi(dq);
      var read := ReadElements(dmData);
      if read.RowsMissing? {
        return Unhandled(IndexErrorName), calls;
      }
      if read.ElementsRead? {
        processed := AttachDistances(processed, read.elements);
      }
    }
    response := Respond(query, origin, processed, formatReal, now);
  }

  /** The body of get from the annotation loop on: annotate, flag the best, persist, serialize. */
  method Respond(query: string, origin: Coord, processed: seq<Candidate>, formatReal: real -> string, now: int)
    returns (response: Response)
    ensures response == Finish(query, origin, processed, formatReal, now, []).response
  {
    var places, best := AnnotateAndPickBest(processed, query, formatReal);
    if 0 <= best < |places| {
      places := places[best := places[best].(isBest := true)];
    }

    var stored := PersistPlaces(places);
    var record := SearchRecord(query, origin.lat, origin.lng, now, stored);
    response := Ok(record, BestRecommendation(record.places));
  }
}
