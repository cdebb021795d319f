/**
 * What the place-search view promises, proved about the reference
 * definitions in SearchSpec (and so, through PlaceSearchView.Get's
 * postcondition, about the view itself).
 */
module SearchProperties {
  import opened Wrappers
  import opened PlaceModel
  import opened SearchSpec

  // ---------------------------------------------------------- destinations

  /**
   * The destination list holds, in provider order, the coordinates of
   * exactly the places whose latitude and longitude are both truthy.
   */
  lemma {:induction false} DestinationsAreLocatedPlaces(top: seq<RawPlace>)
    ensures |Destinations(top)| == |CoordIndices(top)|
    ensures forall k :: 0 <= k < |CoordIndices(top)| ==>
              && CoordIndices(top)[k] < |top|
              && HasCoords(top[CoordIndices(top)[k]])
              && Destinations(top)[k] == CoordOf(top[CoordIndices(top)[k]])
    ensures forall k, l :: 0 <= k < l < |CoordIndices(top)| ==> CoordIndices(top)[k] < CoordIndices(top)[l]
    ensures forall i :: 0 <= i < |top| && HasCoords(top[i]) ==> i in CoordIndices(top)
    decreases |top|
  {
    if top != [] {
      var n := |top| - 1;
      var p := top[..n];
      DestinationsAreLocatedPlaces(p);
      assert forall i :: 0 <= i < n ==> top[i] == p[i];
      var ci := CoordIndices(p);
      assert forall k :: 0 <= k < |ci| ==> ci[k] < n;
      var tail := if HasCoords(top[n]) then [n] else [];
      assert CoordIndices(top) == ci + tail;
      assert Destinations(top) == Destinations(p) + (if HasCoords(top[n]) then [CoordOf(top[n])] else []);
      forall k | 0 <= k < |ci|
        ensures CoordIndices(top)[k] == ci[k] && Destinations(top)[k] == Destinations(p)[k]
      {
      }
    }
  }

  /** When every place is located, destination k belongs to place k. */
  lemma {:induction false} AllLocatedMeansAligned(top: seq<RawPlace>)
    requires forall i :: 0 <= i < |top| ==> HasCoords(top[i])
    ensures |CoordIndices(top)| == |top|
    ensures forall k :: 0 <= k < |top| ==> CoordIndices(top)[k] == k
    decreases |top|
  {
    if top != [] {
      var n := |top| - 1;
      var p := top[..n];
      assert forall i :: 0 <= i < n ==> p[i] == top[i];
      AllLocatedMeansAligned(p);
      assert HasCoords(top[n]);
    }
  }

  /**
   * The element index is used directly as the record index: when place 0
   * has no coordinates, the element measured for place 1 is written to
   * place 0, and place 1 keeps no distance.
   */
  lemma UnlocatedPlaceShiftsDistances(p0: RawPlace, p1: RawPlace, e: Element)
    requires !HasCoords(p0) && HasCoords(p1)
    requires e.status == Some(OkStatus)
    ensures Destinations([p0, p1]) == [CoordOf(p1)]
    ensures !AlignedAt([p0, p1], 0)
    ensures Enriched(Skeletons([p0, p1]), [e])[0].distanceM == Some(e.distanceValue)
    ensures Enriched(Skeletons([p0, p1]), [e])[1].distanceM == None
  {
    var top := [p0, p1];
    assert top[..1] == [p0];
    assert top[..1][..0] == [];
    assert top[1] == p1;
    assert Destinations(top[..1]) == [];
    assert CoordIndices(top[..1]) == [];
    assert CoordIndices(top) == [1];
  }

  /**
   * Every record starts with the provider's fields, empty description and
   * summary, no distance or walking time, and is_best false.
   */
  lemma SkeletonsStartAtDefaults(top: seq<RawPlace>)
    ensures |Skeletons(top)| == |top|
    ensures forall i :: 0 <= i < |top| ==>
              var c := Skeletons(top)[i];
              && c.name == top[i].name
              && c.address == Address(top[i])
              && c.rating == top[i].rating
              && c.userRatingsCount == top[i].userRatingsTotal
              && c.latitude == top[i].lat
              && c.longitude == top[i].lng
              && c.description == ""
              && c.reviewSummary == ""
              && c.distanceM == None
              && c.walkingTimeMin == None
              && !c.isBest
  {
  }

  /** `formatted_address` if truthy, else `vicinity` if given, else "". */
  lemma AddressFallback(p: RawPlace)
    ensures Truthy(p.formattedAddress) ==> Address(p) == p.formattedAddress.value
    ensures !Truthy(p.formattedAddress) && p.vicinity.Some? ==> Address(p) == p.vicinity.value
    ensures !Truthy(p.formattedAddress) && p.vicinity.None? ==> Address(p) == ""
  {
  }

  // -------------------------------------------------------------- distance

  /** The records handed to the annotation loop still carry the provider's fields. */
  lemma EnrichedSkeletonFields(top: seq<RawPlace>, elements: seq<Element>)
    ensures |Enriched(Skeletons(top), elements)| == |top|
    ensures forall i :: 0 <= i < |top| ==>
              var c := Enriched(Skeletons(top), elements)[i];
              && c.name == top[i].name
              && c.address == Address(top[i])
              && c.rating == top[i].rating
              && c.userRatingsCount == top[i].userRatingsTotal
              && !c.isBest
    ensures Ratings(Enriched(Skeletons(top), elements)) == RawRatings(top)
  {
  }

  /** With no elements to write (no call, exception, non-OK status), the records are unchanged. */
  lemma EnrichedWithoutElements(places: seq<Candidate>)
    ensures Enriched(places, []) == places
  {
    assert forall i :: 0 <= i < |places| ==> Enriched(places, [])[i] == places[i];
  }

  // -------------------------------------------------------- best selection

  /** The loop's accumulators hold the first highest eligible rating seen. */
  lemma {:induction false} ScanFindsFirstHighest(rs: seq<Option<real>>)
    ensures IsFirstHighest(rs, Scan(rs).index)
    ensures SomeEligible(rs) ==> Scan(rs).highest == rs[Scan(rs).index].value
    ensures !SomeEligible(rs) ==> Scan(rs).highest == -1.0
    decreases |rs|
  {
    if rs != [] {
      var n := |rs| - 1;
      var p := rs[..n];
      ScanFindsFirstHighest(p);
      assert forall j :: 0 <= j < n ==> rs[j] == p[j];
      if SomeEligible(p) {
        var j :| 0 <= j < n && Eligible(p[j]);
        assert Eligible(rs[j]);
      }
      if Eligible(rs[n]) {
        assert SomeEligible(rs);
      }
      if !SomeEligible(p) && Eligible(rs[n]) {
        assert forall j :: 0 <= j < n ==> !Eligible(rs[j]);
      }
    }
  }

  /** One more iteration of the selection loop. */
  lemma ScanStep(rs: seq<Option<real>>, i: nat)
    requires i < |rs|
    ensures var prev := Scan(rs[..i]);
            Scan(rs[..i + 1])
              == if TruthyReal(rs[i]) && rs[i].value > prev.highest then Leader(i, rs[i].value) else prev
  {
    assert rs[..i + 1][..i] == rs[..i];
  }

  /** The best index is always a valid index of a non-empty list. */
  lemma BestIndexInRange(rs: seq<Option<real>>)
    requires rs != []
    ensures BestIndex(rs) < |rs|
  {
    ScanFindsFirstHighest(rs);
  }

  /** There is only one first highest index. */
  lemma FirstHighestUnique(rs: seq<Option<real>>, a: nat, b: nat)
    requires IsFirstHighest(rs, a) && IsFirstHighest(rs, b)
    ensures a == b
  {
  }

  /** Two places sharing the highest rating: the lower index wins. */
  lemma TieGoesToLowerIndex(rs: seq<Option<real>>, i: nat, j: nat)
    requires i < j < |rs|
    requires Eligible(rs[i]) && Eligible(rs[j]) && rs[i].value == rs[j].value
    requires forall k :: 0 <= k < |rs| && Eligible(rs[k]) ==> rs[k].value <= rs[i].value
    ensures BestIndex(rs) <= i
    ensures BestIndex(rs) != j
  {
    ScanFindsFirstHighest(rs);
  }

  /** No eligible rating at all: index 0 wins, named or not. */
  lemma NoRatingMeansFirstPlace(rs: seq<Option<real>>)
    requires forall k :: 0 <= k < |rs| ==> !TruthyReal(rs[k])
    ensures BestIndex(rs) == 0
  {
    ScanFindsFirstHighest(rs);
  }

  // ------------------------------------------------------------ annotation

  /** Review tiers never decrease as the rating grows. */
  lemma TierMonotone(a: real, b: real)
    requires a <= b
    ensures Tier(Some(a)) <= Tier(Some(b))
  {
  }

  /** Ratings on either side of a band boundary get strictly different tiers. */
  lemma TierSpansThreshold(a: real, b: real, threshold: real)
    requires threshold == 3.0 || threshold == 4.0 || threshold == 4.5
    requires a < threshold <= b
    ensures Tier(Some(a)) < Tier(Some(b))
  {
  }

  /** The four summaries are pairwise different, so a tier is visible in the text. */
  lemma SummaryTextsDistinct(s: nat, t: nat)
    requires s <= 3 && t <= 3 && s != t
    ensures SummaryText(s) != SummaryText(t)
  {
    assert |OutstandingSummary| == 71;
    assert |VeryGoodSummary| == 77;
    assert |MixedSummary| == 67;
    assert |BelowAverageSummary| == 52;
  }

  /** A named place's description starts with its name and then mentions the query. */
  lemma DescriptionMentionsNameAndQuery(name: string, query: string, rating: Option<real>,
                                        count: Option<int>, formatReal: real -> string)
    ensures var d := Describe(name, query, rating, count, formatReal);
            var at := |name| + |RecommendedFor|;
            && |d| > at + |query|
            && d[..|name|] == name
            && d[at..at + |query|] == query
  {
    var d := Describe(name, query, rating, count, formatReal);
    var rest := ". It has a rating of " + RatingText(rating, formatReal)
                + " based on " + CountText(count) + " reviews.";
    assert d == name + RecommendedFor + query + rest;
    assert (name + RecommendedFor + query + rest)[..|name|] == name;
  }

  /**
   * Annotation changes only the description and the summary, and the
   * description tells whether the place had a name: only an unnamed place
   * gets the fixed text (and an empty summary).
   */
  lemma AnnotationChangesOnlyTexts(c: Candidate, query: string, formatReal: real -> string)
    ensures var r := Annotated(c, query, formatReal);
            && r.(description := c.description, reviewSummary := c.reviewSummary) == c
            && (r.description == UnavailableDescription <==> !Truthy(c.name))
            && (!Truthy(c.name) ==> r.reviewSummary == "")
  {
    assert |UnavailableDescription| == 39;
  }

  // ----------------------------------------------------------------- final

  /** What FinalPlace keeps of the record. */
  lemma FinalPlaceFields(c: Candidate, query: string, formatReal: real -> string, best: bool)
    ensures var f := FinalPlace(c, query, formatReal, best);
            && f.name == c.name && f.address == c.address && f.rating == c.rating
            && f.userRatingsCount == CountOrZero(c.userRatingsCount)
            && f.distanceM == c.distanceM && f.walkingTimeMin == c.walkingTimeMin
            && f.isBest == best
  {
  }

  /** Finish, for records that are not yet marked, in terms of its input records. */
  lemma FinishRecord(query: string, origin: Coord, cs: seq<Candidate>,
                     formatReal: real -> string, now: int, calls: seq<Call>)
    requires cs != []
    requires forall i :: 0 <= i < |cs| ==> !cs[i].isBest
    ensures var run := Finish(query, origin, cs, formatReal, now, calls);
            var b := BestIndex(Ratings(cs));
            && run.calls == calls
            && run.response.Ok?
            && run.response.record.query == query
            && run.response.record.latitude == origin.lat
            && run.response.record.longitude == origin.lng
            && run.response.record.searchTime == now
            && |run.response.record.places| == |cs|
            && b < |cs|
            && (forall i :: 0 <= i < |cs| ==>
                  run.response.record.places[i] == FinalPlace(cs[i], query, formatReal, i == b))
            && run.response.bestRecommendation == Some(run.response.record.places[b])
  {
    var b := BestIndex(Ratings(cs));
    BestIndexInRange(Ratings(cs));
    var annotated := Annotate(cs, query, formatReal);
    var marked := MarkBest(annotated, b);
    var stored := StoredAll(marked);
    assert Finish(query, origin, cs, formatReal, now, calls).response.record.places == stored;
    forall i | 0 <= i < |cs|
      ensures stored[i] == FinalPlace(cs[i], query, formatReal, i == b)
    {
      assert annotated[i] == Annotated(cs[i], query, formatReal);
      assert marked[i] == annotated[i].(isBest := i == b);
    }
    BestRecommendationIsFlagged(stored, b);
  }

  /** The serializer's best_recommendation is the one flagged child. */
  lemma BestRecommendationIsFlagged(stored: seq<StoredPlace>, b: nat)
    requires b < |stored|
    requires forall i :: 0 <= i < |stored| ==> (stored[i].isBest <==> i == b)
    ensures BestRecommendation(stored) == Some(stored[b])
  {
    var r := BestRecommendation(stored);
    assert stored[b].isBest;
    var i :| 0 <= i < |stored| && stored[i].isBest && r.value == stored[i]
             && forall j :: 0 <= j < i ==> !stored[j].isBest;
  }

  /** The run from a non-empty result list ends in Finish on the enriched records, or crashes. */
  lemma PipelineFinishes(query: string, origin: Coord, key: string, results: seq<RawPlace>,
                         distanceApi: DistanceQuery -> DistanceReply,
                         formatReal: real -> string, now: int, prior: seq<Call>)
    ensures var top := results[..Min(MaxResults, |results|)];
            var run := Pipeline(query, origin, key, results, distanceApi, formatReal, now, prior);
            if DistanceCrash(top, origin, key, distanceApi) then
              run.response == Unhandled(IndexErrorName)
            else
              run == Finish(query, origin, Enriched(Skeletons(top), ElementsFor(top, origin, key, distanceApi)),
                            formatReal, now, run.calls)
  {
    var top := results[..Min(MaxResults, |results|)];
    EnrichedWithoutElements(Skeletons(top));
  }

  /**
   * The provider calls of a run from a non-empty result list: the calls
   * made before, then one walking/metric distance call exactly when some
   * place has coordinates.
   */
  lemma PipelineCalls(query: string, origin: Coord, key: string, results: seq<RawPlace>,
                      distanceApi: DistanceQuery -> DistanceReply,
                      formatReal: real -> string, now: int, prior: seq<Call>)
    ensures var top := results[..Min(MaxResults, |results|)];
            Pipeline(query, origin, key, results, distanceApi, formatReal, now, prior).calls
              == prior + (if Destinations(top) == [] then []
                          else [DistanceMatrix(DistanceQuery(origin, Destinations(top), WalkingMode, MetricUnits, key))])
  {
  }

  /**
   * A run that does not crash persists FinalPlace of each enriched record,
   * flagging the best index of the provider ratings.
   */
  lemma PipelineRows(query: string, origin: Coord, key: string, results: seq<RawPlace>,
                     distanceApi: DistanceQuery -> DistanceReply,
                     formatReal: real -> string, now: int, prior: seq<Call>)
    requires results != []
    ensures var top := results[..Min(MaxResults, |results|)];
            var response := Pipeline(query, origin, key, results, distanceApi, formatReal, now, prior).response;
            var elements := ElementsFor(top, origin, key, distanceApi);
            var b := BestIndex(RawRatings(top));
            && (response.Ok? <==> !DistanceCrash(top, origin, key, distanceApi))
            && (response.Ok? ==>
                  && response.record.query == query
                  && response.record.latitude == origin.lat
                  && response.record.longitude == origin.lng
                  && response.record.searchTime == now
                  && |response.record.places| == |top|
                  && b < |top|
                  && (forall i :: 0 <= i < |top| ==>
                        response.record.places[i]
                          == FinalPlace(Enriched(Skeletons(top), elements)[i], query, formatReal, i == b))
                  && response.bestRecommendation == Some(response.record.places[b]))
  {
    var top := results[..Min(MaxResults, |results|)];
    var run := Pipeline(query, origin, key, results, distanceApi, formatReal, now, prior);
    PipelineFinishes(query, origin, key, results, distanceApi, formatReal, now, prior);
    if !DistanceCrash(top, origin, key, distanceApi) {
      var elements := ElementsFor(top, origin, key, distanceApi);
      var cs := Enriched(Skeletons(top), elements);
      EnrichedSkeletonFields(top, elements);
      FinishRecord(query, origin, cs, formatReal, now, run.calls);
    }
  }

  /** The persisted record: one child per place of `results[:5]`, in order, fields copied. */
  lemma OkRecordKeepsProviderPlaces(query: string, origin: Coord, key: string, results: seq<RawPlace>,
                                    distanceApi: DistanceQuery -> DistanceReply,
                                    formatReal: real -> string, now: int, prior: seq<Call>)
    requires results != []
    ensures var top := results[..Min(MaxResults, |results|)];
            var response := Pipeline(query, origin, key, results, distanceApi, formatReal, now, prior).response;
            && (response.Ok? <==> !DistanceCrash(top, origin, key, distanceApi))
            && (response.Ok? ==>
                  && response.record.query == query
                  && response.record.latitude == origin.lat
                  && response.record.longitude == origin.lng
                  && response.record.searchTime == now
                  && |response.record.places| == Min(MaxResults, |results|)
                  && forall i :: 0 <= i < |response.record.places| ==>
                       && response.record.places[i].name == results[i].name
                       && response.record.places[i].address == Address(results[i])
                       && response.record.places[i].rating == results[i].rating
                       && response.record.places[i].userRatingsCount == CountOrZero(results[i].userRatingsTotal))
  {
    var top := results[..Min(MaxResults, |results|)];
    var response := Pipeline(query, origin, key, results, distanceApi, formatReal, now, prior).response;
    PipelineRows(query, origin, key, results, distanceApi, formatReal, now, prior);
    if response.Ok? {
      var elements := ElementsFor(top, origin, key, distanceApi);
      var cs := Enriched(Skeletons(top), elements);
      var b := BestIndex(RawRatings(top));
      var places := response.record.places;
      forall i | 0 <= i < |places|
        ensures places[i].name == results[i].name
        ensures places[i].address == Address(results[i])
        ensures places[i].rating == results[i].rating
        ensures places[i].userRatingsCount == CountOrZero(results[i].userRatingsTotal)
      {
        assert top[i] == results[i];
        assert cs[i].(distanceM := None, walkingTimeMin := None) == Skeleton(top[i]);
        FinalPlaceFields(cs[i], query, formatReal, i == b);
      }
    }
  }

  /** Exactly one persisted child is the best: the first highest eligible provider rating. */
  lemma OkRecordHasOneBest(query: string, origin: Coord, key: string, results: seq<RawPlace>,
                           distanceApi: DistanceQuery -> DistanceReply,
                           formatReal: real -> string, now: int, prior: seq<Call>)
    requires results != []
    requires Pipeline(query, origin, key, results, distanceApi, formatReal, now, prior).response.Ok?
    ensures var top := results[..Min(MaxResults, |results|)];
            var response := Pipeline(query, origin, key, results, distanceApi, formatReal, now, prior).response;
            var b := BestIndex(RawRatings(top));
            && b < |response.record.places|
            && IsFirstHighest(RawRatings(top), b)
            && (forall i :: 0 <= i < |response.record.places| ==> (response.record.places[i].isBest <==> i == b))
            && response.bestRecommendation == Some(response.record.places[b])
  {
    var top := results[..Min(MaxResults, |results|)];
    PipelineRows(query, origin, key, results, distanceApi, formatReal, now, prior);
    ScanFindsFirstHighest(RawRatings(top));
  }

  /** Each persisted child's description and summary, by name and rating tier. */
  lemma OkRecordAnnotations(query: string, origin: Coord, key: string, results: seq<RawPlace>,
                            distanceApi: DistanceQuery -> DistanceReply,
                            formatReal: real -> string, now: int, prior: seq<Call>)
    requires results != []
    requires Pipeline(query, origin, key, results, distanceApi, formatReal, now, prior).response.Ok?
    ensures var places := Pipeline(query, origin, key, results, distanceApi, formatReal, now, prior).response.record.places;
            forall i :: 0 <= i < |places| ==>
              if Truthy(results[i].name) then
                && places[i].description
                     == Describe(results[i].name.value, query, results[i].rating, results[i].userRatingsTotal, formatReal)
                && places[i].reviewSummary == SummaryText(Tier(results[i].rating))
              else
                && places[i].description == UnavailableDescription
                && places[i].reviewSummary == ""
  {
    var top := results[..Min(MaxResults, |results|)];
    var places := Pipeline(query, origin, key, results, distanceApi, formatReal, now, prior).response.record.places;
    PipelineRows(query, origin, key, results, distanceApi, formatReal, now, prior);
    var elements := ElementsFor(top, origin, key, distanceApi);
    var cs := Enriched(Skeletons(top), elements);
    EnrichedSkeletonFields(top, elements);
    var b := BestIndex(RawRatings(top));
    forall i | 0 <= i < |places|
      ensures if Truthy(results[i].name) then
                && places[i].description
                     == Describe(results[i].name.value, query, results[i].rating, results[i].userRatingsTotal, formatReal)
                && places[i].reviewSummary == SummaryText(Tier(results[i].rating))
              else
                && places[i].description == UnavailableDescription
                && places[i].reviewSummary == ""
    {
      assert top[i] == results[i];
      assert places[i] == FinalPlace(cs[i], query, formatReal, i == b);
    }
  }

  /**
   * Each persisted child's distance and walking time: set from element i
   * exactly when the matrix call was made, its status and element i's
   * status are "OK"; None otherwise.
   */
  lemma OkRecordDistances(query: string, origin: Coord, key: string, results: seq<RawPlace>,
                          distanceApi: DistanceQuery -> DistanceReply,
                          formatReal: real -> string, now: int, prior: seq<Call>)
    requires results != []
    requires Pipeline(query, origin, key, results, distanceApi, formatReal, now, prior).response.Ok?
    ensures var top := results[..Min(MaxResults, |results|)];
            var elements := ElementsFor(top, origin, key, distanceApi);
            var places := Pipeline(query, origin, key, results, distanceApi, formatReal, now, prior).response.record.places;
            forall i :: 0 <= i < |places| ==>
              && places[i].distanceM == (if ElementOk(elements, i) then Some(elements[i].distanceValue) else None)
              && places[i].walkingTimeMin
                   == (if ElementOk(elements, i) then Some(WalkingMinutes(elements[i].durationValue)) else None)
  {
    var top := results[..Min(MaxResults, |results|)];
    var places := Pipeline(query, origin, key, results, distanceApi, formatReal, now, prior).response.record.places;
    PipelineRows(query, origin, key, results, distanceApi, formatReal, now, prior);
    var elements := ElementsFor(top, origin, key, distanceApi);
    var cs := Enriched(Skeletons(top), elements);
    var b := BestIndex(RawRatings(top));
    forall i | 0 <= i < |places|
      ensures places[i].distanceM == (if ElementOk(elements, i) then Some(elements[i].distanceValue) else None)
      ensures places[i].walkingTimeMin
                == (if ElementOk(elements, i) then Some(WalkingMinutes(elements[i].durationValue)) else None)
    {
      assert places[i] == FinalPlace(cs[i], query, formatReal, i == b);
      FinalPlaceFields(cs[i], query, formatReal, i == b);
      assert Skeletons(top)[i].distanceM == None && Skeletons(top)[i].walkingTimeMin == None;
    }
  }

  /** A failing distance provider still yields every place, none with a distance. */
  lemma DistanceFailureDegrades(query: string, origin: Coord, key: string, results: seq<RawPlace>,
                                distanceApi: DistanceQuery -> DistanceReply,
                                formatReal: real -> string, now: int, prior: seq<Call>)
    requires results != []
    requires forall dq :: distanceApi(dq) == DistanceFailed
    ensures var places := Pipeline(query, origin, key, results, distanceApi, formatReal, now, prior).response.record.places;
            && Pipeline(query, origin, key, results, distanceApi, formatReal, now, prior).response.Ok?
            && |places| == Min(MaxResults, |results|)
            && forall i :: 0 <= i < |places| ==> places[i].distanceM == None && places[i].walkingTimeMin == None
  {
    OkRecordKeepsProviderPlaces(query, origin, key, results, distanceApi, formatReal, now, prior);
    OkRecordDistances(query, origin, key, results, distanceApi, formatReal, now, prior);
  }

  // -------------------------------------------------------------- requests

  /** A missing or empty query is a 400 with no provider call. */
  lemma MissingQueryIsBadRequest(req: Request, apiKey: KeySetting, parse: string -> Option<real>,
                                 placesApi: PlacesQuery -> PlacesReply,
                                 distanceApi: DistanceQuery -> DistanceReply,
                                 formatReal: real -> string, now: int)
    requires !Truthy(req.q)
    ensures Outcome(req, apiKey, parse, placesApi, distanceApi, formatReal, now)
              == Run(BadRequest(NoQueryError), [])
  {
  }

  /**
   * Every exit before the places list is processed, with the calls made;
   * none of them persists a record.
   */
  lemma EarlyExits(req: Request, apiKey: KeySetting, parse: string -> Option<real>,
                   placesApi: PlacesQuery -> PlacesReply,
                   distanceApi: DistanceQuery -> DistanceReply,
                   formatReal: real -> string, now: int)
    requires Truthy(req.q)
    ensures var origin := ResolveOrigin(req.lat, req.lng, parse);
            var run := Outcome(req, apiKey, parse, placesApi, distanceApi, formatReal, now);
            && (origin.None? ==> run == Run(BadRequest(BadCoordinatesError), []))
            && (origin.Some? && apiKey.Undefined? ==> run == Run(Unhandled(AttributeErrorName), []))
            && (origin.Some? && apiKey.Defined? && !Truthy(apiKey.setting) ==> run == Run(ServerError(NoKeyError), []))
            && (origin.Some? && apiKey.Defined? && Truthy(apiKey.setting) ==>
                  var key := apiKey.setting.value;
                  var pq := PlacesQuery(req.q.value, origin.value, SearchRadius, key);
                  && (placesApi(pq).PlacesFailed? ==>
                        run == Run(BadGateway(PlacesFailedPrefix + placesApi(pq).error), [TextSearch(pq)]))
                  && (placesApi(pq) == PlacesData([]) ==>
                        run == Run(NoPlaces(NoPlacesMessage), [TextSearch(pq)]))
                  && (placesApi(pq).PlacesData? && placesApi(pq).results != [] ==>
                        run == Pipeline(req.q.value, origin.value, key, placesApi(pq).results,
                                        distanceApi, formatReal, now, [TextSearch(pq)])))
  {
  }

  /**
   * At most two provider calls; the 400 and 500 exits make none, and a
   * record is persisted only after the text search was the first call.
   */
  lemma OutcomeCalls(req: Request, apiKey: KeySetting, parse: string -> Option<real>,
                     placesApi: PlacesQuery -> PlacesReply,
                     distanceApi: DistanceQuery -> DistanceReply,
                     formatReal: real -> string, now: int)
    ensures var run := Outcome(req, apiKey, parse, placesApi, distanceApi, formatReal, now);
            && |run.calls| <= 2
            && (run.response.BadRequest? || run.response.ServerError? ==> run.calls == [])
            && (run.response.Ok? ==> run.calls != [] && run.calls[0].TextSearch?)
  {
  }

  /** A record is persisted only when a query, an origin, a key and some places are all there. */
  lemma RecordOnlyWithPlaces(req: Request, apiKey: KeySetting, parse: string -> Option<real>,
                             placesApi: PlacesQuery -> PlacesReply,
                             distanceApi: DistanceQuery -> DistanceReply,
                             formatReal: real -> string, now: int)
    requires Outcome(req, apiKey, parse, placesApi, distanceApi, formatReal, now).response.Ok?
    ensures Truthy(req.q) && ResolveOrigin(req.lat, req.lng, parse).Some?
    ensures apiKey.Defined? && Truthy(apiKey.setting)
    ensures var pq := PlacesQuery(req.q.value, ResolveOrigin(req.lat, req.lng, parse).value, SearchRadius, apiKey.setting.value);
            placesApi(pq).PlacesData? && placesApi(pq).results != []
    ensures var record := Outcome(req, apiKey, parse, placesApi, distanceApi, formatReal, now).response.record;
            && record.query == req.q.value
            && Coord(record.latitude, record.longitude) == ResolveOrigin(req.lat, req.lng, parse).value
            && record.places != []
  {
    var origin := ResolveOrigin(req.lat, req.lng, parse).value;
    var pq := PlacesQuery(req.q.value, origin, SearchRadius, apiKey.setting.value);
    OkRecordKeepsProviderPlaces(req.q.value, origin, apiKey.setting.value, placesApi(pq).results,
                                distanceApi, formatReal, now, [TextSearch(pq)]);
  }

  // ------------------------------------------------------------- scenario

  /**
   * "coffee" at (35.0, 139.0) with three places rated 4.8, 3.2 and 4.0:
   * three children, and only the first is the best.
   */
  lemma CoffeeScenario(parse: string -> Option<real>,
                       placesApi: PlacesQuery -> PlacesReply,
                       distanceApi: DistanceQuery -> DistanceReply,
                       formatReal: real -> string, now: int, key: string,
                       a: RawPlace, b: RawPlace, c: RawPlace)
    requires key != ""
    requires parse("35.0") == Some(35.0) && parse("139.0") == Some(139.0)
    requires a.rating == Some(4.8) && b.rating == Some(3.2) && c.rating == Some(4.0)
    requires placesApi(PlacesQuery("coffee", Coord(35.0, 139.0), SearchRadius, key)) == PlacesData([a, b, c])
    requires !DistanceCrash([a, b, c], Coord(35.0, 139.0), key, distanceApi)
    ensures var response := Outcome(Request(Some("coffee"), Some("35.0"), Some("139.0")), Defined(Some(key)), parse,
                                    placesApi, distanceApi, formatReal, now).response;
            && response.Ok?
            && |response.record.places| == 3
            && response.record.places[0].isBest
            && !response.record.places[1].isBest
            && !response.record.places[2].isBest
  {
    var results := [a, b, c];
    var origin := Coord(35.0, 139.0);
    var req := Request(Some("coffee"), Some("35.0"), Some("139.0"));
    assert ResolveOrigin(req.lat, req.lng, parse) == Some(origin);
    var prior := [TextSearch(PlacesQuery("coffee", origin, SearchRadius, key))];
    EarlyExits(req, Defined(Some(key)), parse, placesApi, distanceApi, formatReal, now);
    assert Outcome(req, Defined(Some(key)), parse, placesApi, distanceApi, formatReal, now)
             == Pipeline("coffee", origin, key, results, distanceApi, formatReal, now, prior);
    assert results[..Min(MaxResults, |results|)] == results;
    OkRecordKeepsProviderPlaces("coffee", origin, key, results, distanceApi, formatReal, now, prior);
    OkRecordHasOneBest("coffee", origin, key, results, distanceApi, formatReal, now, prior);
    var rs := RawRatings(results);
    assert Eligible(rs[0]);
    FirstHighestUnique(rs, BestIndex(rs), 0);
  }
}
