# Place search: result pipeline of `PlaceSearchView.get`

This project models the core of a Django place-search API: the `GET /search/`
handler `PlaceSearchView.get`. The handler validates the query, resolves the
origin, runs a text search, and builds up to five place records. It then
attaches walking distance and time from a distance matrix, writes a
description and a rating-tier review summary, and flags one "best" place.
Finally it persists one `SearchHistory` row with one `RecommendedPlace` child
per record.

The providers are function parameters. `placesApi` maps the text-search
parameters to either an exception or the decoded `results` list.
`distanceApi` maps the distance-matrix parameters to either an exception or
the decoded status and rows. A run returns the response together with the
list of provider calls it made, so "no call was made" is something the model
can state.

Modules, one per concern:

- `Wrappers` (`wrappers.dfy`): `Option`.
- `PlaceModel` (`place_model.dfy`): the request, the providers' decoded
  replies, the per-place record the view mutates (`Candidate`), the persisted
  rows (`StoredPlace`, `SearchRecord`, following `places_api/models.py`), the
  `Response` variants, Python truthiness, and the source's constants (default
  origin, radius 5000, limit 5, messages, summary texts).
- `SearchSpec` (`search_spec.dfy`): a value-level reference definition of
  every stage, and `Outcome`, the whole run as one function of its inputs.
- `PlaceSearchView` (`place_search_view.dfy`): the handler as the source
  writes it. It is one method per loop (building, distance mapping,
  annotation plus best tracking, persistence). The body of `get` is split
  into `Get` (query, origin and key), `Search` (the text search),
  `ProcessResults` (records and distances) and `Respond` (annotation to
  response); each passes on the provider calls made so far, and `Get` is
  proved equal to `Outcome`.
- `SearchProperties` (`search_properties.dfy`): what the handler promises,
  proved about the reference definitions.

Points where the model follows the code as written:

- Truthiness is Python's. A coordinate of `0.0` counts as missing, so that
  place sends no destination. A rating of `0` is falsy, so it never wins the
  best slot and gets the below-average summary. An empty `q`, `lat`, `lng` or
  API key counts as absent.
- `highest_rating` starts at `-1`. A truthy rating of `-1` or less therefore
  never becomes best. `Eligible` (truthy and above -1) is the exact condition
  for a rating to win.
- Distance element `idx` is written to `processed_places[idx]`. Places
  without coordinates are skipped when the destinations are built, so an
  element can land on the wrong record. `UnlocatedPlaceShiftsDistances`
  exhibits this. `AllLocatedMeansAligned` shows the positions do line up
  when every place has coordinates.
- `dm_data.get('rows', [{}])[0]` raises `IndexError` when the status is
  "OK" and `rows` is an empty list. Nothing catches it, so the request fails
  with a framework 500. This is `Response.Unhandled`. An absent `rows` key
  reads as one empty row, and nothing is written.
- `int(dur_s // 60)` is floor division. Dafny's `/` with the positive
  divisor 60 is the same, as `WalkingMinutes` states.
- `settings.GOOGLE_MAPS_API_KEY` is read as a plain attribute (line 39), so
  a setting that is not defined at all raises `AttributeError`, which
  nothing catches: a framework 500 with no provider call, modelled as
  `Unhandled("AttributeError")`. Only a setting that is defined but falsy
  (None or "") reaches the JSON 500 of line 41. The key is a `KeySetting`:
  `Undefined`, or `Defined` with its optional value.
- The best place is picked by rating, not by a generated suitability score.
  No per-candidate text-generation call exists in this code: the annotation
  texts are fixed templates, and the Gemini key read at line 108 is never
  used.
- A request with only one of `lat`/`lng` does not fail. The code (line 25)
  falls back to the default origin unless both are present, and the model
  follows the code.

## Model

| member | source | states |
|---|---|---|
| `SearchSpec.ResolveOrigin` | places_api/views.py:23-35 | with both lat and lng truthy: the origin is the two parsed values, or None (400) if either fails to parse; otherwise exactly (35.6895, 139.6917) |
| `SearchSpec.WalkingMinutes` | places_api/views.py:103-105 | the walking time is the floor of seconds / 60: m*60 <= s < m*60+60 |
| `SearchSpec.Tier` | places_api/views.py:121-128 | tier 3 iff rating truthy and >= 4.5, tier >= 2 iff >= 4.0, tier >= 1 iff >= 3.0; None and 0 are tier 0 |
| `SearchSpec.BestRecommendation` | places_api/serializers.py:18-24 | the serializer's best_recommendation is Some exactly when some child has is_best, and then it is the first such child |
| `SearchSpec.ReadElements` | places_api/views.py:94-99 | the reply is skipped exactly on an exception or a non-"OK" status; IndexError exactly when the status is "OK" and rows is empty; otherwise the elements are those of the first row |
| `SearchSpec.Enriched` | places_api/views.py:100-105 | one record per input record; mapping changes only distance_m and walking_time_min, and leaves record i unchanged unless element i exists and is OK |
| `SearchSpec.MarkBest` | places_api/views.py:133-134 | only is_best changes; it is set at the best index when that is in range, and nowhere else |
| `SearchSpec.CountOrZero` | places_api/views.py:147 | `user_ratings_count or 0`: 0 exactly when the count is absent or 0, and otherwise the count itself |
| `SearchSpec.Pipeline` | places_api/views.py:57-159 | from a non-empty result list the response is a persisted record or the IndexError; the calls made before are kept, and one more is added exactly when some place has coordinates |
| `PlaceSearchView.BuildCandidates` | places_api/views.py:57-82 | the loop yields one default record per place, in order, and the destinations of the places with both coordinates truthy |
| `PlaceSearchView.AttachDistances` | places_api/views.py:98-105 | after the element loop, record i carries element i's distance and walking minutes when element i is OK; every other record is unchanged |
| `PlaceSearchView.AnnotateAndPickBest` | places_api/views.py:109-131 | every record gets its description and summary; the tracked best_index is the first highest eligible rating (0 when there is none) |
| `PlaceSearchView.AnnotatePlace` | places_api/views.py:116-131 | the record gets the description and summary of `SearchSpec.Annotated`, whose effect `AnnotationChangesOnlyTexts` states |
| `PlaceSearchView.PersistPlaces` | places_api/views.py:140-155 | one RecommendedPlace row per record, in order |
| `PlaceSearchView.Respond` | places_api/views.py:107-159 | annotate, flag the best, persist and serialize, equal to `SearchSpec.Finish` |
| `PlaceSearchView.ProcessResults` | places_api/views.py:57-159 | the handler from `results[:5]` on, given the calls made so far, is equal to `SearchSpec.Pipeline`, including the distance call and the IndexError exit |
| `PlaceSearchView.Search` | places_api/views.py:42-159 | the handler from the text search on appends that call to the calls so far and is equal to `SearchSpec.Search`: 502 on an exception, the "no places" 200 on an empty list, otherwise the pipeline |
| `PlaceSearchView.Get` | places_api/views.py:17-159 | the whole handler (response and provider calls) is equal to `SearchSpec.Outcome`, the undefined key setting's AttributeError included |
| `SearchProperties.DestinationsAreLocatedPlaces` | places_api/views.py:61-69 | destinations are, in provider order and without repetition, exactly the coordinates of the places whose lat and lng are both truthy |
| `SearchProperties.SkeletonsStartAtDefaults` | places_api/views.py:62-82 | each record starts with the provider's fields, empty description and summary, no distance or time, is_best false |
| `SearchProperties.AddressFallback` | places_api/views.py:63 | the address is formatted_address if truthy, else vicinity if given, else "" |
| `SearchProperties.AllLocatedMeansAligned` | places_api/views.py:66-105 | when every place has coordinates, destination k belongs to place k, so positional mapping is correct |
| `SearchProperties.UnlocatedPlaceShiftsDistances` | places_api/views.py:66-105 | with place 0 unlocated and place 1 located, place 1's distance is written to place 0 and place 1 gets none |
| `SearchProperties.EnrichedSkeletonFields` | places_api/views.py:59-105 | after distance mapping the records still carry the provider's name, address, rating and count, with is_best false |
| `SearchProperties.EnrichedWithoutElements` | places_api/views.py:94-98 | with no elements (exception, non-OK status, no call) the record list is identical to its input |
| `SearchProperties.ScanFindsFirstHighest` | places_api/views.py:109-114 | the accumulators end at the lowest index of the highest eligible rating, with highest_rating its value (or index 0 and -1 when none is eligible) |
| `SearchProperties.ScanStep` | places_api/views.py:111-114 | one iteration replaces the leader exactly when the rating is truthy and strictly above the highest so far |
| `SearchProperties.BestIndexInRange` | places_api/views.py:133-134 | for a non-empty list the best index is a valid index, so the guard at line 133 always holds |
| `SearchProperties.FirstHighestUnique` | places_api/views.py:109-114 | at most one index is the first highest, so the selection is determined |
| `SearchProperties.TieGoesToLowerIndex` | places_api/views.py:113-114 | of two places sharing the highest rating, the later one is never best |
| `SearchProperties.NoRatingMeansFirstPlace` | places_api/views.py:109-114 | with no truthy rating the best index is 0, whatever that place's name |
| `SearchProperties.TierMonotone` | places_api/views.py:121-128 | a higher rating never gets a lower review tier |
| `SearchProperties.TierSpansThreshold` | places_api/views.py:121-128 | ratings on either side of 3.0, 4.0 or 4.5 get strictly different, ordered tiers |
| `SearchProperties.SummaryTextsDistinct` | places_api/views.py:121-128 | the four summary texts are pairwise different |
| `SearchProperties.AnnotationChangesOnlyTexts` | places_api/views.py:116-131 | annotation changes only description and summary; the description is the unavailable text exactly when the name is falsy, and then the summary is "" |
| `SearchProperties.DescriptionMentionsNameAndQuery` | places_api/views.py:117-120 | a named place's description starts with the name and contains the query right after " is a recommended place for " |
| `SearchProperties.FinalPlaceFields` | places_api/views.py:142-153 | each row copies name, address, rating, distance and time, maps a None or 0 count to 0, and carries the flag |
| `SearchProperties.FinishRecord` | places_api/views.py:109-158 | from unflagged records: an Ok record with query, origin and time, one row per record, exactly the best row flagged, best_recommendation that row |
| `SearchProperties.BestRecommendationIsFlagged` | places_api/serializers.py:21-23 | with exactly one flagged child, best_recommendation is that child |
| `SearchProperties.PipelineFinishes` | places_api/views.py:84-106 | with results, the run either fails with IndexError or persists the records after distance mapping |
| `SearchProperties.PipelineCalls` | places_api/views.py:84-95 | the calls made before, then one walking/metric distance call with origin, destinations and key exactly when some destination exists, and nothing else |
| `SearchProperties.PipelineRows` | places_api/views.py:57-158 | the response is Ok exactly when there is no IndexError, and then row i is the final form of record i with the best index of the provider ratings flagged |
| `SearchProperties.OkRecordKeepsProviderPlaces` | places_api/views.py:57-155 | the record has the query and origin and min(5, number of results) children in provider order, copying name, address, rating and a 0-defaulted rating count |
| `SearchProperties.OkRecordHasOneBest` | places_api/views.py:109-134 | exactly one child has is_best, at the first highest eligible provider rating, and best_recommendation is that child |
| `SearchProperties.OkRecordAnnotations` | places_api/views.py:116-131 | a named child has the templated description and its tier's summary; an unnamed one has the unavailable text and an empty summary |
| `SearchProperties.OkRecordDistances` | places_api/views.py:94-105 | child i's distance and time come from element i exactly when the call was made, the status is OK and element i is OK; otherwise None |
| `SearchProperties.DistanceFailureDegrades` | places_api/views.py:94-97 | an exception from the distance provider still yields 200 with every child present and no distances |
| `SearchProperties.MissingQueryIsBadRequest` | places_api/views.py:18-20 | a missing or empty q is 400 with no provider call |
| `SearchProperties.EarlyExits` | places_api/views.py:23-56 | malformed coordinates 400, an undefined key setting (AttributeError) and a falsy key 500 make no call; a failed search 502 and an empty result 200 make only the text search with query, origin, radius 5000 and key; otherwise the pipeline runs after that call |
| `SearchProperties.OutcomeCalls` | places_api/views.py:17-159 | a request makes at most two provider calls; the 400 and JSON 500 exits make none; a persisted record follows a text search as the first call |
| `SearchProperties.RecordOnlyWithPlaces` | places_api/views.py:39-56 | a record exists only with a query, an origin, a defined and truthy key and a non-empty result list; it holds the query and origin and has children |
| `SearchProperties.CoffeeScenario` | places_api/views.py:109-155 | "coffee" at (35.0, 139.0) with ratings 4.8, 3.2, 4.0 gives three children, only the first flagged best |

## Left out

- HTTP and JSON: `requests.get`, `.json()` decoding and URL construction (places_api/views.py:42-50, 86-95) are network I/O. The providers are function parameters over decoded replies.
- An exception from `.json()` on the distance call is modelled like a network exception, since the code treats both the same.
- `float()` parsing is a parameter `parse`. Its NaN and infinity results are not distinguished.
- The f-string rendering of the rating inside the description is a parameter `formatReal` over the decoded number. A JSON rating decodes to an int or a float, and Python prints `4` as "4" but `4.0` as "4.0". The model's `rating: Option<real>` does not tell these apart, so one reply holding both `4` and `4.0` is not distinguished. The user-ratings count is an int and is rendered as decimal text.
- The string forms of the coordinates (`"lat,lng"` and the pipe-joined list) are left out. The model passes the coordinates as values.
- Settings, `timezone.now()` and `REMOTE_ADDR` are ambient environment. The key setting is an input (`KeySetting`, a string value when defined), the time is the parameter `now`, and `user_ip` is unused and dropped. A key setting holding a non-string value is not modelled.
- Django ORM: `objects.create` and `bulk_create` are modelled as the returned record value. Database ids, NOT NULL and max_length enforcement (a place without a name would fail at insert), and transactional behaviour are not modelled.
- Malformed provider JSON is not modelled. This covers a non-dict body, a JSON null `vicinity` (treated as absent), and an OK element without `distance`/`duration` (a KeyError in the code).
- The serializer field wiring (places_api/serializers.py) is not modelled beyond `BestRecommendation`. The adapters in search/search_app/adapters.py, the user app and the URL routing are not part of this model.
