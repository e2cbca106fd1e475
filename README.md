# Ad platform core in Dafny

This project models the core of an advertising platform. The backend is a Spring application in Java; the frontend is a Next.js application in TypeScript. An advertisement has a title, content, a source (YouTube, or text entered by hand), an active flag, an optional clickable target URL, a weight, an optional override window, and three optional sets of targeting rules: geo (country, region, city, radius), bio (age, gender, occupation, interests) and mood (mood, intensity). Each rule either includes or excludes. The model covers:

- **Targeting.** How each rule matches a viewer. How each strategy combines the include and exclude rules of one kind. How the targeting service chooses the ads that pass every requested kind.
- **Viewing policy.** Ads whose override window contains the current time come first. Within each group, ads are ordered by weight, then by creation time, newest first. A weighted random pick chooses the ad whose slice of the cumulative weights holds the draw. The deterministic fair pick chooses the ad that has the fewest views per unit of weight, and puts it at the front of the display order.
- **Service.** Validating and saving advertisements, lookups with the not-found error, targeted queries, and view and interaction events.
- **Persistence.** Mapping domain and JPA entities in both directions, over an id-keyed table.
- **Web layer.** The DTO mapper, the REST controller's status codes, the global exception handler and the clickable or URL validator.
- **Rate limiting.** The per-client fixed-window filter and the statistics record.
- **Frontend.** The API service: every call becomes an HTTP request value, and the reply is a parameter. The shared types. The advertisement form's validation and submission. The targeting page. The advertisement card's rendered text and buttons. The advertisement list's fetching, search and delete dialog.

Each Dafny module follows one source file:

| module | source |
|---|---|
| Genders, Moods, GeoTargets, BioTargets, MoodTargets, Advertisements | src/main/java/com/example/adplatform/domain/model/ |
| GeoTargetingStrategy, BioTargetingStrategy, MoodTargetingStrategy | src/main/java/com/example/adplatform/application/service/targeting/ |
| TargetingService, ViewingPolicy, AdvertisementService | src/main/java/com/example/adplatform/application/service/ |
| Failures, AdvertisementValidation | src/main/java/com/example/adplatform/application/exception/ |
| Persistence | src/main/java/com/example/adplatform/infrastructure/persistence/ |
| WebMapper, WebController, ExceptionHandling, ClickableValidation, RateLimiting | src/main/java/com/example/adplatform/infrastructure/web/ |
| Stats | src/main/java/com/example/adplatform/domain/model/AdvertisementStats.java |
| FrontendTypes, FrontendService | frontend/types/advertisement.ts, frontend/services/advertisementService.ts |
| AdvertisementForms, TargetingPages, AdvertisementCards, AdvertisementLists | frontend/components/, frontend/app/targeting/page.tsx |

Some modules hold the language semantics the code relies on:

- **Wrappers:** Option and Result.
- **JavaValues:** nullable values and exceptions.
- **JavaStrings:** Java's trim, isBlank, case-insensitive equality and decimal printing.
- **JavaInts:** 32-bit and 64-bit wrap-around, clamping, and division that truncates toward zero.
- **Sequences:** stream filtering.

In the model:

- Java `null` and JavaScript `undefined` are `None`.
- A Java exception is a value that the controller and the exception handler turn into a response.
- Object state that the source updates in place is a class whose methods `modify` it. Examples are the view-count map of the viewing policy, the rate limiter's counters, and each React component's state hooks.
- Clocks, random draws, the geographic distance and the replies of the network are parameters.

Where the code and its documentation disagree, the model follows the code:

- The backend `Gender` enum has no OTHER value; only the frontend type has one.
- The frontend mood list differs from the backend `Mood` enum. Each side has its own datatype.
- The frontend service has no bio-targeting call, although the targeting page calls one. See Findings.
- The viewing-policy port (application/port/in/ViewingPolicyService.java) declares only `orderForDisplay`. `orderForDisplayWithFairFirst` and `selectOneFair` exist only in ViewingPolicyServiceImpl. The model takes the current time as an explicit argument.

## Model

| member | source | states |
|---|---|---|
| GeoTargets.MatchesIff | src/main/java/com/example/adplatform/domain/model/GeoTarget.java:37-78 | a geo rule matches exactly when country, region and city each agree ignoring case or are null on either side, and, when all five coordinates and the radius are present, the distance is at most the radius |
| GeoTargets.MatchesIgnoresCase | src/main/java/com/example/adplatform/domain/model/GeoTarget.java:45-63 | re-spelling the query's country, region and city in another case never changes the outcome |
| GeoTargets.ProximityOnlyWhenAllPresent | src/main/java/com/example/adplatform/domain/model/GeoTarget.java:66-68 | when one of the query or rule coordinates or the radius is null, the distance function is never consulted |
| GeoTargets.ProximityDecides | src/main/java/com/example/adplatform/domain/model/GeoTarget.java:66-75 | once the text criteria pass and proximity applies, the rule fails exactly when the distance exceeds the radius |
| GeoTargets.UnconstrainedMatchesAll | src/main/java/com/example/adplatform/domain/model/GeoTarget.java:44-77 | a rule with every optional field null matches every query |
| GeoTargets.NullQueryFieldKeepsMatch | src/main/java/com/example/adplatform/domain/model/GeoTarget.java:45-68 | replacing query fields by null never turns a match into a mismatch (null is a wildcard) |
| BioTargets.MatchesIff | src/main/java/com/example/adplatform/domain/model/BioTarget.java:41-96 | a bio rule matches exactly when the age is within the inclusive bounds, the gender agrees or is ALL, occupation, education and language agree ignoring case, and some interest names the category; each test is skipped when either side is null (and the interest test for an empty set) |
| BioTargets.AgeOutsideRangeFails | src/main/java/com/example/adplatform/domain/model/BioTarget.java:50-57 | a known age below the minimum or above the maximum makes the rule fail |
| BioTargets.AgeBoundsInclusive | src/main/java/com/example/adplatform/domain/model/BioTarget.java:51-56 | ages equal to either bound pass the age test |
| BioTargets.AllAcceptsEveryGender | src/main/java/com/example/adplatform/domain/model/BioTarget.java:60-64 | a rule for ALL passes every gender |
| BioTargets.TextIgnoresCase | src/main/java/com/example/adplatform/domain/model/BioTarget.java:66-85 | occupation, education and language tests give the same verdict for spellings equal up to case |
| BioTargets.MissingInterestFails | src/main/java/com/example/adplatform/domain/model/BioTarget.java:88-93 | with a non-empty interest set and a category, the rule fails when no interest equals the category ignoring case |
| BioTargets.NoInterestsNeverRejects | src/main/java/com/example/adplatform/domain/model/BioTarget.java:88 | a null or empty interest set never fails the interest test |
| BioTargets.UnconstrainedMatchesAll | src/main/java/com/example/adplatform/domain/model/BioTarget.java:49-95 | a rule with every optional field null matches every query |
| BioTargets.NullQueryFieldKeepsMatch | src/main/java/com/example/adplatform/domain/model/BioTarget.java:50-93 | replacing query fields by null never turns a match into a mismatch |
| MoodTargets.MatchesIff | src/main/java/com/example/adplatform/domain/model/MoodTarget.java:37-83 | a mood rule matches exactly when the moods are equal (where both are known), the intensity is within the inclusive bounds, and time of day, day of week and season agree ignoring case, each test skipped on a null |
| MoodTargets.DifferentMoodFails | src/main/java/com/example/adplatform/domain/model/MoodTarget.java:45-49 | a rule for one mood never matches a query for another |
| MoodTargets.TextIgnoresCase | src/main/java/com/example/adplatform/domain/model/MoodTarget.java:61-80 | the three text tests give the same verdict for spellings equal up to case |
| MoodTargets.UnconstrainedMatchesAll | src/main/java/com/example/adplatform/domain/model/MoodTarget.java:44-82 | a rule with every optional field null matches every query |
| MoodTargets.NullQueryFieldKeepsMatch | src/main/java/com/example/adplatform/domain/model/MoodTarget.java:45-80 | replacing query fields by null never turns a match into a mismatch |
| Genders.ValueOf | src/main/java/com/example/adplatform/domain/model/Gender.java:40 | `valueOf` returns only a constant whose name is exactly the text |
| Genders.FromStringNull | src/main/java/com/example/adplatform/domain/model/Gender.java:35-37 | a null string parses to null |
| Genders.FromStringIff | src/main/java/com/example/adplatform/domain/model/Gender.java:34-44 | a string parses to a gender exactly when its upper-case form is that gender's name; anything else gives null |
| Genders.FromStringIgnoresCase | src/main/java/com/example/adplatform/domain/model/Gender.java:40 | spellings equal up to case parse alike |
| Genders.FromStringName | src/main/java/com/example/adplatform/domain/model/Gender.java:7-44 | every constant's name parses back to that constant |
| Genders.FromStringOther | src/main/java/com/example/adplatform/domain/model/Gender.java:7-26 | "OTHER", offered by the frontend, parses to null |
| Moods.ValueOf | src/main/java/com/example/adplatform/domain/model/Mood.java:50 | `valueOf` returns only a constant whose name is exactly the text |
| Moods.FromStringNull | src/main/java/com/example/adplatform/domain/model/Mood.java:45-47 | a null string parses to null |
| Moods.FromStringIff | src/main/java/com/example/adplatform/domain/model/Mood.java:44-54 | a string parses to a mood exactly when its upper-case form is that mood's name |
| Moods.FromStringIgnoresCase | src/main/java/com/example/adplatform/domain/model/Mood.java:50 | spellings equal up to case parse alike |
| Moods.FromStringName | src/main/java/com/example/adplatform/domain/model/Mood.java:7-54 | every constant's name parses back to that constant |
| Moods.FromStringStressed | src/main/java/com/example/adplatform/domain/model/Mood.java:7-36 | "STRESSED", one of the frontend's moods, parses to null |
| Advertisements.NoRulesNeverMatch | src/main/java/com/example/adplatform/domain/model/Advertisement.java:71-74 | a null or empty rule set never matches, in any dimension |
| Advertisements.OnlyExclusionsNeverMatch | src/main/java/com/example/adplatform/domain/model/Advertisement.java:76-87 | a rule set made only of exclusion rules never matches |
| Advertisements.MatchingExclusionVetoes | src/main/java/com/example/adplatform/domain/model/Advertisement.java:81-87 | one matching exclusion rule fails the dimension whatever the inclusion rules say |
| Advertisements.MatchingInclusionSuffices | src/main/java/com/example/adplatform/domain/model/Advertisement.java:76-87 | with no exclusion rule matching, one matching inclusion rule passes the dimension |
| Advertisements.MatchesGeoTargetingIff | src/main/java/com/example/adplatform/domain/model/Advertisement.java:64-88 | the geo dimension matches exactly when the ad has geo rules, one inclusion rule matches and no exclusion rule does |
| Advertisements.MatchesBioTargetingIff | src/main/java/com/example/adplatform/domain/model/Advertisement.java:93-120 | the same for bio rules, matched against the gender parsed with `Gender.fromString` |
| Advertisements.MatchesMoodTargetingIff | src/main/java/com/example/adplatform/domain/model/Advertisement.java:125-149 | the same for mood rules |
| Advertisements.NoRulesFailTargeting | src/main/java/com/example/adplatform/domain/model/Advertisement.java:42-59 | an ad lacking rules in any one dimension never passes `matchesTargeting` |
| Advertisements.UnknownGenderIsWildcard | src/main/java/com/example/adplatform/domain/model/Advertisement.java:106 | a gender text that names no backend gender behaves exactly like a missing gender |
| Advertisements.TargetingIgnoresFinerGeography | src/main/java/com/example/adplatform/domain/model/Advertisement.java:56 | `matchesTargeting` passes only the country to the geo rules, so the distance function never matters |
| JavaValues.AsInteger | src/main/java/com/example/adplatform/application/service/targeting/BioTargetingStrategy.java:42 | the `(Integer)` cast succeeds exactly on null and on an Integer, and otherwise throws ClassCastException |
| JavaValues.AsDouble | src/main/java/com/example/adplatform/application/service/targeting/GeoTargetingStrategy.java:42-43 | the `(Double)` cast succeeds exactly on null and on a Double (an Integer fails), and otherwise throws ClassCastException |
| JavaValues.AsString | src/main/java/com/example/adplatform/application/service/targeting/GeoTargetingStrategy.java:39-41 | the `(String)` cast succeeds exactly on null and on a String, and otherwise throws ClassCastException |
| JavaValues.AsMood | src/main/java/com/example/adplatform/application/service/targeting/MoodTargetingStrategy.java:40 | the `(Mood)` cast succeeds exactly on null and on a Mood (a mood name fails), and otherwise throws ClassCastException |
| GeoTargetingStrategy.FilterNoInput | src/main/java/com/example/adplatform/application/service/targeting/GeoTargetingStrategy.java:26-29 | a null or empty list filters to the empty list, whatever the criteria |
| GeoTargetingStrategy.FilterExact | src/main/java/com/example/adplatform/application/service/targeting/GeoTargetingStrategy.java:30-32 | with readable criteria, `filter` keeps exactly the ads the domain geo combinator accepts, in their order |
| GeoTargetingStrategy.FilterPropagatesCastFailure | src/main/java/com/example/adplatform/application/service/targeting/GeoTargetingStrategy.java:39-43 | unreadable criteria make a non-empty `filter` throw the cast's exception |
| GeoTargetingStrategy.MissingKeysAreNull | src/main/java/com/example/adplatform/application/service/targeting/GeoTargetingStrategy.java:39-43 | missing keys read as null, so an empty map is matched as a query with no location |
| GeoTargetingStrategy.IntegerLatitudeFails | src/main/java/com/example/adplatform/application/service/targeting/GeoTargetingStrategy.java:42 | a latitude given as an Integer throws ClassCastException |
| GeoTargetingStrategy.MatchesIff | src/main/java/com/example/adplatform/application/service/targeting/GeoTargetingStrategy.java:38-57 | with readable criteria, an ad matches exactly when it has geo rules, one inclusion rule matches and no exclusion rule does |
| BioTargetingStrategy.NormaliseInterests | src/main/java/com/example/adplatform/application/service/targeting/BioTargetingStrategy.java:47-55 | a Set entry is used as it is, a List entry gives the set of its elements, and anything else (null included) gives the empty set |
| BioTargetingStrategy.FilterNoInput | src/main/java/com/example/adplatform/application/service/targeting/BioTargetingStrategy.java:28-31 | a null or empty list filters to the empty list |
| BioTargetingStrategy.FilterExact | src/main/java/com/example/adplatform/application/service/targeting/BioTargetingStrategy.java:32-34 | with readable criteria, `filter` keeps exactly the ads the domain bio combinator accepts, in order |
| BioTargetingStrategy.FilterPropagatesCastFailure | src/main/java/com/example/adplatform/application/service/targeting/BioTargetingStrategy.java:42-46 | unreadable criteria make a non-empty `filter` throw the cast's exception |
| BioTargetingStrategy.InterestsNormalised | src/main/java/com/example/adplatform/application/service/targeting/BioTargetingStrategy.java:49-55 | a list and a set with the same elements give the same interests, and any other entry gives none |
| BioTargetingStrategy.UnknownGenderIsWildcard | src/main/java/com/example/adplatform/application/service/targeting/BioTargetingStrategy.java:61 | a gender text that names no backend gender gives the same verdict as a null gender |
| BioTargetingStrategy.MatchesIff | src/main/java/com/example/adplatform/application/service/targeting/BioTargetingStrategy.java:41-71 | with readable criteria, an ad matches exactly when it has bio rules, one inclusion rule matches and no exclusion rule does, on the parsed gender |
| MoodTargetingStrategy.FilterNoInput | src/main/java/com/example/adplatform/application/service/targeting/MoodTargetingStrategy.java:27-30 | a null or empty list filters to the empty list |
| MoodTargetingStrategy.FilterExact | src/main/java/com/example/adplatform/application/service/targeting/MoodTargetingStrategy.java:31-33 | with readable criteria, `filter` keeps exactly the ads the domain mood combinator accepts, in order |
| MoodTargetingStrategy.FilterPropagatesCastFailure | src/main/java/com/example/adplatform/application/service/targeting/MoodTargetingStrategy.java:40-44 | unreadable criteria make a non-empty `filter` throw the cast's exception |
| MoodTargetingStrategy.MissingKeysAreNull | src/main/java/com/example/adplatform/application/service/targeting/MoodTargetingStrategy.java:40-44 | missing keys read as null, so an empty map is matched as a query with no mood |
| MoodTargetingStrategy.MoodNameFails | src/main/java/com/example/adplatform/application/service/targeting/MoodTargetingStrategy.java:40 | a mood given by name rather than as a Mood throws ClassCastException |
| MoodTargetingStrategy.MatchesIff | src/main/java/com/example/adplatform/application/service/targeting/MoodTargetingStrategy.java:39-59 | with readable criteria, an ad matches exactly when it has mood rules, one inclusion rule matches and no exclusion rule does |
| TargetingService.NoInputGivesNothing | src/main/java/com/example/adplatform/application/service/TargetingServiceImpl.java:32-34 | every filter of the service returns the empty list for a null or empty input |
| TargetingService.FilterByGeoTargetingExact | src/main/java/com/example/adplatform/application/service/TargetingServiceImpl.java:59-76 | `filterByGeoTargeting` keeps exactly the ads that match the geo criteria, each no more often than in the input |
| TargetingService.FilterByBioTargetingExact | src/main/java/com/example/adplatform/application/service/TargetingServiceImpl.java:79-97 | `filterByBioTargeting` keeps exactly the ads that match the bio criteria, each no more often than in the input |
| TargetingService.FilterByMoodTargetingExact | src/main/java/com/example/adplatform/application/service/TargetingServiceImpl.java:100-117 | `filterByMoodTargeting` keeps exactly the ads that match the mood criteria, each no more often than in the input |
| TargetingService.NoBioDataKeepsInput | src/main/java/com/example/adplatform/application/service/TargetingServiceImpl.java:37-55 | without bio data (null or empty map) the combined filter returns its non-empty input unchanged |
| TargetingService.CountryAndMoodIgnored | src/main/java/com/example/adplatform/application/service/TargetingServiceImpl.java:24-56 | the country code and the mood never change the combined filter's result |
| TargetingService.BioDataFilters | src/main/java/com/example/adplatform/application/service/TargetingServiceImpl.java:40-52 | for well-typed bio data, the combined filter keeps exactly the ads whose bio rules match the data read from the map, with the interest list made a set |
| TargetingService.NullInterestsThrow | src/main/java/com/example/adplatform/application/service/TargetingServiceImpl.java:47 | an explicit null interests entry makes the combined filter throw NullPointerException |
| TargetingService.SetInterestsFailCast | src/main/java/com/example/adplatform/application/service/TargetingServiceImpl.java:47 | interests given as a Set fail the List cast |
| TargetingService.UninformativeBioData | src/main/java/com/example/adplatform/application/service/TargetingServiceImpl.java:40-52 | bio data with none of the recognised keys keeps exactly the ads that have an inclusion rule and no exclusion rule |
| ViewingPolicy.PrecedesTotalPreorder | src/main/java/com/example/adplatform/application/service/ViewingPolicyServiceImpl.java:24-26 | the weight-then-created comparator is reflexive, total and transitive |
| ViewingPolicy.Insert | src/main/java/com/example/adplatform/application/service/ViewingPolicyServiceImpl.java:38-39 | inserting into a sorted list keeps it sorted and adds exactly the one ad |
| ViewingPolicy.SortByPriority | src/main/java/com/example/adplatform/application/service/ViewingPolicyServiceImpl.java:38-39 | the stream sort yields a list sorted by weight descending then creation time descending, nulls last, holding the same ads |
| ViewingPolicy.InsertKeepsRankOrder | src/main/java/com/example/adplatform/application/service/ViewingPolicyServiceImpl.java:38-39 | inserting into a sorted list places the new ad before every ad of equal rank already there, and keeps their order |
| ViewingPolicy.SortByPriorityStable | src/main/java/com/example/adplatform/application/service/ViewingPolicyServiceImpl.java:38-39 | the sort is stable: the ads of any one rank keep their input order |
| ViewingPolicy.Overrides | src/main/java/com/example/adplatform/application/service/ViewingPolicyServiceImpl.java:148-159 | the override group holds exactly the input ads whose override window contains now |
| ViewingPolicy.Others | src/main/java/com/example/adplatform/application/service/ViewingPolicyServiceImpl.java:148-159 | the other group holds exactly the input ads whose override window does not contain now |
| ViewingPolicy.PartitionPermutation | src/main/java/com/example/adplatform/application/service/ViewingPolicyServiceImpl.java:148-159 | the two groups together hold every input ad exactly as often as the input does |
| ViewingPolicy.PartitionByOverride | src/main/java/com/example/adplatform/application/service/ViewingPolicyServiceImpl.java:148-166 | the partition loop yields the override group and the rest, each in input order; the window needs both bounds and includes both edges |
| ViewingPolicy.OrderForDisplayNoInput | src/main/java/com/example/adplatform/application/service/ViewingPolicyServiceImpl.java:33-35 | a null or empty input orders to the empty list |
| ViewingPolicy.OrderForDisplayPermutation | src/main/java/com/example/adplatform/application/service/ViewingPolicyServiceImpl.java:32-45 | the display order is a permutation of the input |
| ViewingPolicy.OrderForDisplayLength | src/main/java/com/example/adplatform/application/service/ViewingPolicyServiceImpl.java:41-44 | the display order holds as many ads as the input |
| ViewingPolicy.OrderForDisplayGroups | src/main/java/com/example/adplatform/application/service/ViewingPolicyServiceImpl.java:37-44 | the display order is the sorted override group followed by the sorted rest |
| ViewingPolicy.OrderForDisplayOverridesFirst | src/main/java/com/example/adplatform/application/service/ViewingPolicyServiceImpl.java:41-43 | no non-override ad comes before an override-active ad |
| ViewingPolicy.OrderForDisplayGroupsSorted | src/main/java/com/example/adplatform/application/service/ViewingPolicyServiceImpl.java:38-39 | within each group, every earlier ad precedes every later one under the comparator |
| ViewingPolicy.SortedHeadIsTop | src/main/java/com/example/adplatform/application/service/ViewingPolicyServiceImpl.java:107 | the first ad of the sorted pool precedes every pool ad |
| ViewingPolicy.PoolNonEmpty | src/main/java/com/example/adplatform/application/service/ViewingPolicyServiceImpl.java:51-53 | the pool of a non-empty input is non-empty and holds only input ads, so the null return at line 53 is unreachable |
| ViewingPolicy.ClampedSumMonotone | src/main/java/com/example/adplatform/application/service/ViewingPolicyServiceImpl.java:64-67 | the running clamped-weight total never decreases |
| ViewingPolicy.FirstPastIsSlice | src/main/java/com/example/adplatform/application/service/ViewingPolicyServiceImpl.java:63-70 | ad k is chosen exactly when the draw lies in its own slice of the cumulative weights, so each ad owns as many draws as its clamped weight |
| ViewingPolicy.SumClampedWeights | src/main/java/com/example/adplatform/application/service/ViewingPolicyServiceImpl.java:54-58 | the loop total is the sum of max(0, weight) over the pool |
| ViewingPolicy.WeightedPick | src/main/java/com/example/adplatform/application/service/ViewingPolicyServiceImpl.java:63-72 | for a draw below the total the scan returns the first ad whose running total passes it; otherwise the last ad |
| ViewingPolicy.SelectOneFair | src/main/java/com/example/adplatform/application/service/ViewingPolicyServiceImpl.java:48-73 | null exactly for a null or empty input; otherwise a pool ad: the display top when no weight is positive, the ad owning the draw's slice, or the last ad |
| ViewingPolicy.DisplayTop | src/main/java/com/example/adplatform/application/service/ViewingPolicyServiceImpl.java:61 | the fallback ad is a pool ad |
| ViewingPolicy.PriorityTop | src/main/java/com/example/adplatform/application/service/ViewingPolicyServiceImpl.java:107 | the first selection is a pool ad that precedes every pool ad under the comparator |
| ViewingPolicy.ScoreOf | src/main/java/com/example/adplatform/application/service/ViewingPolicyServiceImpl.java:114-115 | the score is finite exactly when the weight is positive |
| ViewingPolicy.ScoreOrderIgnoresTotal | src/main/java/com/example/adplatform/application/service/ViewingPolicyServiceImpl.java:114-116 | two finite scores compare as count1/weight1 against count2/weight2, whatever the common total |
| ViewingPolicy.IntStreamTotalWraps | src/main/java/com/example/adplatform/application/service/ViewingPolicyServiceImpl.java:97 | the int stream sum of weights Integer.MAX_VALUE and 1 wraps to Integer.MIN_VALUE |
| ViewingPolicy.PositiveTotalHasPositiveWeight | src/main/java/com/example/adplatform/application/service/ViewingPolicyServiceImpl.java:97-98 | a positive int total implies some pool ad of positive weight |
| ViewingPolicy.Incremented | src/main/java/com/example/adplatform/application/service/ViewingPolicyServiceImpl.java:82 | one more view for the id, starting from zero; every other counter is unchanged |
| ViewingPolicy.Without | src/main/java/com/example/adplatform/application/service/ViewingPolicyServiceImpl.java:85-89 | the rest holds every ad except the fair one as often as before, and no copy of the fair one |
| ViewingPolicy.MoveToFront | src/main/java/com/example/adplatform/application/service/ViewingPolicyServiceImpl.java:83-89 | the result is the fair ad followed by the display order without it |
| ViewingPolicy.FairFirstPermutation | src/main/java/com/example/adplatform/application/service/ViewingPolicyServiceImpl.java:83-89 | when the fair ad occurs once, moving it to the front permutes the display order |
| ViewingPolicy.FairFirstOnce | src/main/java/com/example/adplatform/application/service/ViewingPolicyServiceImpl.java:83-89 | the fair ad appears exactly once in the result and every other ad as often as in the display order |
| ViewingPolicy.FairFirstMembers | src/main/java/com/example/adplatform/application/service/ViewingPolicyServiceImpl.java:83-89 | the result holds exactly the ads of the display order |
| ViewingPolicy.FairOutcomeInPool | src/main/java/com/example/adplatform/application/service/ViewingPolicyServiceImpl.java:93-137 | whatever the deterministic pick yields is a pool ad |
| ViewingPolicy.ViewingPolicyService.constructor | src/main/java/com/example/adplatform/application/service/ViewingPolicyServiceImpl.java:29 | the view counters start empty |
| ViewingPolicy.ViewingPolicyService.RecordView | src/main/java/com/example/adplatform/application/service/ViewingPolicyServiceImpl.java:82 | the counters become the old counters with one more view for the id |
| ViewingPolicy.ViewingPolicyService.SumViews | src/main/java/com/example/adplatform/application/service/ViewingPolicyServiceImpl.java:101-104 | a null id throws NullPointerException; otherwise the total is the sum of the pool's counters |
| ViewingPolicy.ViewingPolicyService.UnderServed | src/main/java/com/example/adplatform/application/service/ViewingPolicyServiceImpl.java:110-136 | the pick is a pool ad of positive weight with no strictly smaller score; among equal scores it has the largest weight; among those it has the latest creation time, the first such in pool order, or the last tied ad when none of them has a creation time |
| ViewingPolicy.FairPickUnique | src/main/java/com/example/adplatform/application/service/ViewingPolicyServiceImpl.java:110-136 | the tie-break rules above leave exactly one possible pick |
| ViewingPolicy.FairOutcomeUnique | src/main/java/com/example/adplatform/application/service/ViewingPolicyServiceImpl.java:96-137 | the selection outcome is a function of the pool, the counters and the clock |
| ViewingPolicy.ViewingPolicyService.FairFromPool | src/main/java/com/example/adplatform/application/service/ViewingPolicyServiceImpl.java:96-137 | the display top when the int total is not positive, an exception for a missing id, the priority top on no views, else the fair pick |
| ViewingPolicy.ViewingPolicyService.SelectDeterministicFair | src/main/java/com/example/adplatform/application/service/ViewingPolicyServiceImpl.java:93-137 | null for an empty list, otherwise the outcome above on the pool |
| ViewingPolicy.ViewingPolicyService.OrderForDisplayWithFairFirst | src/main/java/com/example/adplatform/application/service/ViewingPolicyServiceImpl.java:76-91 | empty in, empty out with no counter change; otherwise NullPointerException, with no counter change, exactly when the int total of the pool is not positive and the display top has no id, or the total is positive and some pool ad has no id; on success the fair pick first, no other copy of it, the same ads as the input, and its counter incremented |
| AdvertisementService.MissingIffWhitespaceOnly | src/main/java/com/example/adplatform/application/service/AdvertisementServiceImpl.java:168 | a present text counts as missing exactly when every character is at most U+0020, which is what String.trim removes |
| AdvertisementService.ValidationErrors | src/main/java/com/example/adplatform/application/service/AdvertisementServiceImpl.java:165-193 | each field key is reported, with its fixed message, exactly when its check fails; the identifier is checked only for a non-null source |
| AdvertisementService.ValidationPassesIff | src/main/java/com/example/adplatform/application/service/AdvertisementServiceImpl.java:190-192 | validation passes exactly when every check passes |
| AdvertisementService.NullSourceSkipsIdentifierChecks | src/main/java/com/example/adplatform/application/service/AdvertisementServiceImpl.java:176-188 | a null source is reported as "source" and the identifier and YouTube checks report nothing |
| AdvertisementService.NullIdentifierWithVideoId | src/main/java/com/example/adplatform/application/service/AdvertisementServiceImpl.java:178-187 | a YOUTUBE ad with a null identifier and a video id fails both the identifier and the consistency check |
| AdvertisementService.ValidateAdvertisement | src/main/java/com/example/adplatform/application/service/AdvertisementServiceImpl.java:165-193 | throws exactly when an error was recorded, a fresh exception with the default message and exactly the recorded errors |
| AdvertisementService.ValidNewAdInsertedIffFits | src/main/java/com/example/adplatform/application/service/AdvertisementServiceImpl.java:141-145 | a validated ad without id is stored exactly when its description fits its column and every geo and mood rule has its non-nullable column set; the stored row is the mapped ad under the next id with both timestamps set to now |
| AdvertisementService.ValidUpdateFailsIff | src/main/java/com/example/adplatform/application/service/AdvertisementServiceImpl.java:145-155 | a validated update of a stored ad fails in the store exactly when it has no creation time or breaks a column constraint; otherwise the row is the mapped ad with the update time set to now |
| AdvertisementService.TargetingCriteriaKeepsInputOnly | src/main/java/com/example/adplatform/application/service/AdvertisementServiceImpl.java:270-273 | the combined filter never adds an ad to the active list |
| AdvertisementService.AdvertisementServiceImpl.constructor | src/main/java/com/example/adplatform/application/service/AdvertisementServiceImpl.java:42-51 | the service holds the injected repository and viewing policy and has published no event |
| AdvertisementService.AdvertisementServiceImpl.GetAllAdvertisements | src/main/java/com/example/adplatform/application/service/AdvertisementServiceImpl.java:77-80 | exactly the stored ads |
| AdvertisementService.AdvertisementServiceImpl.GetActiveAdvertisements | src/main/java/com/example/adplatform/application/service/AdvertisementServiceImpl.java:93-96 | exactly the stored active ads |
| AdvertisementService.AdvertisementServiceImpl.GetAdvertisementByIdOrThrow | src/main/java/com/example/adplatform/application/service/AdvertisementServiceImpl.java:123-127 | the stored ad when the id is present, otherwise the not-found failure for the id |
| AdvertisementService.AdvertisementServiceImpl.GetAdvertisementById | src/main/java/com/example/adplatform/application/service/AdvertisementServiceImpl.java:109-112 | the stored ad exactly when the id is present, carrying that id |
| AdvertisementService.AdvertisementServiceImpl.SaveAdvertisement | src/main/java/com/example/adplatform/application/service/AdvertisementServiceImpl.java:141-157 | a validation failure is rethrown with its errors and the store unchanged; a store failure becomes a CREATE or UPDATE failure with the store unchanged; otherwise the saved row is returned and stored |
| AdvertisementService.AdvertisementServiceImpl.DeleteAdvertisement | src/main/java/com/example/adplatform/application/service/AdvertisementServiceImpl.java:207-224 | an absent id is the not-found failure and changes nothing; a present id loses its row and nothing else changes |
| AdvertisementService.AdvertisementServiceImpl.FairFirst | src/main/java/com/example/adplatform/application/service/AdvertisementServiceImpl.java:274 | the result is the display order of the filtered ads with the fair pick moved to the front, and only the pick's counter rises by one |
| AdvertisementService.FairFirstOfUnique | src/main/java/com/example/adplatform/application/service/AdvertisementServiceImpl.java:274 | the fair-first result and the new counters are determined by the filtered ads, the old counters and the clock |
| AdvertisementService.AdvertisementServiceImpl.StoredIdsPresent | src/main/java/com/example/adplatform/application/service/AdvertisementServiceImpl.java:270 | stored ads all carry an id, so the viewing policy cannot throw on them |
| AdvertisementService.AdvertisementServiceImpl.GetGeoTargetedAdvertisements | src/main/java/com/example/adplatform/application/service/AdvertisementServiceImpl.java:288-310 | the stored active ads matching the geo criteria, in display order with the fair pick first, and one view counted for that pick |
| AdvertisementService.AdvertisementServiceImpl.GetBioTargetedAdvertisements | src/main/java/com/example/adplatform/application/service/AdvertisementServiceImpl.java:316-339 | the stored active ads matching the bio criteria, in display order with the fair pick first, and one view counted for that pick |
| AdvertisementService.AdvertisementServiceImpl.GetMoodTargetedAdvertisements | src/main/java/com/example/adplatform/application/service/AdvertisementServiceImpl.java:345-367 | the stored active ads matching the mood criteria, in display order with the fair pick first, and one view counted for that pick |
| AdvertisementService.AdvertisementServiceImpl.GetTargetedAdvertisements | src/main/java/com/example/adplatform/application/service/AdvertisementServiceImpl.java:262-282 | a filter failure becomes a TARGETING failure with no view counted; otherwise the filtered stored active ads in display order with the fair pick first and one view counted for it; with no bio data, every stored active ad |
| AdvertisementService.AdvertisementServiceImpl.TrackAdvertisementView | src/main/java/com/example/adplatform/application/service/AdvertisementServiceImpl.java:370-376 | an absent id fails with no event; otherwise exactly one viewed event is published |
| AdvertisementService.AdvertisementServiceImpl.TrackAdvertisementInteraction | src/main/java/com/example/adplatform/application/service/AdvertisementServiceImpl.java:379-385 | an absent id fails with no event; otherwise exactly one interacted event with its type is published |
| Persistence.GenderJpaValueOf | src/main/java/com/example/adplatform/infrastructure/persistence/entity/BioTargetJpaEntity.java:44-49 | valueOf returns only the constant whose name is exactly the text |
| Persistence.MoodJpaValueOf | src/main/java/com/example/adplatform/infrastructure/persistence/entity/MoodTargetJpaEntity.java:43-50 | valueOf returns only the constant whose name is exactly the text |
| Persistence.GenderMappingsAgree | src/main/java/com/example/adplatform/infrastructure/persistence/adapter/AdvertisementRepositoryAdapter.java:331-348 | mapping a gender by name never fails for a non-null value, keeps the name, keeps null as null, and the two directions are inverse |
| Persistence.MoodMappingsAgree | src/main/java/com/example/adplatform/infrastructure/persistence/adapter/AdvertisementRepositoryAdapter.java:353-370 | mapping a mood by name never fails for a non-null value, keeps the name, keeps null as null, and the two directions are inverse |
| Persistence.ToColumn | src/main/java/com/example/adplatform/infrastructure/persistence/adapter/AdvertisementRepositoryAdapter.java:192-206 | a target set is written as null exactly when it is null or empty |
| Persistence.FromColumn | src/main/java/com/example/adplatform/infrastructure/persistence/adapter/AdvertisementRepositoryAdapter.java:154-168 | a target column is read as null exactly when it is null |
| Persistence.RecordsRoundTrip | src/main/java/com/example/adplatform/infrastructure/persistence/adapter/AdvertisementRepositoryAdapter.java:213-326 | each target record and the YouTube details come back unchanged from a trip in either direction |
| Persistence.EmptyTargetSetsStoredAsNull | src/main/java/com/example/adplatform/infrastructure/persistence/adapter/AdvertisementRepositoryAdapter.java:192-206 | an ad's entity has a null target column exactly when the ad's set is null or empty |
| Persistence.NullColumnsReadAsNull | src/main/java/com/example/adplatform/infrastructure/persistence/adapter/AdvertisementRepositoryAdapter.java:154-168 | a loaded ad has a null target set exactly when its column is null |
| Persistence.EmptyAsNull | src/main/java/com/example/adplatform/infrastructure/persistence/adapter/AdvertisementRepositoryAdapter.java:192 | the empty set becomes null and anything else is kept |
| Persistence.DomainRoundTrip | src/main/java/com/example/adplatform/infrastructure/persistence/adapter/AdvertisementRepositoryAdapter.java:137-208 | writing an ad and reading it back changes only its empty target sets, which come back null |
| Persistence.DomainRoundTripExact | src/main/java/com/example/adplatform/infrastructure/persistence/adapter/AdvertisementRepositoryAdapter.java:137-208 | an ad without empty target sets comes back unchanged |
| Persistence.Persisted | src/main/java/com/example/adplatform/infrastructure/persistence/entity/AdvertisementJpaEntity.java:76-85 | a new row gets the generated id and both timestamps; an existing row only a new update time |
| Persistence.NewEntitySavesIff | src/main/java/com/example/adplatform/infrastructure/persistence/entity/AdvertisementJpaEntity.java:28-85 | a new entity is inserted exactly when, with both timestamps set to now, it meets every column constraint; then it gets the next id, otherwise the save fails with a constraint violation |
| Persistence.MappedConstraintsIff | src/main/java/com/example/adplatform/infrastructure/persistence/entity/AdvertisementJpaEntity.java:32-74 | a mapped ad meets the column constraints exactly when title and content are not blank, source, source id and creation time are set, the description has at most 1000 characters, and every geo rule has a country code and every mood rule a mood |
| Persistence.UpdateFailsIffConstraintBroken | src/main/java/com/example/adplatform/infrastructure/persistence/entity/AdvertisementJpaEntity.java:32-85 | an update of a stored row fails, with a constraint violation, exactly when the row with its update time set to now breaks a column constraint; otherwise it is the new row |
| Persistence.Loaded | src/main/java/com/example/adplatform/infrastructure/persistence/entity/AdvertisementJpaEntity.java:64-74 | a loaded row has a set in every collection column and is otherwise the stored row |
| Persistence.JpaStore.constructor | src/main/java/com/example/adplatform/infrastructure/persistence/entity/AdvertisementJpaEntity.java:28-30 | an empty table whose identity column starts at 1 |
| Persistence.JpaStore.FindById | src/main/java/com/example/adplatform/infrastructure/persistence/entity/AdvertisementJpaEntity.java:28-30 | the loaded row exactly when the id has a row |
| Persistence.JpaStore.Scan | src/main/java/com/example/adplatform/infrastructure/persistence/adapter/AdvertisementRepositoryAdapter.java:30-47 | exactly the loaded rows, only active ones when asked |
| Persistence.JpaStore.Save | src/main/java/com/example/adplatform/infrastructure/persistence/entity/AdvertisementJpaEntity.java:76-85 | the store's row for the saved id becomes the saved row, and the generator advances only on insert; a failure changes nothing |
| Persistence.JpaStore.DeleteById | src/main/java/com/example/adplatform/infrastructure/persistence/adapter/AdvertisementRepositoryAdapter.java:69-71 | the id loses its row and nothing else changes |
| Persistence.StoredAdsAreComplete | src/main/java/com/example/adplatform/infrastructure/persistence/adapter/AdvertisementRepositoryAdapter.java:137-168 | every stored ad has the id of its row, a set in every targeting dimension, and is active when read from the active scan |
| Persistence.AdvertisementRepositoryAdapter.constructor | src/main/java/com/example/adplatform/infrastructure/persistence/adapter/AdvertisementRepositoryAdapter.java:27 | the adapter wraps the given JPA repository |
| Persistence.AdvertisementRepositoryAdapter.FindById | src/main/java/com/example/adplatform/infrastructure/persistence/adapter/AdvertisementRepositoryAdapter.java:56-59 | the converted row under the id, or empty |
| Persistence.AdvertisementRepositoryAdapter.FindAll | src/main/java/com/example/adplatform/infrastructure/persistence/adapter/AdvertisementRepositoryAdapter.java:30-34 | exactly the stored ads |
| Persistence.AdvertisementRepositoryAdapter.FindByActiveTrue | src/main/java/com/example/adplatform/infrastructure/persistence/adapter/AdvertisementRepositoryAdapter.java:43-47 | exactly the stored active ads |
| Persistence.AdvertisementRepositoryAdapter.ConvertedMembers | src/main/java/com/example/adplatform/infrastructure/persistence/adapter/AdvertisementRepositoryAdapter.java:31-33 | converting the scanned rows one by one gives exactly the stored ads |
| Persistence.AdvertisementRepositoryAdapter.Save | src/main/java/com/example/adplatform/infrastructure/persistence/adapter/AdvertisementRepositoryAdapter.java:62-66 | converts, saves and converts back; the store changes exactly as the JPA save does |
| Persistence.AdvertisementRepositoryAdapter.DeleteById | src/main/java/com/example/adplatform/infrastructure/persistence/adapter/AdvertisementRepositoryAdapter.java:69-71 | the id loses its row and nothing else changes |
| WebMapper.YouTubeToDto | src/main/java/com/example/adplatform/infrastructure/web/mapper/AdvertisementMapper.java:204-217 | null details stay null, present ones stay present |
| WebMapper.YouTubeToDomain | src/main/java/com/example/adplatform/infrastructure/web/mapper/AdvertisementMapper.java:219-232 | null details stay null, present ones stay present |
| WebMapper.StreamMap | src/main/java/com/example/adplatform/infrastructure/web/mapper/AdvertisementMapper.java:40-48 | a null set throws NullPointerException; otherwise the result is exactly the image of the set |
| WebMapper.ToDto | src/main/java/com/example/adplatform/infrastructure/web/mapper/AdvertisementMapper.java:19-50 | the mapping throws NullPointerException exactly when a target set is null |
| WebMapper.ToDomain | src/main/java/com/example/adplatform/infrastructure/web/mapper/AdvertisementMapper.java:55-86 | the mapping throws NullPointerException exactly when a target set is null |
| WebMapper.RecordsRoundTrip | src/main/java/com/example/adplatform/infrastructure/web/mapper/AdvertisementMapper.java:91-232 | every geo, bio and mood record and the YouTube details survive the trip to the DTO and back |
| WebMapper.BioDtoRoundTripIff | src/main/java/com/example/adplatform/infrastructure/web/mapper/AdvertisementMapper.java:129-164 | a bio DTO survives the trip to the domain and back exactly when its gender text is null or an exact gender name |
| WebMapper.MoodDtoRoundTripIff | src/main/java/com/example/adplatform/infrastructure/web/mapper/AdvertisementMapper.java:169-202 | a mood DTO survives the trip to the domain and back exactly when its mood text is null or an exact mood name |
| WebMapper.UnknownGenderBecomesNull | src/main/java/com/example/adplatform/infrastructure/web/mapper/AdvertisementMapper.java:157 | a gender text that names no gender in any case arrives as null |
| WebMapper.UnknownMoodBecomesNull | src/main/java/com/example/adplatform/infrastructure/web/mapper/AdvertisementMapper.java:194 | a mood text that names no mood in any case arrives as null |
| WebMapper.AdvertisementRoundTrip | src/main/java/com/example/adplatform/infrastructure/web/mapper/AdvertisementMapper.java:19-86 | an ad with all three target sets maps to a DTO and back unchanged |
| WebMapper.BioSetRoundTripIff | src/main/java/com/example/adplatform/infrastructure/web/mapper/AdvertisementMapper.java:43-45 | a set of bio DTOs comes back unchanged exactly when all its gender texts are canonical |
| WebMapper.MoodSetRoundTripIff | src/main/java/com/example/adplatform/infrastructure/web/mapper/AdvertisementMapper.java:46-48 | a set of mood DTOs comes back unchanged exactly when all its mood texts are canonical |
| WebMapper.DtoThroughDomain | src/main/java/com/example/adplatform/infrastructure/web/mapper/AdvertisementMapper.java:19-86 | a DTO through the domain and back keeps every scalar field, and each target set becomes its double image |
| WebMapper.DtoRoundTrip | src/main/java/com/example/adplatform/infrastructure/web/mapper/AdvertisementMapper.java:19-86 | a DTO with all target sets comes back unchanged exactly when its gender and mood texts are canonical |
| WebMapper.ToDtosOkIff | src/main/java/com/example/adplatform/infrastructure/web/mapper/AdvertisementMapper.java:19-50 | a list maps without throwing exactly when every ad carries all three target sets |
| WebMapper.ToDtos | src/main/java/com/example/adplatform/infrastructure/web/controller/AdvertisementController.java:41-43 | when the list maps, it has one DTO per ad, each the mapping of the ad at the same position |
| WebMapper.ToDtoNullSafe | src/main/java/com/example/adplatform/infrastructure/web/mapper/AdvertisementMapper.java:40-48 | the corrected mapping never throws, always yields the three target sets, and agrees with toDto whenever toDto does not throw |
| WebMapper.NullSafeRoundTrip | src/main/java/com/example/adplatform/infrastructure/web/mapper/AdvertisementMapper.java:19-86 | the corrected DTO reads back as the ad with each null target set replaced by an empty one |
| WebController.DtoReply | src/main/java/com/example/adplatform/infrastructure/web/controller/AdvertisementController.java:91 | the reply throws NullPointerException exactly when a target set of the ad is null; otherwise it carries the status and a body that reads back as the ad |
| WebController.ListReply | src/main/java/com/example/adplatform/infrastructure/web/controller/AdvertisementController.java:41-44 | a list of stored ads is answered with 200 and one DTO per ad, in order |
| WebController.AdvertisementController.constructor | src/main/java/com/example/adplatform/infrastructure/web/controller/AdvertisementController.java:29-30 | the controller holds the injected service |
| WebController.AdvertisementController.StoredAdsMap | src/main/java/com/example/adplatform/infrastructure/web/controller/AdvertisementController.java:41-43 | stored ads carry all three target sets, so the list replies never throw |
| WebController.AdvertisementController.GetAllAdvertisements | src/main/java/com/example/adplatform/infrastructure/web/controller/AdvertisementController.java:37-45 | 200 with one DTO per stored ad |
| WebController.AdvertisementController.GetActiveAdvertisements | src/main/java/com/example/adplatform/infrastructure/web/controller/AdvertisementController.java:52-60 | 200 with one DTO per stored active ad |
| WebController.AdvertisementController.GetAdvertisementById | src/main/java/com/example/adplatform/infrastructure/web/controller/AdvertisementController.java:68-75 | 200 with the stored ad's DTO exactly when the id is stored, otherwise 404 with no body |
| WebController.AdvertisementController.CreateAdvertisement | src/main/java/com/example/adplatform/infrastructure/web/controller/AdvertisementController.java:83-92 | a DTO with an id gets 400; a null target set or an invalid ad throws with the store unchanged; a valid ad is inserted under the next id exactly when it fits the columns, and is then answered with the DTO of the saved row; otherwise the save failure is thrown with the store unchanged |
| WebController.AdvertisementController.CreateAdvertisementNullSafe | src/main/java/com/example/adplatform/infrastructure/web/controller/AdvertisementController.java:83-92 | as the create endpoint, but a valid ad that fits the columns is always answered with 201 and a body built by the corrected mapping |
| WebController.AdvertisementController.UpdateAdvertisement | src/main/java/com/example/adplatform/infrastructure/web/controller/AdvertisementController.java:101-116 | 400 unless the DTO carries the path's id, 404 for an absent id, validation and save failures thrown with the store unchanged, otherwise the row replaced and 200 |
| WebController.AdvertisementController.DeleteAdvertisement | src/main/java/com/example/adplatform/infrastructure/web/controller/AdvertisementController.java:124-132 | 404 with nothing changed for an absent id, otherwise the row removed and 204 |
| WebController.AdvertisementController.GetTargetedAdvertisements | src/main/java/com/example/adplatform/infrastructure/web/controller/AdvertisementController.java:174-186 | the TARGETING failure, with no view counted, exactly when the filter fails; otherwise 200 with the DTOs of the filtered stored active ads in fair-first display order, one view counted for the first; with no bio data, every stored active ad |
| WebController.AdvertisementController.GetGeoTargetedAdvertisements | src/main/java/com/example/adplatform/infrastructure/web/controller/AdvertisementController.java:198-214 | 200 with one DTO per stored active ad matching the geo criteria, in fair-first display order, one view counted for the first |
| WebController.AdvertisementController.GetMoodTargetedAdvertisements | src/main/java/com/example/adplatform/infrastructure/web/controller/AdvertisementController.java:226-242 | 200 with one DTO per stored active ad matching the required mood and the other criteria, in fair-first display order, one view counted for the first |
| WebController.CreateWithoutRulesThrows | src/main/java/com/example/adplatform/infrastructure/web/controller/AdvertisementController.java:89-91 | a valid new ad with an empty geo set is inserted exactly when it fits the columns, yet mapping the saved ad for the reply then throws NullPointerException |
| WebController.EmptyGeoSavedAsNull | src/main/java/com/example/adplatform/infrastructure/web/controller/AdvertisementController.java:90 | a valid new ad with an empty geo set is inserted exactly when it fits the columns and comes back from save with a null geo set |
| WebController.LoadedFillsEmpty | src/main/java/com/example/adplatform/infrastructure/web/controller/AdvertisementController.java:71 | loading a row fills each null target set with the empty set and changes nothing else |
| WebController.CreateWithoutRulesNullSafe | src/main/java/com/example/adplatform/infrastructure/web/controller/AdvertisementController.java:89-91 | with the corrected mapping, a valid create is saved exactly when it fits the columns, and its reply body then reads back as the ad a later lookup of the new id returns |
| Failures.NotFoundFor | src/main/java/com/example/adplatform/application/exception/AdvertisementNotFoundException.java:22-24 | the not-found message is the fixed prefix followed by the id written in decimal |
| AdvertisementValidation.AdvertisementValidationException.constructor | src/main/java/com/example/adplatform/application/exception/AdvertisementValidationException.java:18-21 | the default message and no errors |
| AdvertisementValidation.AdvertisementValidationException.WithMessage | src/main/java/com/example/adplatform/application/exception/AdvertisementValidationException.java:28-31 | the given message and no errors |
| AdvertisementValidation.AdvertisementValidationException.WithErrors | src/main/java/com/example/adplatform/application/exception/AdvertisementValidationException.java:39-42 | the given message and exactly the given errors |
| AdvertisementValidation.AdvertisementValidationException.AddError | src/main/java/com/example/adplatform/application/exception/AdvertisementValidationException.java:51-54 | the field maps to the new message, every other field keeps its message, and the same exception is returned |
| ClickableValidation.IsValid | src/main/java/com/example/adplatform/infrastructure/web/validation/ClickableAdvertisementValidator.java:19-50 | valid exactly when there is no DTO, it is not clickable, or its link is non-blank and starts with http:// or https:// in any case; a blank link and a wrong scheme each get their own message on targetUrl |
| ClickableValidation.SchemeIgnoresCase | src/main/java/com/example/adplatform/infrastructure/web/validation/ClickableAdvertisementValidator.java:38-39 | two links equal up to letter case either both have an accepted scheme or neither has |
| ClickableValidation.LeadingBlankRejected | src/main/java/com/example/adplatform/infrastructure/web/validation/ClickableAdvertisementValidator.java:28-45 | a clickable ad whose link is a blank followed by a non-blank text is rejected for its scheme, since the scheme test does not trim |
| ExceptionHandling.Description | src/main/java/com/example/adplatform/infrastructure/web/exception/GlobalExceptionHandler.java:43 | the request description is "uri=" followed by the path |
| ExceptionHandling.StatusFor | src/main/java/com/example/adplatform/infrastructure/web/exception/GlobalExceptionHandler.java:35-145 | 404 exactly for not-found, 400 exactly for the two validation failures, 500 exactly for operation and unexpected failures |
| ExceptionHandling.PutAllFailsIffGlobal | src/main/java/com/example/adplatform/infrastructure/web/exception/GlobalExceptionHandler.java:108-112 | building the error map fails with a cast failure exactly when some binding error is not a field error |
| ExceptionHandling.PutAllLastWins | src/main/java/com/example/adplatform/infrastructure/web/exception/GlobalExceptionHandler.java:108-112 | the map holds exactly the reported fields, each with the message of its last error |
| ExceptionHandling.HandleArgumentNotValid | src/main/java/com/example/adplatform/infrastructure/web/exception/GlobalExceptionHandler.java:102-123 | a cast failure exactly when the map cannot be built; otherwise 400 with "Validation failed" and the map |
| ExceptionHandling.Handle | src/main/java/com/example/adplatform/infrastructure/web/exception/GlobalExceptionHandler.java:35-145 | each exception kind gets its status, message, description and time; validation keeps the exception's own message and errors; an unexpected one gets the generic message |
| RateLimiting.ApiPathsAreFiltered | src/main/java/com/example/adplatform/infrastructure/web/filter/RateLimitingFilter.java:58-62 | a present path is limited exactly when it starts with "/api/" |
| RateLimiting.ResolveClientIp | src/main/java/com/example/adplatform/infrastructure/web/filter/RateLimitingFilter.java:93-105 | the trimmed first hop of a usable X-Forwarded-For (the part before a comma that is not at the start), else the trimmed X-Real-IP, else the remote address or "unknown" |
| RateLimiting.FirstHopIsTheKey | src/main/java/com/example/adplatform/infrastructure/web/filter/RateLimitingFilter.java:95-98 | a chain "client,rest" is keyed by the trimmed client whatever the other headers say |
| RateLimiting.NoHeadersUseRemoteAddress | src/main/java/com/example/adplatform/infrastructure/web/filter/RateLimitingFilter.java:100-104 | with neither header the key is the remote address, or "unknown" without one |
| RateLimiting.WindowStart | src/main/java/com/example/adplatform/infrastructure/web/filter/RateLimitingFilter.java:71 | a zero window throws ArithmeticException; for a positive window and a non-negative instant, the start is the multiple of the window at or below the instant and within one window of it |
| RateLimiting.SameWindowSameStart | src/main/java/com/example/adplatform/infrastructure/web/filter/RateLimitingFilter.java:71 | two instants in the same window get the same start |
| RateLimiting.UniqueWindowStart | src/main/java/com/example/adplatform/infrastructure/web/filter/RateLimitingFilter.java:71 | at most one window start lies within one window below an instant |
| RateLimiting.Counted | src/main/java/com/example/adplatform/infrastructure/web/filter/RateLimitingFilter.java:73-80 | as written: a new counter starts in this window at 1; an existing one keeps its window start, adds one in the same window and restarts at 1 in another |
| RateLimiting.CountedCorrected | src/main/java/com/example/adplatform/infrastructure/web/filter/RateLimitingFilter.java:73-80 | corrected: the counter always belongs to the current window, adds one in the same window and starts at 1 otherwise |
| RateLimiting.Decide | src/main/java/com/example/adplatform/infrastructure/web/filter/RateLimitingFilter.java:81-90 | a request is passed on exactly when the incremented count is at most the limit |
| RateLimiting.Replay | src/main/java/com/example/adplatform/infrastructure/web/filter/RateLimitingFilter.java:65-91 | one decision per request, and a counter exactly when there was a request |
| RateLimiting.BothCountWithinWindow | src/main/java/com/example/adplatform/infrastructure/web/filter/RateLimitingFilter.java:73-80 | within one window both updates start at 1 and add one per request |
| RateLimiting.OneWindowPassesFirstLimit | src/main/java/com/example/adplatform/infrastructure/web/filter/RateLimitingFilter.java:76-87 | within one window the n-th request passes exactly when n is at most the limit, and the counter holds the number of requests |
| RateLimiting.StaleCounterNeverLimits | src/main/java/com/example/adplatform/infrastructure/web/filter/RateLimitingFilter.java:32-36 | as written: once the window changes, the final window start makes every later request reset the count to 1, so none is refused again |
| RateLimiting.PassCount | src/main/java/com/example/adplatform/infrastructure/web/filter/RateLimitingFilter.java:81-90 | a window never passes more requests than it holds |
| RateLimiting.NoneInLaterWindow | src/main/java/com/example/adplatform/infrastructure/web/filter/RateLimitingFilter.java:71 | a window later than every request's window holds none of them |
| RateLimiting.CorrectedLimitsEachWindow | src/main/java/com/example/adplatform/infrastructure/web/filter/RateLimitingFilter.java:76-87 | corrected: with a clock that does not run backwards, each window passes exactly the smaller of its request count and the limit, and the counter is that of the last window |
| RateLimiting.RateLimitingFilter.constructor | src/main/java/com/example/adplatform/infrastructure/web/filter/RateLimitingFilter.java:48-56 | the given limit and window, and an empty cache |
| RateLimiting.RateLimitingFilter.Default | src/main/java/com/example/adplatform/infrastructure/web/filter/RateLimitingFilter.java:44-46 | 100 requests per 60000 ms, and an empty cache |
| RateLimiting.RateLimitingFilter.DoFilterInternal | src/main/java/com/example/adplatform/infrastructure/web/filter/RateLimitingFilter.java:65-91 | a zero window throws with the cache unchanged; otherwise the client's counter is updated as written and the request passed on or answered with 429 by the limit |
| RateLimiting.RateLimitingFilter.DoFilterInternalCorrected | src/main/java/com/example/adplatform/infrastructure/web/filter/RateLimitingFilter.java:65-91 | as the filter, with the corrected counter update |
| RateLimiting.RateLimitingFilter.DoFilter | src/main/java/com/example/adplatform/infrastructure/web/filter/RateLimitingFilter.java:58-91 | requests outside the API pass on with the cache unchanged; the rest are counted and decided as written |
| Stats.AfterKeepsConsistent | src/main/java/com/example/adplatform/domain/model/AdvertisementStats.java:66-131 | every increment keeps views at least complete views and clicks at least conversions |
| Stats.TallyCounts | src/main/java/com/example/adplatform/domain/model/AdvertisementStats.java:66-131 | from the defaults, each counter counts its own increments, views also count complete views and clicks also count conversions |
| Stats.Bumped | src/main/java/com/example/adplatform/domain/model/AdvertisementStats.java:138-164 | a null key changes nothing; otherwise that key's count rises by one from zero and no other key changes |
| Stats.ViewsByCounts | src/main/java/com/example/adplatform/domain/model/AdvertisementStats.java:138-164 | the map holds exactly the non-null keys seen, each with the number of calls naming it |
| Stats.AdvertisementStats.constructor | src/main/java/com/example/adplatform/domain/model/AdvertisementStats.java:17-61 | all counters 0, empty maps, no last-update time |
| Stats.AdvertisementStats.IncrementViewCount | src/main/java/com/example/adplatform/domain/model/AdvertisementStats.java:66-70 | the view counter rises by one, the time is recorded, the maps do not change |
| Stats.AdvertisementStats.IncrementCompleteViewCount | src/main/java/com/example/adplatform/domain/model/AdvertisementStats.java:75-80 | the complete-view and the view counters both rise by one |
| Stats.AdvertisementStats.IncrementClickCount | src/main/java/com/example/adplatform/domain/model/AdvertisementStats.java:85-89 | the click counter rises by one |
| Stats.AdvertisementStats.IncrementConversionCount | src/main/java/com/example/adplatform/domain/model/AdvertisementStats.java:94-99 | the conversion and the click counters both rise by one |
| Stats.AdvertisementStats.IncrementSkipCount | src/main/java/com/example/adplatform/domain/model/AdvertisementStats.java:104-107 | the skip counter rises by one |
| Stats.AdvertisementStats.IncrementShareCount | src/main/java/com/example/adplatform/domain/model/AdvertisementStats.java:112-115 | the share counter rises by one |
| Stats.AdvertisementStats.IncrementLikeCount | src/main/java/com/example/adplatform/domain/model/AdvertisementStats.java:120-123 | the like counter rises by one |
| Stats.AdvertisementStats.IncrementDislikeCount | src/main/java/com/example/adplatform/domain/model/AdvertisementStats.java:128-131 | the dislike counter rises by one |
| Stats.AdvertisementStats.IncrementViewsByDevice | src/main/java/com/example/adplatform/domain/model/AdvertisementStats.java:138-142 | only the device map changes, by one for a non-null device |
| Stats.AdvertisementStats.IncrementViewsByBrowser | src/main/java/com/example/adplatform/domain/model/AdvertisementStats.java:149-153 | only the browser map changes, by one for a non-null browser |
| Stats.AdvertisementStats.IncrementViewsByCountry | src/main/java/com/example/adplatform/domain/model/AdvertisementStats.java:160-164 | only the country map changes, by one for a non-null country |
| FrontendTypes.MoodNamesDistinct | frontend/types/advertisement.ts:49-60 | every mood is sent as a non-empty string and distinct moods as distinct strings |
| FrontendTypes.OrUndefined | frontend/app/targeting/page.tsx:93-95 | the empty text becomes undefined and any other text is kept |
| FrontendTypes.NumberTextInjective | frontend/services/advertisementService.ts:36 | different numbers print differently, so an id in a URL identifies it |
| FrontendService.With | frontend/services/advertisementService.ts:93-96 | axios leaves an undefined parameter out of the query and sends a defined one with its value |
| FrontendService.AdvertisementUrl | frontend/services/advertisementService.ts:36 | the URL is the collection URL, a slash, and the id in decimal |
| FrontendService.AdvertisementUrlInjective | frontend/services/advertisementService.ts:35-64 | reading, updating and deleting one id use the same URL, and different ids different URLs |
| FrontendService.ServiceUrlsAreRateLimited | frontend/services/advertisementService.ts:10 | every URL under the client's API prefix falls under the server's rate limiter |
| FrontendService.GetAllAdvertisements | frontend/services/advertisementService.ts:19-22 | a GET of the collection URL with no parameters |
| FrontendService.GetActiveAdvertisements | frontend/services/advertisementService.ts:27-30 | a GET of the collection URL followed by /active |
| FrontendService.GetAdvertisementById | frontend/services/advertisementService.ts:35-38 | a GET of the id's own URL |
| FrontendService.CreateAdvertisement | frontend/services/advertisementService.ts:43-46 | a POST of the record to the collection URL with no parameters |
| FrontendService.DeleteAdvertisement | frontend/services/advertisementService.ts:62-64 | a DELETE of the id's own URL |
| FrontendService.GetAdvertisementsBySource | frontend/services/advertisementService.ts:69-72 | a GET of the collection URL followed by /source/ and the source's name |
| FrontendService.GetAdvertisementsByTitle | frontend/services/advertisementService.ts:77-82 | a GET of the search URL with the title as its only parameter |
| FrontendService.NumberTextOpensWithDigitOrSign | frontend/services/advertisementService.ts:36 | a number in decimal starts with a digit or a minus sign, so an id URL never reads as a named sub-path |
| FrontendService.ReadRequestsAreDistinct | frontend/services/advertisementService.ts:19-82 | the collection, active, search, by-source and by-id URLs are pairwise different, and two by-source URLs agree exactly when the sources do |
| FrontendService.UpdateAdvertisement | frontend/services/advertisementService.ts:51-57 | a missing or zero id is refused with its message before any request; otherwise the record is put to its own URL |
| FrontendService.GetTargetedAdvertisements | frontend/services/advertisementService.ts:87-99 | a POST to the targeted URL with the bio data as body and exactly the defined country and mood as parameters |
| FrontendService.GetGeoTargetedAdvertisements | frontend/services/advertisementService.ts:104-121 | a GET of the geo URL carrying exactly the defined location arguments |
| FrontendService.GetMoodTargetedAdvertisements | frontend/services/advertisementService.ts:126-143 | a GET of the mood URL carrying exactly the defined mood arguments |
| FrontendService.GetAdvertisementsWithTargeting | frontend/services/advertisementService.ts:148-170 | bio data selects the combined POST, otherwise a mood selects the mood query, otherwise the geo query, each with its own arguments |
| FrontendService.CombinedSearchDropsDetails | frontend/services/advertisementService.ts:151-152 | with bio data, neither the location details nor the mood context besides the mood are sent |
| FrontendService.EveryRequestIsRateLimited | frontend/services/advertisementService.ts:19-170 | every request the service builds is one the server's rate limiter counts |
| AdvertisementForms.Required | frontend/components/AdvertisementForm.tsx:85-88 | an empty text adds the field's message and any other text adds nothing |
| AdvertisementForms.GeoErrors | frontend/components/AdvertisementForm.tsx:89-93 | a geo rule fails exactly on an empty country code, with its message |
| AdvertisementForms.BioErrors | frontend/components/AdvertisementForm.tsx:94-104 | the minimum age fails exactly when negative; the maximum fails when negative, or below a truthy minimum when itself truthy, with the matching message |
| AdvertisementForms.MoodErrors | frontend/components/AdvertisementForm.tsx:105-116 | a missing mood fails; each intensity fails outside 1..10; the maximum also fails below a truthy minimum when itself truthy, each with its message |
| AdvertisementForms.EachRule | frontend/components/AdvertisementForm.tsx:89-116 | one error entry per rule, each that rule's own check |
| AdvertisementForms.RecordErrors | frontend/components/AdvertisementForm.tsx:85-88 | title, content, source and identifier each fail exactly when empty or missing, with their messages |
| AdvertisementForms.ValidIff | frontend/components/AdvertisementForm.tsx:84-117 | the form validates exactly when the required texts are filled in, a source is chosen and every rule passes its checks |
| AdvertisementForms.EmptyFormHasThreeRequiredErrors | frontend/components/AdvertisementForm.tsx:72-88 | the untouched empty form reports exactly the title, content and identifier as required |
| AdvertisementForms.TemplateErrors | frontend/components/AdvertisementForm.tsx:395-700 | a new geo rule needs its country code; new bio and mood rules are valid as added |
| AdvertisementForms.ZeroMaxAgeSkipsOrderTest | frontend/components/AdvertisementForm.tsx:98-102 | a maximum age of 0 passes even below a positive minimum, since 0 is falsy |
| AdvertisementForms.AcceptedAgesAreOrdered | frontend/components/AdvertisementForm.tsx:96-102 | a passing bio rule with both ages non-zero has 0 < min <= max |
| AdvertisementForms.AcceptedIntensitiesAreOrdered | frontend/components/AdvertisementForm.tsx:108-114 | a passing mood rule with both intensities has 1 <= min <= max <= 10 |
| AdvertisementForms.Pushed | frontend/components/AdvertisementForm.tsx:395 | the list grows by exactly the new rule at its end, a missing list counting as empty |
| AdvertisementForms.Removed | frontend/components/AdvertisementForm.tsx:284 | the rule at the index goes and the others keep their order; an index past the end changes nothing |
| AdvertisementForms.PushedErrors | frontend/components/AdvertisementForm.tsx:89-116 | appending a rule appends its own errors and leaves the others' as they were |
| AdvertisementForms.AddingRules | frontend/components/AdvertisementForm.tsx:395-700 | adding a bio or mood rule keeps a valid form valid; adding a geo rule makes it invalid |
| AdvertisementForms.SaveRequest | frontend/components/AdvertisementForm.tsx:139-143 | a new record is posted to the collection; an edited one is put to its own URL, or refused for a falsy id |
| AdvertisementForms.AdvertisementForm.constructor | frontend/components/AdvertisementForm.tsx:119-128 | the prop, or the empty record, is the initial value; no loading, no error, nothing delivered |
| AdvertisementForms.AdvertisementForm.PushGeoTarget | frontend/components/AdvertisementForm.tsx:395 | only the geo list changes, by the new template at its end |
| AdvertisementForms.AdvertisementForm.PushBioTarget | frontend/components/AdvertisementForm.tsx:550 | only the bio list changes, by the new template at its end |
| AdvertisementForms.AdvertisementForm.PushMoodTarget | frontend/components/AdvertisementForm.tsx:700 | only the mood list changes, by the new template at its end |
| AdvertisementForms.AdvertisementForm.RemoveGeoTarget | frontend/components/AdvertisementForm.tsx:284 | only the geo list changes, losing the rule at the index |
| AdvertisementForms.AdvertisementForm.RemoveBioTarget | frontend/components/AdvertisementForm.tsx:421 | only the bio list changes, losing the rule at the index |
| AdvertisementForms.AdvertisementForm.RemoveMoodTarget | frontend/components/AdvertisementForm.tsx:576 | only the mood list changes, losing the rule at the index |
| AdvertisementForms.AdvertisementForm.Submit | frontend/components/AdvertisementForm.tsx:134-170 | an invalid form sends nothing and changes nothing; a valid one sends the save request, delivers the saved record on success, sets the create or update message on failure, and ends not loading |
| TargetingPages.Split | frontend/app/targeting/page.tsx:122 | a split always has at least one piece |
| TargetingPages.SplitPiecesLackSeparator | frontend/app/targeting/page.tsx:122 | no piece of a split holds the separator |
| TargetingPages.JoinSplit | frontend/app/targeting/page.tsx:122 | joining the pieces of a split with the separator gives the text back |
| TargetingPages.SplitJoin | frontend/app/targeting/page.tsx:122 | splitting a join of separator-free pieces gives the pieces back |
| TargetingPages.TrimmedNonEmpty | frontend/app/targeting/page.tsx:122 | trimming and dropping empty pieces never lengthens the list |
| TargetingPages.TrimmedNonEmptyIsClean | frontend/app/targeting/page.tsx:122 | the kept pieces are non-empty and the trim adds no character |
| TargetingPages.InterestsAreClean | frontend/app/targeting/page.tsx:122 | every interest sent is non-empty and holds no comma |
| TargetingPages.TrimmedNonEmptyKeepsClean | frontend/app/targeting/page.tsx:122 | pieces that are non-empty and already trimmed pass through unchanged |
| TargetingPages.InterestsOfJoined | frontend/app/targeting/page.tsx:122 | trimmed, non-empty, comma-free interests come back unchanged from their comma-joined text |
| TargetingPages.TrimmedNonEmptyDropsBlank | frontend/app/targeting/page.tsx:122 | pieces made of blanks are all dropped |
| TargetingPages.BlankInterestsGiveNone | frontend/app/targeting/page.tsx:122 | a field of only blanks and commas yields no interest |
| TargetingPages.JoinedPieceIsPart | frontend/app/targeting/page.tsx:122 | every character of a piece occurs in the joined text |
| TargetingPages.NonEmptyOrUndefined | frontend/app/targeting/page.tsx:130 | an empty list is sent as undefined and a non-empty one as it is |
| TargetingPages.NumberOrUndefined | frontend/app/targeting/page.tsx:96-97 | an empty number field is sent as undefined and a filled one as a number |
| TargetingPages.GeoSearchSendsFilledFields | frontend/app/targeting/page.tsx:92-106 | the geo search queries the geo URL with exactly the filled-in location fields, texts as typed |
| TargetingPages.MoodSearchSendsFilledFields | frontend/app/targeting/page.tsx:153-159 | the mood search queries the mood URL with the mood and exactly the filled-in context fields |
| TargetingPages.BioSearchSendsBioData | frontend/app/targeting/page.tsx:122-131 | the intended bio search posts the typed bio data with no query parameter; a field is missing exactly when left empty, and the interests are the cleaned list |
| TargetingPages.TargetingPage.constructor | frontend/app/targeting/page.tsx:56-82 | all fields empty, not loading, no error, no results, no search yet |
| TargetingPages.TargetingPage.Settle | frontend/app/targeting/page.tsx:108-114 | results replace the old ones and mark a search; a failure keeps them and sets the fetch error; loading ends |
| TargetingPages.TargetingPage.HandleGeoSearch | frontend/app/targeting/page.tsx:88-116 | sends the geo request built from the fields, then settles on the reply with the error cleared first |
| TargetingPages.TargetingPage.HandleBioSearch | frontend/app/targeting/page.tsx:118-141 | as written: no request is made whatever was typed, the fetch error is shown and the old results stay |
| TargetingPages.TargetingPage.HandleBioSearchCorrected | frontend/app/targeting/page.tsx:118-141 | corrected: posts the typed bio data to the combined endpoint and settles on the reply |
| TargetingPages.TargetingPage.HandleMoodSearch | frontend/app/targeting/page.tsx:143-169 | with no mood, no request and the mood-required error; otherwise sends the mood request and settles on the reply |
| AdvertisementCards.DescriptionText | frontend/components/AdvertisementCard.tsx:64 | the description when it is a non-empty string, otherwise the fixed "No description" text; never empty |
| AdvertisementCards.Chips | frontend/components/AdvertisementCard.tsx:68-86 | the source chip first (red for YouTube), the Active/Inactive chip second, and a Geo/Bio/Mood chip exactly when that list is present and non-empty |
| AdvertisementCards.Actions | frontend/components/AdvertisementCard.tsx:90-99 | Details always first; a Visit button only for a truthy target URL and linking to it; Edit exactly when an edit handler is given; Delete exactly when a delete handler is given |
| AdvertisementCards.PreviewOf | frontend/components/AdvertisementCard.tsx:110-146 | a preview exactly for YouTube ads; an embed of the video id when one exists, else the thumbnail when truthy, else nothing shown |
| AdvertisementCards.EmbedNamesTheVideo | frontend/components/AdvertisementCard.tsx:116-123 | the embed address starts with the YouTube embed prefix and ends with the details' video id when truthy, otherwise with the source identifier |
| AdvertisementCards.SourceIdentifierIsEmbedded | frontend/components/AdvertisementCard.tsx:116-123 | a YouTube ad without details but with a source identifier embeds that identifier under the ad's title |
| AdvertisementCards.Polarity | frontend/components/AdvertisementCard.tsx:178 | "Include" exactly for an include rule, "Exclude" otherwise; both seven characters long |
| AdvertisementCards.Phrase | frontend/components/AdvertisementCard.tsx:179-180 | an optional fragment is shown, after its caption, exactly when its value is a non-empty string |
| AdvertisementCards.LocationAsWritten | frontend/components/AdvertisementCard.tsx:181 | the location fragment as the JSX renders it: a latitude of 0 renders the bare text "0" |
| AdvertisementCards.Location | frontend/components/AdvertisementCard.tsx:181 | corrected location fragment: shown exactly when both coordinates are present, as the within-radius phrase |
| AdvertisementCards.EquatorShowsStrayZero | frontend/components/AdvertisementCard.tsx:181 | an include rule for US at latitude 0 renders "Include users from US0" |
| AdvertisementCards.EquatorShowsLocation | frontend/components/AdvertisementCard.tsx:181 | the corrected sentence for the same rule ends with ", within 5km of (0, 10)" |
| AdvertisementCards.GeoSentenceLocation | frontend/components/AdvertisementCard.tsx:178-181 | the as-written and corrected geo sentences agree whenever neither coordinate is 0, and the corrected one names a zero coordinate's location |
| AdvertisementCards.AgePhrase | frontend/components/AdvertisementCard.tsx:195-197 | "aged min-max", "aged min+", "aged up to max", or nothing, by which bounds are present |
| AdvertisementCards.IntensityPhrase | frontend/components/AdvertisementCard.tsx:216-217 | the intensity range is shown exactly when both bounds are present |
| AdvertisementCards.SentencesOpenWithPolarity | frontend/components/AdvertisementCard.tsx:178-220 | every geo, bio and mood sentence opens with its rule's Include/Exclude word, so flipping a rule changes its sentence |
| AdvertisementCards.GeoLines | frontend/components/AdvertisementCard.tsx:172-181 | one sentence per geo rule as the page renders it, stray "0" included, in order, and none when the list is absent or empty |
| AdvertisementCards.GeoLinesCorrected | frontend/components/AdvertisementCard.tsx:172-181 | one corrected sentence per geo rule, in order, and none when the list is absent or empty |
| AdvertisementCards.GeoLinesAgreeAwayFromZero | frontend/components/AdvertisementCard.tsx:181 | when no rule has a zero latitude or longitude, the rendered and corrected lines are the same |
| AdvertisementCards.BioLines | frontend/components/AdvertisementCard.tsx:188-202 | one sentence per bio rule, in order, and none when the list is absent or empty |
| AdvertisementCards.MoodLines | frontend/components/AdvertisementCard.tsx:209-220 | one sentence per mood rule, in order, and none when the list is absent or empty |
| AdvertisementCards.AdvertisementCard.constructor | frontend/components/AdvertisementCard.tsx:19-33 | the card holds its advertisement and handlers, with the details dialog closed |
| AdvertisementCards.AdvertisementCard.HandleShowDetails | frontend/components/AdvertisementCard.tsx:35-37 | opens the details dialog and changes nothing else |
| AdvertisementCards.AdvertisementCard.HandleCloseDetails | frontend/components/AdvertisementCard.tsx:39-41 | closes the details dialog and changes nothing else |
| AdvertisementCards.AdvertisementCard.HandleEdit | frontend/components/AdvertisementCard.tsx:43-47 | passes the card's advertisement to the edit handler exactly when one is given |
| AdvertisementCards.AdvertisementCard.HandleDelete | frontend/components/AdvertisementCard.tsx:49-53 | passes the id to the delete handler exactly when one is given and the id is truthy (present and not 0) |
| AdvertisementLists.FetchRequestPrecedence | frontend/components/AdvertisementList.tsx:70-76 | a non-empty search term wins (title search), then the active-only flag (active list), else the full list |
| AdvertisementLists.WithoutId | frontend/components/AdvertisementList.tsx:120 | keeps exactly the ads whose id differs from the deleted one, never growing the list |
| AdvertisementLists.WithoutIdConcat | frontend/components/AdvertisementList.tsx:120 | filtering distributes over concatenation, so relative order is kept |
| AdvertisementLists.WithoutIdAbsent | frontend/components/AdvertisementList.tsx:120 | deleting an id no ad carries leaves the list unchanged |
| AdvertisementLists.WithoutIdIdempotent | frontend/components/AdvertisementList.tsx:120 | deleting the same id twice is the same as deleting it once |
| AdvertisementLists.AdvertisementList.constructor | frontend/components/AdvertisementList.tsx:58-63 | starts with the provided ads (or none), loading exactly when none were provided, no error, empty search, no pending delete |
| AdvertisementLists.AdvertisementList.FetchAdvertisements | frontend/components/AdvertisementList.tsx:65-84 | sends the request chosen by the precedence above; success replaces the list and clears the error, failure keeps the list and sets the load error; loading ends either way |
| AdvertisementLists.AdvertisementList.Mount | frontend/components/AdvertisementList.tsx:86-93 | provided ads are shown without a request; otherwise the list is fetched |
| AdvertisementLists.AdvertisementList.SetSearchTerm | frontend/components/AdvertisementList.tsx:61 | changes only the search term |
| AdvertisementLists.AdvertisementList.HandleSearch | frontend/components/AdvertisementList.tsx:95-97 | fetches with the current search term |
| AdvertisementLists.AdvertisementList.HandleClearSearch | frontend/components/AdvertisementList.tsx:99-102 | clears the search term and fetches the unfiltered (or active-only) list |
| AdvertisementLists.AdvertisementList.HandleDelete | frontend/components/AdvertisementList.tsx:110-113 | records the id to delete and opens the confirmation dialog, nothing else |
| AdvertisementLists.AdvertisementList.DeleteFromCard | frontend/components/AdvertisementList.tsx:210 | a card's Delete opens the dialog for its id only when the list shows controls and the id is truthy |
| AdvertisementLists.AdvertisementList.ConfirmDelete | frontend/components/AdvertisementList.tsx:115-130 | with no truthy pending id nothing happens; otherwise deletes it, and on success removes every ad with that id and closes the dialog, on failure sets the delete error and keeps everything else |
| AdvertisementLists.AdvertisementList.CancelDelete | frontend/components/AdvertisementList.tsx:132-135 | closes the dialog and clears the pending id, nothing else |

## Left out

- The Haversine distance in GeoTarget.java:83-96 is a function parameter. The model states where it is consulted and how its result is used, not its floating-point value.
- Floating point in general is not modelled. In the backend, latitudes and longitudes are exact reals; radii and intensities are integers there, as in the source. Only the frontend model uses integer coordinates. NaN and rounding are not modelled.
- The viewing policy's double score `count / p` is compared as exact rationals, by cross-multiplying counts and weights. Rounding that could order two nearly equal scores differently is not modelled.
- `random.nextDouble()` is an integer draw passed as a parameter. The statistical fairness of the draws is not stated, only which ad owns each draw.
- The click-through and conversion rates of AdvertisementStats are doubles and are not modelled; neither is `updateRates`.
- AdvertisementStats' long counters are unbounded naturals, so long wrap-around is not modelled.
- RateLimiting.RateLimitingFilter.DoFilterInternal: the Caffeine cache's expiry and size bound are not modelled, so a client's counter is never evicted. The `synchronized` block and concurrent access are not modelled either. Each request is one sequential step, with the current time as a parameter.
- Spring behaviour is not modelled: caching annotations, transactions and datasource routing, MVC binding, security and headers filters, the metrics aspect and development data seeding.
- Event publishing is modelled as a log of published events. Listeners are not modelled.
- Logging is not modelled.
- The JPQL queries of the JPA repository run inside the database and are not modelled. They are findBySource, findByTitleContainingIgnoreCase, findByCountryCode, findByAgeRange, findByMood and the paged variants.
- The service and controller operations that only forward to those queries are not modelled: the by-source and by-title lookups, and pagination.
- Persistence.SatisfiesConstraints: the default 255-character limit of the other string columns comes from the generated schema, which the source does not declare, so it is not checked.
- Persistence.SatisfiesConstraints: the description limit counts characters of the model string, not UTF-16 code units.
- Persistence.SaveResult: bean validation and database constraints are checked in an order the model does not reproduce; both become one constraint-violation error.
- Some Java nulls have no value in the model: a null element inside a target set, a null entry in the interests list, and a null Long in the view-count map. Each would throw NullPointerException in the source, at the first stream or unboxing that touches it, and the model does not promise that failure. AdvertisementValidation.AdvertisementValidationException.WithErrors also copies the error map, where the source keeps a reference to the caller's map, so later changes through that reference are not modelled.
- SafeTextValidator is built on regular expressions over Unicode character classes. It is not part of this model.
- Java's `String.trim` removes the characters at or below U+0020. `String.isBlank` is modelled with `Character.isWhitespace` over the characters the model lists (the ASCII controls it accepts, the Unicode space separators other than no-break spaces, and the line and paragraph separators). Case-insensitive comparison is modelled on ASCII letters only.
- The legacy and deprecated classes, the event records and the DTO classes are not modelled beyond serving as datatypes.
- The frontend's axios transport is a request value. Each reply, or each thrown error, is a parameter of the handler that awaits it.
- React rendering, the MUI layout and the timing of asynchronous state updates are not modelled. Each handler is one sequential state transition.
- AdvertisementLists.AdvertisementList.HandleClearSearch: in the source the fetch after `setSearchTerm('')` still reads the old term, because React applies the update later. The sequential model fetches with the cleared term.
- Yup's internal coercion of form values is not modelled. The form's validation rules are stated on the typed values.
- The frontend parses numbers with `parseInt` and `parseFloat`, which is a function parameter. NaN results are not modelled.
- The card's `!== undefined` tests treat a server `null` as present (it would render as "null"). The model has only one kind of "absent", which is `undefined`.
- The rendered YouTube video itself, the thumbnail image and the dialog layout are not modelled. The model covers the embed address, the titles and the text.
- i18n, ErrorBoundary, AdsContext, the pages other than the targeting page, and the build and test configuration are not modelled.

## Findings

| source | as written | input that shows it | evidently intended | confidence | as-written member | corrected member |
|---|---|---|---|---|---|---|
| src/main/java/com/example/adplatform/infrastructure/web/controller/AdvertisementController.java:89-91 | the create handler maps the saved ad back with `toDto`, which streams every target set; the adapter stores an empty target set as null (AdvertisementRepositoryAdapter.java:192) and reads a null column back as a null set (AdvertisementRepositoryAdapter.java:154-168) | a valid new ad whose geo target set is empty: it is stored, then `toDto` throws NullPointerException and the client receives 500 | the reply is 201 with the saved ad, which a later GET of the new id returns | high, not executed | WebController.CreateWithoutRulesThrows | WebController.CreateWithoutRulesNullSafe |
| src/main/java/com/example/adplatform/infrastructure/web/filter/RateLimitingFilter.java:32,73-80 | `windowStartMs` is final, so a counter keeps the window it was created in; in every later window each request resets the count to 0 and then counts 1 | limit 1 and requests in windows 0, 1, 1, 1: every request passes, although window 1 holds three | the counter moves to the new window when it resets, so each window passes at most `limit` requests | high, not executed | RateLimiting.StaleCounterNeverLimits | RateLimiting.CorrectedLimitsEachWindow |
| frontend/app/targeting/page.tsx:124 | the bio search calls `advertisementService.getBioTargetedAdvertisements`, which frontend/services/advertisementService.ts does not define; the call throws a TypeError, which the handler catches | any bio search: no request is sent and the generic fetch error is shown. This is what the development server, or a build that skips type checks, does; frontend/next.config.js does not set `typescript.ignoreBuildErrors`, so a type-checked `next build` rejects the missing property before anything runs | the typed bio data is posted to the targeted endpoint | high, not executed | TargetingPages.TargetingPage.HandleBioSearch | TargetingPages.TargetingPage.HandleBioSearchCorrected |
| frontend/components/AdvertisementCard.tsx:181 | the location fragment is `{target.latitude && target.longitude && ...}`, and JSX renders a falsy number 0 as the text "0" | an include rule for US at latitude 0, longitude 10, radius 5 renders "Include users from US0" | the fragment ", within 5km of (0, 10)" whenever both coordinates are present | high, not executed | AdvertisementCards.EquatorShowsStrayZero | AdvertisementCards.EquatorShowsLocation, AdvertisementCards.GeoLinesCorrected |
