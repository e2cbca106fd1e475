/**
 * The application service (application/service/AdvertisementServiceImpl.java): field
 * validation, save and delete over the repository, the targeting pipelines
 * (active ads, then a targeting filter, then the viewing policy) and view tracking.
 */
module AdvertisementService {
  import opened Wrappers
  import opened JavaStrings
  import opened JavaValues
  import opened AdvertisementValidation
  import opened Failures
  import Moods
  import GeoTargets
  import Advertisements
  import TargetingService
  import P = Persistence
  import VP = ViewingPolicy

  type Ad = Advertisements.Advertisement
  type Timestamp = Advertisements.Timestamp

  // ----- validateAdvertisement -----

  const TITLE_REQUIRED := "Title is required"
  const CONTENT_REQUIRED := "Content is required"
  const SOURCE_REQUIRED := "Source is required"
  const SOURCE_IDENTIFIER_REQUIRED := "Source identifier is required"
  const VIDEO_ID_MISMATCH := "YouTube videoId must match sourceIdentifier for YOUTUBE ads"

  /** The fields the validation can report. */
  const VALIDATED_FIELDS: set<string> := {"title", "content", "source", "sourceIdentifier", "youtubeDetails.videoId"}

  /** A required text is missing when it is null or trims to nothing. */
  predicate Missing(s: Option<string>) {
    s.None? || Trim(s.value) == []
  }

  /** A present text is missing exactly when it consists of characters up to U+0020 only. */
  lemma MissingIffWhitespaceOnly(s: string)
    ensures Missing(Some(s)) <==> forall i :: 0 <= i < |s| ==> s[i] <= ' '
  {
    TrimWithEmptyIff(s, IsTrimmable);
  }

  /**
   * The YouTube consistency check: a YOUTUBE ad with details carrying a non-null videoId
   * that is not equal to the source identifier (a null identifier is never equal).
   */
  predicate VideoIdMismatch(ad: Ad) {
    ad.source == Some(Advertisements.YOUTUBE) && ad.youtubeDetails.Some? && ad.youtubeDetails.value.videoId.Some?
    && Some(ad.youtubeDetails.value.videoId.value) != ad.sourceIdentifier
  }

  /** The errors recorded by the title check. */
  function TitleErrors(ad: Ad): map<string, string> {
    if Missing(ad.title) then map["title" := TITLE_REQUIRED] else map[]
  }

  /** The errors recorded by the title and content checks. */
  function ContentErrors(ad: Ad): map<string, string> {
    if Missing(ad.content) then TitleErrors(ad)["content" := CONTENT_REQUIRED] else TitleErrors(ad)
  }

  /** The errors recorded up to the source and source identifier checks. */
  function SourceErrors(ad: Ad): map<string, string> {
    if ad.source.None? then ContentErrors(ad)["source" := SOURCE_REQUIRED]
    else if Missing(ad.sourceIdentifier) then ContentErrors(ad)["sourceIdentifier" := SOURCE_IDENTIFIER_REQUIRED]
    else ContentErrors(ad)
  }

  /** The error map `validateAdvertisement` fills, check after check. */
  function ValidationErrors(ad: Ad): (errors: map<string, string>)
    ensures errors.Keys <= VALIDATED_FIELDS
    ensures "title" in errors <==> Missing(ad.title)
    ensures "content" in errors <==> Missing(ad.content)
    ensures "source" in errors <==> ad.source.None?
    ensures "sourceIdentifier" in errors <==> ad.source.Some? && Missing(ad.sourceIdentifier)
    ensures "youtubeDetails.videoId" in errors <==> VideoIdMismatch(ad)
    ensures "title" in errors ==> errors["title"] == TITLE_REQUIRED
    ensures "content" in errors ==> errors["content"] == CONTENT_REQUIRED
    ensures "source" in errors ==> errors["source"] == SOURCE_REQUIRED
    ensures "sourceIdentifier" in errors ==> errors["sourceIdentifier"] == SOURCE_IDENTIFIER_REQUIRED
    ensures "youtubeDetails.videoId" in errors ==> errors["youtubeDetails.videoId"] == VIDEO_ID_MISMATCH
  {
    if VideoIdMismatch(ad) then SourceErrors(ad)["youtubeDetails.videoId" := VIDEO_ID_MISMATCH] else SourceErrors(ad)
  }

  /** An ad passes validation exactly when every check passes. */
  lemma ValidationPassesIff(ad: Ad)
    ensures ValidationErrors(ad) == map[] <==>
      !Missing(ad.title) && !Missing(ad.content) && ad.source.Some? && !Missing(ad.sourceIdentifier)
      && !VideoIdMismatch(ad)
  {
  }

  /**
   * A null source is reported once, as "source": the source identifier is then not checked,
   * and neither is the YouTube consistency.
   */
  lemma NullSourceSkipsIdentifierChecks(ad: Ad)
    requires ad.source.None?
    ensures "source" in ValidationErrors(ad)
    ensures "sourceIdentifier" !in ValidationErrors(ad) && "youtubeDetails.videoId" !in ValidationErrors(ad)
  {
  }

  /** A YOUTUBE ad whose details name a video but whose identifier is null fails both identifier checks. */
  lemma NullIdentifierWithVideoId(ad: Ad)
    requires ad.source == Some(Advertisements.YOUTUBE) && ad.sourceIdentifier.None?
    requires ad.youtubeDetails.Some? && ad.youtubeDetails.value.videoId.Some?
    ensures "sourceIdentifier" in ValidationErrors(ad) && "youtubeDetails.videoId" in ValidationErrors(ad)
  {
  }

  /**
   * `validateAdvertisement`: builds a fresh exception with the default message, adds one
   * error per failed check, and throws it (returns it here) exactly when an error was added.
   */
  method ValidateAdvertisement(ad: Ad) returns (thrown: AdvertisementValidationException?)
    ensures thrown == null <==> ValidationErrors(ad) == map[]
    ensures thrown != null ==> fresh(thrown) && thrown.message == DEFAULT_MESSAGE && thrown.errors == ValidationErrors(ad)
  {
    var exception := new AdvertisementValidationException();
    if Missing(ad.title) {
      exception := exception.AddError("title", TITLE_REQUIRED);
    }
    assert exception.errors == TitleErrors(ad);
    if Missing(ad.content) {
      exception := exception.AddError("content", CONTENT_REQUIRED);
    }
    assert exception.errors == ContentErrors(ad);
    if ad.source.None? {
      exception := exception.AddError("source", SOURCE_REQUIRED);
    } else if Missing(ad.sourceIdentifier) {
      exception := exception.AddError("sourceIdentifier", SOURCE_IDENTIFIER_REQUIRED);
    }
    assert exception.errors == SourceErrors(ad);
    if VideoIdMismatch(ad) {
      exception := exception.AddError("youtubeDetails.videoId", VIDEO_ID_MISMATCH);
    }
    assert exception.errors == ValidationErrors(ad);
    if exception.errors != map[] {
      return exception;
    }
    return null;
  }

  // ----- saving through the store -----

  const SAVE_FAILED := "Failed to save advertisement"
  const TARGETED_FAILED := "Failed to get targeted advertisements"

  /**
   * A validated new ad is inserted exactly when it also fits the columns (a description of
   * at most 1000 characters, a country on every geo rule and a mood on every mood rule),
   * and then under the next generated id, stamped with the current time.
   */
  lemma ValidNewAdInsertedIffFits(rows: map<int, P.AdvertisementJpaEntity>, nextId: int, ad: Ad, now: Timestamp)
    requires ValidationErrors(ad) == map[] && ad.id.None?
    ensures P.SaveResult(rows, nextId, P.MapToJpaEntity(ad), now).Ok? <==> P.FitsColumns(ad)
    ensures P.SaveResult(rows, nextId, P.MapToJpaEntity(ad), now).Ok? ==>
      P.SaveResult(rows, nextId, P.MapToJpaEntity(ad), now).value
        == P.MapToJpaEntity(ad).(id := Some(nextId), createdAt := Some(now), updatedAt := Some(now))
  {
    ValidationPassesIff(ad);
    P.NewEntitySavesIff(rows, nextId, P.MapToJpaEntity(ad), now);
    P.MappedConstraintsIff(ad, Some(now), now);
  }

  /**
   * A validated update of a stored ad fails in the store exactly when its creation time is
   * null (the column is not nullable and only an insert stamps it) or it does not fit the
   * columns; otherwise the row is written as given with a new `updatedAt`.
   */
  lemma ValidUpdateFailsIff(rows: map<int, P.AdvertisementJpaEntity>, nextId: int, ad: Ad, now: Timestamp)
    requires ValidationErrors(ad) == map[] && ad.id.Some? && ad.id.value in rows
    ensures P.SaveResult(rows, nextId, P.MapToJpaEntity(ad), now).Err? <==> ad.createdAt.None? || !P.FitsColumns(ad)
    ensures P.SaveResult(rows, nextId, P.MapToJpaEntity(ad), now).Ok? ==>
      P.SaveResult(rows, nextId, P.MapToJpaEntity(ad), now).value == P.MapToJpaEntity(ad).(updatedAt := Some(now))
  {
    ValidationPassesIff(ad);
    P.UpdateFailsIffConstraintBroken(rows, nextId, P.MapToJpaEntity(ad), now);
    P.MappedConstraintsIff(ad, ad.createdAt, now);
    assert P.MapToJpaEntity(ad).(createdAt := ad.createdAt, updatedAt := Some(now)) == P.MapToJpaEntity(ad).(updatedAt := Some(now));
  }

  /** The combined filter never adds an ad: whatever it keeps comes from its input. */
  lemma TargetingCriteriaKeepsInputOnly(ads: seq<Ad>, countryCode: Option<string>, userBioData: Option<Criteria>,
                                        mood: Option<Moods.Mood>)
    ensures var r := TargetingService.FilterByTargetingCriteria(Some(ads), countryCode, userBioData, mood);
      r.Ok? ==> forall a :: a in r.value ==> a in ads
  {
  }

  // ----- the fair-first display order -----

  /**
   * `r` is the fair-first display order of `filtered`, and `after` the view counters that
   * go with it: nothing and no view counted when there is nothing to show; otherwise the
   * fair pick of the display order's pool, then the rest of the display order without it,
   * with one more view for the pick.
   */
  predicate FairFirstOf(filtered: seq<Ad>, now: Timestamp, before: map<int, nat>, after: map<int, nat>, r: seq<Ad>) {
    var ordered := VP.OrderForDisplay(Some(filtered), now);
    if ordered == [] then r == [] && after == before
    else
      r != [] && r[0].id.Some? && VP.Pool(ordered, now) != [] &&
      VP.FairOutcome(VP.Pool(ordered, now), before, now, Ok(r[0])) &&
      r == [r[0]] + VP.Without(ordered, r[0]) && after == VP.Incremented(before, r[0].id.value)
  }

  /** The fair-first order and the counters after it are determined by the input, the counters and the time. */
  lemma FairFirstOfUnique(filtered: seq<Ad>, now: Timestamp, before: map<int, nat>,
                          after1: map<int, nat>, r1: seq<Ad>, after2: map<int, nat>, r2: seq<Ad>)
    requires FairFirstOf(filtered, now, before, after1, r1) && FairFirstOf(filtered, now, before, after2, r2)
    ensures r1 == r2 && after1 == after2
  {
    var ordered := VP.OrderForDisplay(Some(filtered), now);
    if ordered != [] {
      VP.FairOutcomeUnique(VP.Pool(ordered, now), before, now, Ok(r1[0]), Ok(r2[0]));
    }
  }

  // ----- events -----

  datatype AdvertisementViewedEvent = AdvertisementViewedEvent(advertisementId: int, timestamp: Timestamp)

  datatype AdvertisementInteractedEvent =
    AdvertisementInteractedEvent(advertisementId: int, interactionType: Option<string>, timestamp: Timestamp)

  // ----- the service -----

  /**
   * The service object.  Its repository and viewing policy are injected; the event
   * publisher is modelled by the two logs of events it has been handed.
   */
  class AdvertisementServiceImpl {
    const repository: P.AdvertisementRepositoryAdapter
    const viewingPolicyService: VP.ViewingPolicyService
    var viewedEvents: seq<AdvertisementViewedEvent>
    var interactedEvents: seq<AdvertisementInteractedEvent>

    constructor (repository: P.AdvertisementRepositoryAdapter, viewingPolicyService: VP.ViewingPolicyService)
      ensures this.repository == repository && this.viewingPolicyService == viewingPolicyService
      ensures viewedEvents == [] && interactedEvents == []
    {
      this.repository := repository;
      this.viewingPolicyService := viewingPolicyService;
      viewedEvents := [];
      interactedEvents := [];
    }

    /** The store's representation invariant. */
    predicate Valid()
      reads repository.jpaRepository
    {
      repository.jpaRepository.Valid()
    }

    /** The rows of the store behind the repository. */
    function Rows(): map<int, P.AdvertisementJpaEntity>
      reads repository.jpaRepository
    {
      repository.jpaRepository.rows
    }

    /** `getAllAdvertisements`: every stored ad. */
    method GetAllAdvertisements() returns (r: seq<Ad>)
      ensures forall a :: a in r <==> P.IsStored(Rows(), a, false)
    {
      r := repository.FindAll();
    }

    /** `getActiveAdvertisements`: every stored active ad. */
    method GetActiveAdvertisements() returns (r: seq<Ad>)
      ensures forall a :: a in r <==> P.IsStored(Rows(), a, true)
    {
      r := repository.FindByActiveTrue();
    }

    /** `getAdvertisementById`: the stored ad, or empty. */
    function GetAdvertisementById(id: int): (r: Option<Ad>)
      reads repository.jpaRepository
      ensures r.Some? <==> id in Rows()
      ensures r.Some? ==> r == P.StoredAd(Rows(), id) && P.IsStored(Rows(), r.value, false)
      ensures r.Some? && Valid() ==> r.value.id == Some(id)
    {
      repository.FindById(id)
    }

    /** `getAdvertisementByIdOrThrow`: the stored ad, or the not-found failure for its id. */
    method GetAdvertisementByIdOrThrow(id: int) returns (r: Result<Ad, Failure>)
      ensures r.Ok? <==> id in Rows()
      ensures r.Ok? ==> Some(r.value) == P.StoredAd(Rows(), id)
      ensures r.Err? ==> r.error == NotFoundFor(id)
    {
      match repository.FindById(id)
      case None => r := Err(NotFoundFor(id));
      case Some(a) => r := Ok(a);
    }

    /**
     * `saveAdvertisement`: a validation failure is rethrown with its error map and the store
     * untouched; a store failure becomes a CREATE (null id) or UPDATE operation failure;
     * otherwise the saved ad is returned.
     */
    method SaveAdvertisement(ad: Ad, now: Timestamp) returns (r: Result<Ad, Failure>)
      requires Valid()
      modifies repository.jpaRepository
      ensures Valid()
      ensures ValidationErrors(ad) != map[] ==>
        r.Err? && r.error.Validation? && fresh(r.error.exception) &&
        r.error.exception.message == DEFAULT_MESSAGE && r.error.exception.errors == ValidationErrors(ad) &&
        Rows() == old(Rows()) && repository.jpaRepository.nextId == old(repository.jpaRepository.nextId)
      ensures ValidationErrors(ad) == map[] ==>
        var saved := P.SaveResult(old(Rows()), old(repository.jpaRepository.nextId), P.MapToJpaEntity(ad), now);
        (saved.Err? ==> (r == Err(Operation(if ad.id.None? then CREATE else UPDATE, SAVE_FAILED)) &&
                         Rows() == old(Rows()) && repository.jpaRepository.nextId == old(repository.jpaRepository.nextId))) &&
        (saved.Ok? ==> (r == Ok(P.MapToAdvertisement(saved.value)) &&
                        Rows() == old(Rows())[saved.value.id.value := saved.value]))
    {
      var thrown := ValidateAdvertisement(ad);
      if thrown != null {
        return Err(Validation(thrown));
      }
      var saved := repository.Save(ad, now);
      match saved
      case Err(_) => r := Err(Operation(if ad.id.None? then CREATE else UPDATE, SAVE_FAILED));
      case Ok(a) => r := Ok(a);
    }

    /**
     * `deleteAdvertisement`: an absent id is the not-found failure and changes nothing;
     * a present id loses its row.
     */
    method DeleteAdvertisement(id: int) returns (r: Result<(), Failure>)
      requires Valid()
      modifies repository.jpaRepository
      ensures Valid()
      ensures r.Ok? <==> id in old(Rows())
      ensures r.Ok? ==> Rows() == old(Rows()) - {id}
      ensures r.Err? ==> r.error == NotFoundFor(id) && Rows() == old(Rows())
      ensures repository.jpaRepository.nextId == old(repository.jpaRepository.nextId)
    {
      if repository.FindById(id).None? {
        return Err(NotFoundFor(id));
      }
      repository.DeleteById(id);
      return Ok(());
    }

    /**
     * The tail shared by the targeting queries: the fair-first display order of the
     * filtered ads.  The input holds stored ads, which all have ids, so it cannot fail.
     */
    method FairFirst(filtered: seq<Ad>, now: Timestamp) returns (r: seq<Ad>)
      requires VP.AllIdsPresent(filtered)
      modifies viewingPolicyService
      ensures forall a :: a in r <==> a in filtered
      ensures FairFirstOf(filtered, now, old(viewingPolicyService.viewCounts), viewingPolicyService.viewCounts, r)
    {
      var res := viewingPolicyService.OrderForDisplayWithFairFirst(Some(filtered), now);
      r := res.value;
    }

    /** Stored ads all carry their id. */
    lemma StoredIdsPresent(ads: seq<Ad>)
      requires Valid()
      requires forall a :: a in ads ==> P.IsStored(Rows(), a, true)
      ensures VP.AllIdsPresent(ads)
    {
      forall a | a in ads ensures a.id.Some? {
        P.StoredAdsAreComplete(Rows(), repository.jpaRepository.nextId, a, true);
      }
    }

    /**
     * `getGeoTargetedAdvertisements`: exactly the stored active ads that match the geo
     * criteria, fair pick first, with the fair pick's view counted.
     */
    method GetGeoTargetedAdvertisements(countryCode: Option<string>, region: Option<string>, city: Option<string>,
                                        latitude: Option<real>, longitude: Option<real>,
                                        distance: GeoTargets.Distance, now: Timestamp) returns (r: seq<Ad>, ghost active: seq<Ad>)
      requires Valid()
      modifies viewingPolicyService
      ensures forall a :: a in r <==>
        P.IsStored(Rows(), a, true) && Advertisements.MatchesGeoTargeting(a, countryCode, region, city, latitude, longitude, distance)
      ensures forall a :: a in active <==> P.IsStored(Rows(), a, true)
      ensures FairFirstOf(TargetingService.FilterByGeoTargeting(Some(active), countryCode, region, city, latitude, longitude,
                                                                distance),
                          now, old(viewingPolicyService.viewCounts), viewingPolicyService.viewCounts, r)
    {
      var stored := GetActiveAdvertisements();
      active := stored;
      var filtered := TargetingService.FilterByGeoTargeting(Some(stored), countryCode, region, city, latitude, longitude, distance);
      TargetingService.FilterByGeoTargetingExact(active, countryCode, region, city, latitude, longitude, distance);
      StoredIdsPresent(filtered);
      r := FairFirst(filtered, now);
    }

    /**
     * `getBioTargetedAdvertisements`: exactly the stored active ads that match the bio
     * criteria, fair pick first, with the fair pick's view counted.
     */
    method GetBioTargetedAdvertisements(age: Option<int>, gender: Option<string>, occupation: Option<string>,
                                        educationLevel: Option<string>, language: Option<string>,
                                        interests: Option<set<string>>, now: Timestamp) returns (r: seq<Ad>, ghost active: seq<Ad>)
      requires Valid()
      modifies viewingPolicyService
      ensures forall a :: a in r <==>
        P.IsStored(Rows(), a, true) && Advertisements.MatchesBioTargeting(a, age, gender, occupation, educationLevel, language, interests)
      ensures forall a :: a in active <==> P.IsStored(Rows(), a, true)
      ensures FairFirstOf(TargetingService.FilterByBioTargeting(Some(active), age, gender, occupation, educationLevel, language, interests), now,
                          old(viewingPolicyService.viewCounts), viewingPolicyService.viewCounts, r)
    {
      var stored := GetActiveAdvertisements();
      active := stored;
      var filtered := TargetingService.FilterByBioTargeting(Some(stored), age, gender, occupation, educationLevel, language, interests);
      TargetingService.FilterByBioTargetingExact(active, age, gender, occupation, educationLevel, language, interests);
      StoredIdsPresent(filtered);
      r := FairFirst(filtered, now);
    }

    /**
     * `getMoodTargetedAdvertisements`: exactly the stored active ads that match the mood
     * criteria, fair pick first, with the fair pick's view counted.
     */
    method GetMoodTargetedAdvertisements(mood: Option<Moods.Mood>, intensity: Option<int>, timeOfDay: Option<string>,
                                         dayOfWeek: Option<string>, season: Option<string>, now: Timestamp)
      returns (r: seq<Ad>, ghost active: seq<Ad>)
      requires Valid()
      modifies viewingPolicyService
      ensures forall a :: a in r <==>
        P.IsStored(Rows(), a, true) && Advertisements.MatchesMoodTargeting(a, mood, intensity, timeOfDay, dayOfWeek, season)
      ensures forall a :: a in active <==> P.IsStored(Rows(), a, true)
      ensures FairFirstOf(TargetingService.FilterByMoodTargeting(Some(active), mood, intensity, timeOfDay, dayOfWeek, season), now,
                          old(viewingPolicyService.viewCounts), viewingPolicyService.viewCounts, r)
    {
      var stored := GetActiveAdvertisements();
      active := stored;
      var filtered := TargetingService.FilterByMoodTargeting(Some(stored), mood, intensity, timeOfDay, dayOfWeek, season);
      TargetingService.FilterByMoodTargetingExact(active, mood, intensity, timeOfDay, dayOfWeek, season);
      StoredIdsPresent(filtered);
      r := FairFirst(filtered, now);
    }

    /**
     * `getTargetedAdvertisements`: the combined filter over the stored active ads (returned
     * in `active`); a failure of the filter (a criteria value of the wrong type) becomes a
     * TARGETING operation failure with no view counted, otherwise its ads come fair pick first.
     */
    method GetTargetedAdvertisements(countryCode: Option<string>, userBioData: Option<Criteria>, mood: Option<Moods.Mood>,
                                     now: Timestamp) returns (r: Result<seq<Ad>, Failure>, ghost active: seq<Ad>)
      requires Valid()
      modifies viewingPolicyService
      ensures forall a :: a in active <==> P.IsStored(Rows(), a, true)
      ensures var filtered := TargetingService.FilterByTargetingCriteria(Some(active), countryCode, userBioData, mood);
        (filtered.Err? <==> r.Err?) &&
        (r.Ok? ==> forall a :: a in r.value <==> a in filtered.value)
      ensures r.Err? ==> (r.error == Operation(TARGETING, TARGETED_FAILED) &&
        viewingPolicyService.viewCounts == old(viewingPolicyService.viewCounts))
      ensures r.Ok? ==>
        FairFirstOf(TargetingService.FilterByTargetingCriteria(Some(active), countryCode, userBioData, mood).value, now,
                    old(viewingPolicyService.viewCounts), viewingPolicyService.viewCounts, r.value)
      ensures (userBioData.None? || userBioData.value == map[]) ==>
        r.Ok? && forall a :: a in r.value <==> P.IsStored(Rows(), a, true)
    {
      var stored := GetActiveAdvertisements();
      active := stored;
      var filtered := TargetingService.FilterByTargetingCriteria(Some(stored), countryCode, userBioData, mood);
      if filtered.Err? {
        return Err(Operation(TARGETING, TARGETED_FAILED)), active;
      }
      TargetingCriteriaKeepsInputOnly(stored, countryCode, userBioData, mood);
      StoredIdsPresent(filtered.value);
      if stored != [] && (userBioData.None? || userBioData.value == map[]) {
        TargetingService.NoBioDataKeepsInput(stored, countryCode, userBioData, mood);
      }
      var ordered := FairFirst(filtered.value, now);
      r := Ok(ordered);
    }

    /** `trackAdvertisementView`: an absent id fails before any event is published; otherwise one viewed event is. */
    method TrackAdvertisementView(id: int, now: Timestamp) returns (r: Result<(), Failure>)
      modifies this
      ensures r.Ok? <==> id in Rows()
      ensures r.Err? ==> r.error == NotFoundFor(id) && viewedEvents == old(viewedEvents)
      ensures r.Ok? ==> viewedEvents == old(viewedEvents) + [AdvertisementViewedEvent(id, now)]
      ensures interactedEvents == old(interactedEvents)
    {
      var found := GetAdvertisementByIdOrThrow(id);
      if found.Err? {
        return Err(found.error);
      }
      viewedEvents := viewedEvents + [AdvertisementViewedEvent(id, now)];
      return Ok(());
    }

    /** `trackAdvertisementInteraction`: as view tracking, with an interacted event carrying its type. */
    method TrackAdvertisementInteraction(id: int, interactionType: Option<string>, now: Timestamp) returns (r: Result<(), Failure>)
      modifies this
      ensures r.Ok? <==> id in Rows()
      ensures r.Err? ==> r.error == NotFoundFor(id) && interactedEvents == old(interactedEvents)
      ensures r.Ok? ==> interactedEvents == old(interactedEvents) + [AdvertisementInteractedEvent(id, interactionType, now)]
      ensures viewedEvents == old(viewedEvents)
    {
      var found := GetAdvertisementByIdOrThrow(id);
      if found.Err? {
        return Err(found.error);
      }
      interactedEvents := interactedEvents + [AdvertisementInteractedEvent(id, interactionType, now)];
      return Ok(());
    }
  }
}
