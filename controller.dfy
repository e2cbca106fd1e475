/**
 * The REST controller's status decisions over the service
 * (infrastructure/web/controller/AdvertisementController.java).  An exception thrown
 * inside an endpoint is returned as `Thrown`; ExceptionHandling turns it into a reply.
 */
module WebController {
  import opened Wrappers
  import opened JavaValues
  import opened Failures
  import opened WebMapper
  import opened Sequences
  import Moods
  import GeoTargets
  import A = Advertisements
  import P = Persistence
  import S = AdvertisementService
  import TS = TargetingService

  type Timestamp = A.Timestamp

  const OK := 200
  const CREATED := 201
  const NO_CONTENT := 204
  const BAD_REQUEST := 400
  const NOT_FOUND := 404

  /** A `ResponseEntity` with an optional body, or the exception the endpoint let escape. */
  datatype Reply<T> = Reply(status: int, body: Option<T>) | Thrown(failure: Failure)

  /** `ResponseEntity.status(status).body(mapper.toDto(ad))`: the mapping may throw. */
  function DtoReply(status: int, ad: A.Advertisement): (r: Reply<AdvertisementDto>)
    ensures r.Thrown? <==> ad.geoTargets.None? || ad.bioTargets.None? || ad.moodTargets.None?
    ensures r.Thrown? ==> r.failure == Unexpected(NullPointerException)
    ensures r.Reply? ==> r.status == status && r.body.Some? && ToDomain(r.body.value) == Ok(ad)
  {
    match ToDto(ad)
    case Ok(dto) =>
      AdvertisementRoundTrip(ad);
      Reply(status, Some(dto))
    case Err(e) => Thrown(Unexpected(e))
  }

  /** `ResponseEntity.ok(list of DTOs)`, which is total for stored ads. */
  function ListReply(ads: seq<A.Advertisement>): (r: Reply<seq<AdvertisementDto>>)
    requires forall i :: 0 <= i < |ads| ==> ads[i].geoTargets.Some? && ads[i].bioTargets.Some? && ads[i].moodTargets.Some?
    ensures r.Reply? && r.status == OK && r.body.Some? && |r.body.value| == |ads|
    ensures forall i :: 0 <= i < |ads| ==> ToDto(ads[i]) == Ok(r.body.value[i])
  {
    ToDtosOkIff(ads);
    Reply(OK, Some(ToDtos(ads).value))
  }

  /** The ad a create or update request carries, when the DTO maps. */
  predicate MapsTo(dto: AdvertisementDto, ad: A.Advertisement) {
    ToDomain(dto) == Ok(ad)
  }

  class AdvertisementController {
    const advertisementService: S.AdvertisementServiceImpl

    constructor (advertisementService: S.AdvertisementServiceImpl)
      ensures this.advertisementService == advertisementService
    {
      this.advertisementService := advertisementService;
    }

    predicate Valid()
      reads advertisementService.repository.jpaRepository
    {
      advertisementService.Valid()
    }

    function Rows(): map<int, P.AdvertisementJpaEntity>
      reads advertisementService.repository.jpaRepository
    {
      advertisementService.Rows()
    }

    function NextId(): int
      reads advertisementService.repository.jpaRepository
    {
      advertisementService.repository.jpaRepository.nextId
    }

    /** Stored ads carry all three target sets, so they always map. */
    lemma StoredAdsMap(ads: seq<A.Advertisement>, activeOnly: bool)
      requires Valid()
      requires forall a :: a in ads ==> P.IsStored(Rows(), a, activeOnly)
      ensures forall i :: 0 <= i < |ads| ==> ads[i].geoTargets.Some? && ads[i].bioTargets.Some? && ads[i].moodTargets.Some?
    {
      forall i | 0 <= i < |ads|
        ensures ads[i].geoTargets.Some? && ads[i].bioTargets.Some? && ads[i].moodTargets.Some?
      {
        P.StoredAdsAreComplete(Rows(), NextId(), ads[i], activeOnly);
      }
    }

    /** `GET /advertisements`: 200 with one DTO per stored ad, in the service's order. */
    method GetAllAdvertisements() returns (r: Reply<seq<AdvertisementDto>>, ghost ads: seq<A.Advertisement>)
      requires Valid()
      ensures forall a :: a in ads <==> P.IsStored(Rows(), a, false)
      ensures r.Reply? && r.status == OK && r.body.Some? && |r.body.value| == |ads|
      ensures forall i :: 0 <= i < |ads| ==> ToDto(ads[i]) == Ok(r.body.value[i])
    {
      var found := advertisementService.GetAllAdvertisements();
      ads := found;
      StoredAdsMap(found, false);
      r := ListReply(found);
    }

    /** `GET /advertisements/active`: 200 with one DTO per stored active ad. */
    method GetActiveAdvertisements() returns (r: Reply<seq<AdvertisementDto>>, ghost ads: seq<A.Advertisement>)
      requires Valid()
      ensures forall a :: a in ads <==> P.IsStored(Rows(), a, true)
      ensures r.Reply? && r.status == OK && r.body.Some? && |r.body.value| == |ads|
      ensures forall i :: 0 <= i < |ads| ==> ToDto(ads[i]) == Ok(r.body.value[i])
    {
      var found := advertisementService.GetActiveAdvertisements();
      ads := found;
      StoredAdsMap(found, true);
      r := ListReply(found);
    }

    /** `GET /advertisements/{id}`: 200 with the DTO of the stored ad, or 404 with no body. */
    function GetAdvertisementById(id: int): (r: Reply<AdvertisementDto>)
      requires Valid()
      reads advertisementService.repository.jpaRepository
      ensures r.Reply?
      ensures r.status == OK <==> id in Rows()
      ensures r.status == NOT_FOUND <==> id !in Rows()
      ensures r.status == OK ==> r.body.Some? && Ok(r.body.value) == ToDto(P.StoredAd(Rows(), id).value)
      ensures r.status == NOT_FOUND ==> r.body.None?
    {
      match advertisementService.GetAdvertisementById(id)
      case None => Reply(NOT_FOUND, None)
      case Some(ad) =>
        assert P.IsStored(Rows(), ad, false);
        P.StoredAdsAreComplete(Rows(), NextId(), ad, false);
        DtoReply(OK, ad)
    }

    /**
     * `POST /advertisements`, as written: a DTO with an id is refused with 400; otherwise the
     * mapped ad is saved and answered with 201 and the DTO of the saved ad.
     */
    method CreateAdvertisement(dto: AdvertisementDto, now: Timestamp) returns (r: Reply<AdvertisementDto>)
      requires Valid()
      modifies advertisementService.repository.jpaRepository
      ensures Valid()
      ensures dto.id.Some? ==> r == Reply(BAD_REQUEST, None)
      ensures dto.id.None? && ToDomain(dto).Err? ==> r == Thrown(Unexpected(NullPointerException))
      ensures dto.id.None? && ToDomain(dto).Ok? && S.ValidationErrors(ToDomain(dto).value) != map[] ==>
        (r.Thrown? && r.failure.Validation? && r.failure.exception.errors == S.ValidationErrors(ToDomain(dto).value))
      ensures (dto.id.Some? || ToDomain(dto).Err? || S.ValidationErrors(ToDomain(dto).value) != map[]) ==>
        (Rows() == old(Rows()) && NextId() == old(NextId()))
      ensures dto.id.None? && ToDomain(dto).Ok? && S.ValidationErrors(ToDomain(dto).value) == map[] ==>
        var saved := P.SaveResult(old(Rows()), old(NextId()), P.MapToJpaEntity(ToDomain(dto).value), now);
        (saved.Ok? <==> P.FitsColumns(ToDomain(dto).value)) &&
        (saved.Err? ==> r == Thrown(Operation(CREATE, S.SAVE_FAILED)) && Rows() == old(Rows()) && NextId() == old(NextId())) &&
        (saved.Ok? ==> saved.value.id == Some(old(NextId())) &&
                       Rows() == old(Rows())[old(NextId()) := saved.value] &&
                       r == DtoReply(CREATED, P.MapToAdvertisement(saved.value)))
    {
      if dto.id.Some? {
        return Reply(BAD_REQUEST, None);
      }
      var mapped := ToDomain(dto);
      if mapped.Err? {
        return Thrown(Unexpected(mapped.error));
      }
      var ad := mapped.value;
      if S.ValidationErrors(ad) == map[] {
        S.ValidNewAdInsertedIffFits(Rows(), NextId(), ad, now);
      }
      var result := advertisementService.SaveAdvertisement(ad, now);
      match result
      case Err(f) => r := Thrown(f);
      case Ok(saved) => r := DtoReply(CREATED, saved);
    }

    /**
     * `POST /advertisements` with the reply built by the null-safe mapping: a valid new ad is
     * always answered with 201, and the body reads back as the saved ad.
     */
    method CreateAdvertisementNullSafe(dto: AdvertisementDto, now: Timestamp) returns (r: Reply<AdvertisementDto>)
      requires Valid()
      modifies advertisementService.repository.jpaRepository
      ensures Valid()
      ensures dto.id.Some? ==> r == Reply(BAD_REQUEST, None)
      ensures dto.id.None? && ToDomain(dto).Err? ==> r == Thrown(Unexpected(NullPointerException))
      ensures dto.id.None? && ToDomain(dto).Ok? && S.ValidationErrors(ToDomain(dto).value) != map[] ==>
        (r.Thrown? && r.failure.Validation? && r.failure.exception.errors == S.ValidationErrors(ToDomain(dto).value))
      ensures (dto.id.Some? || ToDomain(dto).Err? || S.ValidationErrors(ToDomain(dto).value) != map[]) ==>
        (Rows() == old(Rows()) && NextId() == old(NextId()))
      ensures dto.id.None? && ToDomain(dto).Ok? && S.ValidationErrors(ToDomain(dto).value) == map[] ==>
        var saved := P.SaveResult(old(Rows()), old(NextId()), P.MapToJpaEntity(ToDomain(dto).value), now);
        (saved.Ok? <==> P.FitsColumns(ToDomain(dto).value)) &&
        (saved.Err? ==> r == Thrown(Operation(CREATE, S.SAVE_FAILED)) && Rows() == old(Rows()) && NextId() == old(NextId())) &&
        (saved.Ok? ==> saved.value.id == Some(old(NextId())) &&
                       Rows() == old(Rows())[old(NextId()) := saved.value] &&
                       r == Reply(CREATED, Some(ToDtoNullSafe(P.MapToAdvertisement(saved.value)))))
    {
      if dto.id.Some? {
        return Reply(BAD_REQUEST, None);
      }
      var mapped := ToDomain(dto);
      if mapped.Err? {
        return Thrown(Unexpected(mapped.error));
      }
      var ad := mapped.value;
      if S.ValidationErrors(ad) == map[] {
        S.ValidNewAdInsertedIffFits(Rows(), NextId(), ad, now);
      }
      var result := advertisementService.SaveAdvertisement(ad, now);
      match result
      case Err(f) => r := Thrown(f);
      case Ok(saved) => r := Reply(CREATED, Some(ToDtoNullSafe(saved)));
    }

    /**
     * `PUT /advertisements/{id}`: 400 unless the DTO carries the path's id (checked first),
     * 404 when no such ad is stored, otherwise the mapped ad is saved and answered with 200.
     */
    method UpdateAdvertisement(id: int, dto: AdvertisementDto, now: Timestamp) returns (r: Reply<AdvertisementDto>)
      requires Valid()
      modifies advertisementService.repository.jpaRepository
      ensures Valid()
      ensures dto.id != Some(id) ==> r == Reply(BAD_REQUEST, None)
      ensures dto.id == Some(id) && id !in old(Rows()) ==> r == Reply(NOT_FOUND, None)
      ensures dto.id == Some(id) && id in old(Rows()) && ToDomain(dto).Err? ==> r == Thrown(Unexpected(NullPointerException))
      ensures (dto.id != Some(id) || id !in old(Rows()) || ToDomain(dto).Err?) ==>
        (Rows() == old(Rows()) && NextId() == old(NextId()))
      ensures dto.id == Some(id) && id in old(Rows()) && ToDomain(dto).Ok? ==>
        var ad := ToDomain(dto).value;
        var saved := P.SaveResult(old(Rows()), old(NextId()), P.MapToJpaEntity(ad), now);
        (S.ValidationErrors(ad) != map[] ==>
           r.Thrown? && r.failure.Validation? && Rows() == old(Rows())) &&
        (S.ValidationErrors(ad) == map[] && saved.Err? ==>
           r == Thrown(Operation(UPDATE, S.SAVE_FAILED)) && Rows() == old(Rows())) &&
        (S.ValidationErrors(ad) == map[] && saved.Ok? ==>
           Rows() == old(Rows())[id := saved.value] && r == DtoReply(OK, P.MapToAdvertisement(saved.value)))
    {
      if dto.id != Some(id) {
        return Reply(BAD_REQUEST, None);
      }
      if advertisementService.GetAdvertisementById(id).None? {
        return Reply(NOT_FOUND, None);
      }
      var mapped := ToDomain(dto);
      if mapped.Err? {
        return Thrown(Unexpected(mapped.error));
      }
      var result := advertisementService.SaveAdvertisement(mapped.value, now);
      match result
      case Err(f) => r := Thrown(f);
      case Ok(saved) => r := DtoReply(OK, saved);
    }

    /** `DELETE /advertisements/{id}`: 404 when no such ad is stored, otherwise the row goes and 204. */
    method DeleteAdvertisement(id: int) returns (r: Reply<()>)
      requires Valid()
      modifies advertisementService.repository.jpaRepository
      ensures Valid()
      ensures id !in old(Rows()) ==> r == Reply(NOT_FOUND, None) && Rows() == old(Rows())
      ensures id in old(Rows()) ==> r == Reply(NO_CONTENT, None) && Rows() == old(Rows()) - {id}
      ensures NextId() == old(NextId())
    {
      if advertisementService.GetAdvertisementById(id).None? {
        return Reply(NOT_FOUND, None);
      }
      var deleted := advertisementService.DeleteAdvertisement(id);
      r := Reply(NO_CONTENT, None);
    }

    /** The server's in-memory view counters. */
    function ViewCounts(): map<int, nat>
      reads advertisementService.viewingPolicyService
    {
      advertisementService.viewingPolicyService.viewCounts
    }

    /**
     * `POST /advertisements/targeted`: 200 with the DTOs of the service's fair-first list of
     * the active ads (`active`) the combined filter keeps, or the service's TARGETING
     * failure when that filter fails.
     */
    method GetTargetedAdvertisements(countryCode: Option<string>, userBioData: Option<Criteria>, mood: Option<Moods.Mood>,
                                     now: Timestamp)
      returns (r: Reply<seq<AdvertisementDto>>, ghost ads: seq<A.Advertisement>, ghost active: seq<A.Advertisement>)
      requires Valid()
      modifies advertisementService.viewingPolicyService
      ensures forall a :: a in active <==> P.IsStored(Rows(), a, true)
      ensures var filtered := TS.FilterByTargetingCriteria(Some(active), countryCode, userBioData, mood);
        (r.Thrown? <==> filtered.Err?) &&
        (r.Thrown? ==> r.failure == Operation(TARGETING, S.TARGETED_FAILED) && ViewCounts() == old(ViewCounts())) &&
        (r.Reply? ==> S.FairFirstOf(filtered.value, now, old(ViewCounts()), ViewCounts(), ads))
      ensures r.Reply? ==> (r.status == OK && r.body.Some? && |r.body.value| == |ads| &&
        (forall i :: 0 <= i < |ads| ==> ToDto(ads[i]) == Ok(r.body.value[i])) &&
        (forall a :: a in ads ==> P.IsStored(Rows(), a, true)))
      ensures (userBioData.None? || userBioData.value == map[]) ==>
        r.Reply? && forall a :: a in ads <==> P.IsStored(Rows(), a, true)
    {
      var result, stored := advertisementService.GetTargetedAdvertisements(countryCode, userBioData, mood, now);
      active := stored;
      if result.Err? {
        ads := [];
        return Thrown(result.error), ads, active;
      }
      ads := result.value;
      S.TargetingCriteriaKeepsInputOnly(active, countryCode, userBioData, mood);
      StoredAdsMap(result.value, true);
      r := ListReply(result.value);
    }

    /**
     * `GET /advertisements/geo-targeted`: 200 with the DTOs of the fair-first list of the
     * active ads (`active`) that match the geo criteria.
     */
    method GetGeoTargetedAdvertisements(countryCode: Option<string>, region: Option<string>, city: Option<string>,
                                        latitude: Option<real>, longitude: Option<real>,
                                        distance: GeoTargets.Distance, now: Timestamp)
      returns (r: Reply<seq<AdvertisementDto>>, ghost ads: seq<A.Advertisement>, ghost active: seq<A.Advertisement>)
      requires Valid()
      modifies advertisementService.viewingPolicyService
      ensures forall a :: a in ads <==>
        P.IsStored(Rows(), a, true) && A.MatchesGeoTargeting(a, countryCode, region, city, latitude, longitude, distance)
      ensures forall a :: a in active <==> P.IsStored(Rows(), a, true)
      ensures S.FairFirstOf(TS.FilterByGeoTargeting(Some(active), countryCode, region, city, latitude, longitude, distance),
                            now, old(ViewCounts()), ViewCounts(), ads)
      ensures r.Reply? && r.status == OK && r.body.Some? && |r.body.value| == |ads|
      ensures forall i :: 0 <= i < |ads| ==> ToDto(ads[i]) == Ok(r.body.value[i])
    {
      var found, stored := advertisementService.GetGeoTargetedAdvertisements(countryCode, region, city, latitude, longitude,
                                                                             distance, now);
      ads := found;
      active := stored;
      StoredAdsMap(found, true);
      r := ListReply(found);
    }

    /**
     * `GET /advertisements/mood-targeted`: the mood is a required parameter; 200 with the DTOs
     * of the fair-first list of the active ads (`active`) that match the mood criteria.
     */
    method GetMoodTargetedAdvertisements(mood: Moods.Mood, intensity: Option<int>, timeOfDay: Option<string>,
                                         dayOfWeek: Option<string>, season: Option<string>, now: Timestamp)
      returns (r: Reply<seq<AdvertisementDto>>, ghost ads: seq<A.Advertisement>, ghost active: seq<A.Advertisement>)
      requires Valid()
      modifies advertisementService.viewingPolicyService
      ensures forall a :: a in ads <==>
        P.IsStored(Rows(), a, true) && A.MatchesMoodTargeting(a, Some(mood), intensity, timeOfDay, dayOfWeek, season)
      ensures forall a :: a in active <==> P.IsStored(Rows(), a, true)
      ensures S.FairFirstOf(TS.FilterByMoodTargeting(Some(active), Some(mood), intensity, timeOfDay, dayOfWeek, season),
                            now, old(ViewCounts()), ViewCounts(), ads)
      ensures r.Reply? && r.status == OK && r.body.Some? && |r.body.value| == |ads|
      ensures forall i :: 0 <= i < |ads| ==> ToDto(ads[i]) == Ok(r.body.value[i])
    {
      var found, stored := advertisementService.GetMoodTargetedAdvertisements(Some(mood), intensity, timeOfDay, dayOfWeek,
                                                                              season, now);
      ads := found;
      active := stored;
      StoredAdsMap(found, true);
      r := ListReply(found);
    }
  }

  // ----- the reply to a create without targeting rules -----

  /**
   * As written: a valid new ad with an empty geo target set is inserted when it fits the
   * columns, but the saved row comes back with a null set, so mapping the reply throws and
   * the exception handler answers 500 although the ad was stored.
   */
  lemma CreateWithoutRulesThrows(rows: map<int, P.AdvertisementJpaEntity>, nextId: int, dto: AdvertisementDto, now: Timestamp)
    requires dto.id.None? && ToDomain(dto).Ok? && S.ValidationErrors(ToDomain(dto).value) == map[]
    requires dto.geoTargets == Some({})
    ensures var saved := P.SaveResult(rows, nextId, P.MapToJpaEntity(ToDomain(dto).value), now);
      (saved.Ok? <==> P.FitsColumns(ToDomain(dto).value)) &&
      (saved.Ok? ==> saved.value.id == Some(nextId) &&
                     DtoReply(CREATED, P.MapToAdvertisement(saved.value)) == Thrown(Unexpected(NullPointerException)))
  {
    var ad := ToDomain(dto).value;
    assert Image({}, GeoToDomain) == {};
    assert ad.geoTargets == Some(Image({}, GeoToDomain));
    EmptyGeoSavedAsNull(rows, nextId, ad, now);
    if P.SaveResult(rows, nextId, P.MapToJpaEntity(ad), now).Ok? {
      assert ToDto(P.MapToAdvertisement(P.SaveResult(rows, nextId, P.MapToJpaEntity(ad), now).value)).Err?;
    }
  }

  /**
   * A valid new ad whose geo target set is empty is inserted exactly when it fits the
   * columns, and the saved row then maps to an ad with no geo set.
   */
  lemma EmptyGeoSavedAsNull(rows: map<int, P.AdvertisementJpaEntity>, nextId: int, ad: A.Advertisement, now: Timestamp)
    requires ad.id.None? && S.ValidationErrors(ad) == map[] && ad.geoTargets == Some({})
    ensures var saved := P.SaveResult(rows, nextId, P.MapToJpaEntity(ad), now);
      (saved.Ok? <==> P.FitsColumns(ad)) &&
      (saved.Ok? ==> saved.value.id == Some(nextId) && P.MapToAdvertisement(saved.value).geoTargets.None?)
  {
    var e := P.MapToJpaEntity(ad);
    assert e.geoTargets.None?;
    S.ValidNewAdInsertedIffFits(rows, nextId, ad, now);
  }

  /** Loading fills each null target set of a row with the empty set, and nothing else. */
  lemma LoadedFillsEmpty(e: P.AdvertisementJpaEntity)
    ensures var ad := P.MapToAdvertisement(e);
      P.MapToAdvertisement(P.Loaded(e)) ==
        ad.(geoTargets := Some(OrEmpty(ad.geoTargets)), bioTargets := Some(OrEmpty(ad.bioTargets)),
            moodTargets := Some(OrEmpty(ad.moodTargets)))
  {
    var ad := P.MapToAdvertisement(e);
    var loaded := P.MapToAdvertisement(P.Loaded(e));
    assert Image({}, P.MapToGeoTarget) == {};
    assert Image({}, P.MapToBioTarget) == {};
    assert Image({}, P.MapToMoodTarget) == {};
    assert loaded.geoTargets == Some(OrEmpty(ad.geoTargets));
    assert loaded.bioTargets == Some(OrEmpty(ad.bioTargets));
    assert loaded.moodTargets == Some(OrEmpty(ad.moodTargets));
  }

  /**
   * With the null-safe mapping the same create, when it is inserted, reads back from the
   * reply body as the ad a later lookup of the new id returns.
   */
  lemma CreateWithoutRulesNullSafe(rows: map<int, P.AdvertisementJpaEntity>, nextId: int, dto: AdvertisementDto, now: Timestamp)
    requires dto.id.None? && ToDomain(dto).Ok? && S.ValidationErrors(ToDomain(dto).value) == map[]
    ensures var saved := P.SaveResult(rows, nextId, P.MapToJpaEntity(ToDomain(dto).value), now);
      (saved.Ok? <==> P.FitsColumns(ToDomain(dto).value)) &&
      (saved.Ok? ==>
         ToDomain(ToDtoNullSafe(P.MapToAdvertisement(saved.value))).Ok? &&
         P.StoredAd(rows[nextId := saved.value], nextId) == Some(ToDomain(ToDtoNullSafe(P.MapToAdvertisement(saved.value))).value))
  {
    var ad := ToDomain(dto).value;
    S.ValidNewAdInsertedIffFits(rows, nextId, ad, now);
    var result := P.SaveResult(rows, nextId, P.MapToJpaEntity(ad), now);
    if result.Ok? {
      var saved := result.value;
      NullSafeRoundTrip(P.MapToAdvertisement(saved));
      LoadedFillsEmpty(saved);
    }
  }
}
