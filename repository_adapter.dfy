/**
 * The persistence adapter: JPA entities, the converters between them and the domain
 * model, and `save`/`findById`/`deleteById` over an abstract JPA store
 * (infrastructure/persistence/adapter/AdvertisementRepositoryAdapter.java and the entity
 * classes it converts).
 */
module Persistence {
  import opened Wrappers
  import opened Sequences
  import opened JavaStrings
  import JavaInts
  import Genders
  import Moods
  import GT = GeoTargets
  import BT = BioTargets
  import MT = MoodTargets
  import A = Advertisements

  type Timestamp = A.Timestamp

  // ----- JPA enums and their name mapping -----

  /** `BioTargetJpaEntity.GenderJpaEnum`. */
  datatype GenderJpaEnum = JpaMale | JpaFemale | JpaNonBinary | JpaAll

  /** `GenderJpaEnum.name()`. */
  function GenderJpaName(g: GenderJpaEnum): string {
    match g
    case JpaMale => "MALE"
    case JpaFemale => "FEMALE"
    case JpaNonBinary => "NON_BINARY"
    case JpaAll => "ALL"
  }

  /** `GenderJpaEnum.valueOf`: the constant with exactly this name, if there is one (the source throws otherwise). */
  function GenderJpaValueOf(name: string): (r: Option<GenderJpaEnum>)
    ensures r.Some? ==> GenderJpaName(r.value) == name
  {
    if name == "MALE" then Some(JpaMale)
    else if name == "FEMALE" then Some(JpaFemale)
    else if name == "NON_BINARY" then Some(JpaNonBinary)
    else if name == "ALL" then Some(JpaAll)
    else None
  }

  /** `MoodTargetJpaEntity.MoodJpaEnum`. */
  datatype MoodJpaEnum = JpaHappy | JpaSad | JpaExcited | JpaRelaxed | JpaAngry | JpaNeutral

  /** `MoodJpaEnum.name()`. */
  function MoodJpaName(m: MoodJpaEnum): string {
    match m
    case JpaHappy => "HAPPY"
    case JpaSad => "SAD"
    case JpaExcited => "EXCITED"
    case JpaRelaxed => "RELAXED"
    case JpaAngry => "ANGRY"
    case JpaNeutral => "NEUTRAL"
  }

  /** `MoodJpaEnum.valueOf`: the constant with exactly this name, if there is one (the source throws otherwise). */
  function MoodJpaValueOf(name: string): (r: Option<MoodJpaEnum>)
    ensures r.Some? ==> MoodJpaName(r.value) == name
  {
    if name == "HAPPY" then Some(JpaHappy)
    else if name == "SAD" then Some(JpaSad)
    else if name == "EXCITED" then Some(JpaExcited)
    else if name == "RELAXED" then Some(JpaRelaxed)
    else if name == "ANGRY" then Some(JpaAngry)
    else if name == "NEUTRAL" then Some(JpaNeutral)
    else None
  }

  /**
   * `mapToGender`: null stays null, otherwise `Gender.valueOf(g.name())`.  A `None` for a
   * non-null argument would be the `IllegalArgumentException` of `valueOf`;
   * `GenderMappingsAgree` shows it never happens.
   */
  function MapToGender(g: Option<GenderJpaEnum>): Option<Genders.Gender> {
    if g.None? then None else Genders.ValueOf(GenderJpaName(g.value))
  }

  /** `mapToGenderJpaEnum`: null stays null, otherwise `GenderJpaEnum.valueOf(g.name())`. */
  function MapToGenderJpaEnum(g: Option<Genders.Gender>): Option<GenderJpaEnum> {
    if g.None? then None else GenderJpaValueOf(Genders.Name(g.value))
  }

  /** `mapToMood`: null stays null, otherwise `Mood.valueOf(m.name())`. */
  function MapToMood(m: Option<MoodJpaEnum>): Option<Moods.Mood> {
    if m.None? then None else Moods.ValueOf(MoodJpaName(m.value))
  }

  /** `mapToMoodJpaEnum`: null stays null, otherwise `MoodJpaEnum.valueOf(m.name())`. */
  function MapToMoodJpaEnum(m: Option<Moods.Mood>): Option<MoodJpaEnum> {
    if m.None? then None else MoodJpaValueOf(Moods.Name(m.value))
  }

  /**
   * The two gender enums have the same constant names, so mapping by name never fails,
   * keeps the name, and the two directions are inverse bijections.
   */
  lemma GenderMappingsAgree(g: Option<Genders.Gender>, j: Option<GenderJpaEnum>)
    ensures MapToGenderJpaEnum(g).Some? <==> g.Some?
    ensures g.Some? ==> GenderJpaName(MapToGenderJpaEnum(g).value) == Genders.Name(g.value)
    ensures MapToGender(j).Some? <==> j.Some?
    ensures MapToGender(MapToGenderJpaEnum(g)) == g
    ensures MapToGenderJpaEnum(MapToGender(j)) == j
  {
    if g.Some? {
      match g.value
      case MALE =>
      case FEMALE =>
      case NON_BINARY =>
      case ALL =>
    }
    if j.Some? {
      match j.value
      case JpaMale =>
      case JpaFemale =>
      case JpaNonBinary =>
      case JpaAll =>
    }
  }

  /**
   * The two mood enums have the same constant names, so mapping by name never fails,
   * keeps the name, and the two directions are inverse bijections.
   */
  lemma MoodMappingsAgree(m: Option<Moods.Mood>, j: Option<MoodJpaEnum>)
    ensures MapToMoodJpaEnum(m).Some? <==> m.Some?
    ensures m.Some? ==> MoodJpaName(MapToMoodJpaEnum(m).value) == Moods.Name(m.value)
    ensures MapToMood(j).Some? <==> j.Some?
    ensures MapToMood(MapToMoodJpaEnum(m)) == m
    ensures MapToMoodJpaEnum(MapToMood(j)) == j
  {
    if m.Some? {
      match m.value
      case HAPPY =>
      case SAD =>
      case EXCITED =>
      case RELAXED =>
      case ANGRY =>
      case NEUTRAL =>
    }
    if j.Some? {
      match j.value
      case JpaHappy =>
      case JpaSad =>
      case JpaExcited =>
      case JpaRelaxed =>
      case JpaAngry =>
      case JpaNeutral =>
    }
  }

  // ----- JPA entities -----

  datatype GeoTargetJpaEntity = GeoTargetJpaEntity(
    countryCode: Option<string>,
    region: Option<string>,
    city: Option<string>,
    latitude: Option<real>,
    longitude: Option<real>,
    radiusKm: Option<int>,
    isInclude: bool)

  datatype BioTargetJpaEntity = BioTargetJpaEntity(
    minAge: Option<int>,
    maxAge: Option<int>,
    gender: Option<GenderJpaEnum>,
    occupation: Option<string>,
    educationLevel: Option<string>,
    language: Option<string>,
    interestCategory: Option<string>,
    isInclude: bool)

  datatype MoodTargetJpaEntity = MoodTargetJpaEntity(
    mood: Option<MoodJpaEnum>,
    intensityMin: Option<int>,
    intensityMax: Option<int>,
    timeOfDay: Option<string>,
    dayOfWeek: Option<string>,
    season: Option<string>,
    isInclude: bool)

  datatype YouTubeDetailsEmbeddable = YouTubeDetailsEmbeddable(
    videoId: Option<string>,
    videoTitle: Option<string>,
    channelId: Option<string>,
    channelTitle: Option<string>,
    durationSeconds: Option<int>,
    thumbnailUrl: Option<string>,
    publishedAt: Option<Timestamp>)

  /**
   * `AdvertisementJpaEntity`, with the viewing-policy and click columns the adapter
   * reads and writes besides the ones declared in the entity class.
   */
  datatype AdvertisementJpaEntity = AdvertisementJpaEntity(
    id: Option<int>,
    title: Option<string>,
    description: Option<string>,
    content: Option<string>,
    source: Option<A.AdvertisementSource>,
    sourceIdentifier: Option<string>,
    createdAt: Option<Timestamp>,
    updatedAt: Option<Timestamp>,
    active: bool,
    targetUrl: Option<string>,
    clickable: bool,
    weight: JavaInts.Int32,
    overrideStart: Option<Timestamp>,
    overrideEnd: Option<Timestamp>,
    youtubeDetails: Option<YouTubeDetailsEmbeddable>,
    geoTargets: Option<set<GeoTargetJpaEntity>>,
    bioTargets: Option<set<BioTargetJpaEntity>>,
    moodTargets: Option<set<MoodTargetJpaEntity>>)

  // ----- converters -----

  /** `mapToGeoTarget`. */
  function MapToGeoTarget(e: GeoTargetJpaEntity): GT.GeoTarget {
    GT.GeoTarget(e.countryCode, e.region, e.city, e.latitude, e.longitude, e.radiusKm, e.isInclude)
  }

  /** `mapToGeoTargetJpaEntity`. */
  function MapToGeoTargetJpaEntity(t: GT.GeoTarget): GeoTargetJpaEntity {
    GeoTargetJpaEntity(t.countryCode, t.region, t.city, t.latitude, t.longitude, t.radiusKm, t.isInclude)
  }

  /** `mapToBioTarget`. */
  function MapToBioTarget(e: BioTargetJpaEntity): BT.BioTarget {
    BT.BioTarget(e.minAge, e.maxAge, MapToGender(e.gender), e.occupation, e.educationLevel, e.language,
                 e.interestCategory, e.isInclude)
  }

  /** `mapToBioTargetJpaEntity`. */
  function MapToBioTargetJpaEntity(t: BT.BioTarget): BioTargetJpaEntity {
    BioTargetJpaEntity(t.minAge, t.maxAge, MapToGenderJpaEnum(t.gender), t.occupation, t.educationLevel, t.language,
                       t.interestCategory, t.isInclude)
  }

  /** `mapToMoodTarget`. */
  function MapToMoodTarget(e: MoodTargetJpaEntity): MT.MoodTarget {
    MT.MoodTarget(MapToMood(e.mood), e.intensityMin, e.intensityMax, e.timeOfDay, e.dayOfWeek, e.season, e.isInclude)
  }

  /** `mapToMoodTargetJpaEntity`. */
  function MapToMoodTargetJpaEntity(t: MT.MoodTarget): MoodTargetJpaEntity {
    MoodTargetJpaEntity(MapToMoodJpaEnum(t.mood), t.intensityMin, t.intensityMax, t.timeOfDay, t.dayOfWeek, t.season, t.isInclude)
  }

  /** `mapToYouTubeDetails`: null stays null. */
  function MapToYouTubeDetails(e: Option<YouTubeDetailsEmbeddable>): Option<A.YouTubeDetails> {
    match e
    case None => None
    case Some(d) => Some(A.YouTubeDetails(d.videoId, d.videoTitle, d.channelId, d.channelTitle, d.durationSeconds,
                                          d.thumbnailUrl, d.publishedAt))
  }

  /** `mapToYouTubeDetailsEmbeddable`: null stays null. */
  function MapToYouTubeDetailsEmbeddable(d: Option<A.YouTubeDetails>): Option<YouTubeDetailsEmbeddable> {
    match d
    case None => None
    case Some(y) => Some(YouTubeDetailsEmbeddable(y.videoId, y.videoTitle, y.channelId, y.channelTitle, y.durationSeconds,
                                                  y.thumbnailUrl, y.publishedAt))
  }

  /** A target set on its way to the database: null when null or empty, otherwise its image. */
  function ToColumn<X, Y(==)>(s: Option<set<X>>, f: X -> Y): (r: Option<set<Y>>)
    ensures r.None? <==> s.None? || s.value == {}
  {
    if s.None? || s.value == {} then None
    else
      var x :| x in s.value;
      assert f(x) in Image(s.value, f);
      Some(Image(s.value, f))
  }

  /** A target set on its way from the database: null stays null, otherwise its image. */
  function FromColumn<X, Y(==)>(s: Option<set<X>>, f: X -> Y): (r: Option<set<Y>>)
    ensures r.None? <==> s.None?
  {
    if s.None? then None else Some(Image(s.value, f))
  }

  /** `mapToAdvertisement`. */
  function MapToAdvertisement(e: AdvertisementJpaEntity): A.Advertisement {
    A.Advertisement(e.id, e.title, e.description, e.content, e.source, e.sourceIdentifier, e.createdAt, e.updatedAt,
                    e.active, e.targetUrl, e.clickable, e.weight, e.overrideStart, e.overrideEnd,
                    MapToYouTubeDetails(e.youtubeDetails),
                    FromColumn(e.geoTargets, MapToGeoTarget),
                    FromColumn(e.bioTargets, MapToBioTarget),
                    FromColumn(e.moodTargets, MapToMoodTarget))
  }

  /** `mapToJpaEntity`. */
  function MapToJpaEntity(ad: A.Advertisement): AdvertisementJpaEntity {
    AdvertisementJpaEntity(ad.id, ad.title, ad.description, ad.content, ad.source, ad.sourceIdentifier, ad.createdAt,
                           ad.updatedAt, ad.active, ad.targetUrl, ad.clickable, ad.weight, ad.overrideStart, ad.overrideEnd,
                           MapToYouTubeDetailsEmbeddable(ad.youtubeDetails),
                           ToColumn(ad.geoTargets, MapToGeoTargetJpaEntity),
                           ToColumn(ad.bioTargets, MapToBioTargetJpaEntity),
                           ToColumn(ad.moodTargets, MapToMoodTargetJpaEntity))
  }

  // ----- properties of the converters -----

  /** Each target record and the YouTube details survive a trip to the entity and back, and back again. */
  lemma RecordsRoundTrip(g: GT.GeoTarget, b: BT.BioTarget, m: MT.MoodTarget, d: Option<A.YouTubeDetails>,
                         ge: GeoTargetJpaEntity, be: BioTargetJpaEntity, me: MoodTargetJpaEntity,
                         de: Option<YouTubeDetailsEmbeddable>)
    ensures MapToGeoTarget(MapToGeoTargetJpaEntity(g)) == g && MapToGeoTargetJpaEntity(MapToGeoTarget(ge)) == ge
    ensures MapToBioTarget(MapToBioTargetJpaEntity(b)) == b && MapToBioTargetJpaEntity(MapToBioTarget(be)) == be
    ensures MapToMoodTarget(MapToMoodTargetJpaEntity(m)) == m && MapToMoodTargetJpaEntity(MapToMoodTarget(me)) == me
    ensures MapToYouTubeDetails(MapToYouTubeDetailsEmbeddable(d)) == d
    ensures MapToYouTubeDetailsEmbeddable(MapToYouTubeDetails(de)) == de
  {
    GenderMappingsAgree(b.gender, be.gender);
    MoodMappingsAgree(m.mood, me.mood);
  }

  /** A null or empty target set is written as a null column, and only those are. */
  lemma EmptyTargetSetsStoredAsNull(ad: A.Advertisement)
    ensures MapToJpaEntity(ad).geoTargets.None? <==> ad.geoTargets.None? || ad.geoTargets.value == {}
    ensures MapToJpaEntity(ad).bioTargets.None? <==> ad.bioTargets.None? || ad.bioTargets.value == {}
    ensures MapToJpaEntity(ad).moodTargets.None? <==> ad.moodTargets.None? || ad.moodTargets.value == {}
  {
  }

  /** A null column reads back as a null target set. */
  lemma NullColumnsReadAsNull(e: AdvertisementJpaEntity)
    ensures MapToAdvertisement(e).geoTargets.None? <==> e.geoTargets.None?
    ensures MapToAdvertisement(e).bioTargets.None? <==> e.bioTargets.None?
    ensures MapToAdvertisement(e).moodTargets.None? <==> e.moodTargets.None?
  {
  }

  /** An empty target set becomes null; anything else is kept. */
  function EmptyAsNull<X>(s: Option<set<X>>): (r: Option<set<X>>)
    ensures r.None? <==> s.None? || s.value == {}
    ensures r.Some? ==> r == s
  {
    if s.Some? && s.value == {} then None else s
  }

  /**
   * Writing an ad to the entity and reading it back changes nothing but its empty target
   * sets, which come back null.
   */
  lemma DomainRoundTrip(ad: A.Advertisement)
    ensures MapToAdvertisement(MapToJpaEntity(ad)) ==
      ad.(geoTargets := EmptyAsNull(ad.geoTargets), bioTargets := EmptyAsNull(ad.bioTargets),
          moodTargets := EmptyAsNull(ad.moodTargets))
  {
    var e := MapToJpaEntity(ad);
    var r := MapToAdvertisement(e);
    if ad.geoTargets.Some? && ad.geoTargets.value != {} {
      forall t | t in ad.geoTargets.value ensures MapToGeoTarget(MapToGeoTargetJpaEntity(t)) == t { }
      ImageRoundTrip(ad.geoTargets.value, MapToGeoTargetJpaEntity, MapToGeoTarget);
    }
    if ad.bioTargets.Some? && ad.bioTargets.value != {} {
      forall t | t in ad.bioTargets.value ensures MapToBioTarget(MapToBioTargetJpaEntity(t)) == t {
        GenderMappingsAgree(t.gender, None);
      }
      ImageRoundTrip(ad.bioTargets.value, MapToBioTargetJpaEntity, MapToBioTarget);
    }
    if ad.moodTargets.Some? && ad.moodTargets.value != {} {
      forall t | t in ad.moodTargets.value ensures MapToMoodTarget(MapToMoodTargetJpaEntity(t)) == t {
        MoodMappingsAgree(t.mood, None);
      }
      ImageRoundTrip(ad.moodTargets.value, MapToMoodTargetJpaEntity, MapToMoodTarget);
    }
  }

  /** An ad without empty target sets survives the trip to the entity and back unchanged. */
  lemma DomainRoundTripExact(ad: A.Advertisement)
    requires ad.geoTargets.None? || ad.geoTargets.value != {}
    requires ad.bioTargets.None? || ad.bioTargets.value != {}
    requires ad.moodTargets.None? || ad.moodTargets.value != {}
    ensures MapToAdvertisement(MapToJpaEntity(ad)) == ad
  {
    DomainRoundTrip(ad);
  }

  // ----- the JPA store -----

  /** Why the store refused a `save`. */
  datatype PersistenceError =
    | ConstraintViolation   // a bean-validation constraint, a `nullable = false` column or a column length fails
    | StaleEntity           // a merge of an entity whose id has no row

  /** Longest `description` the column holds (`@Column(length = 1000)`). */
  const DESCRIPTION_LENGTH := 1000

  /** Hibernate Validator's `@NotBlank`: not null, and not emptied by `String.trim`. */
  predicate NotBlank(s: Option<string>) {
    s.Some? && Trim(s.value) != []
  }

  /**
   * What a row must satisfy to be written: the `@NotBlank`/`@NotNull` constraints checked
   * before the statement, the `nullable = false` columns of the ad and of its geo and mood
   * rule rows, and the length of the description column.
   */
  predicate SatisfiesConstraints(e: AdvertisementJpaEntity) {
    NotBlank(e.title) && NotBlank(e.content) && e.source.Some? && e.sourceIdentifier.Some?
    && e.createdAt.Some? && e.updatedAt.Some?
    && (e.description.None? || |e.description.value| <= DESCRIPTION_LENGTH)
    && (e.geoTargets.Some? ==> forall g :: g in e.geoTargets.value ==> g.countryCode.Some?)
    && (e.moodTargets.Some? ==> forall m :: m in e.moodTargets.value ==> m.mood.Some?)
  }

  /**
   * The constraints a domain ad must meet besides the ones its validation checks: a
   * description within the column length, and a country on every geo rule and a mood on
   * every mood rule.
   */
  predicate FitsColumns(ad: A.Advertisement) {
    (ad.description.None? || |ad.description.value| <= DESCRIPTION_LENGTH)
    && (ad.geoTargets.Some? ==> forall g :: g in ad.geoTargets.value ==> g.countryCode.Some?)
    && (ad.moodTargets.Some? ==> forall m :: m in ad.moodTargets.value ==> m.mood.Some?)
  }

  /**
   * The row `save` writes: a new entity (null id) gets the generated id and both timestamps
   * (`@PrePersist`); an existing one gets a new `updatedAt` (`@PreUpdate`).
   */
  function Persisted(e: AdvertisementJpaEntity, newId: int, now: Timestamp): (row: AdvertisementJpaEntity)
    ensures row.id.Some? && row.updatedAt == Some(now)
    ensures e.id.None? ==> row == e.(id := Some(newId), createdAt := Some(now), updatedAt := Some(now))
    ensures e.id.Some? ==> row == e.(updatedAt := Some(now))
  {
    if e.id.None? then e.(id := Some(newId), createdAt := Some(now), updatedAt := Some(now))
    else e.(updatedAt := Some(now))
  }

  /** What `save` returns for `e` against a store holding `rows`, whose next generated id is `nextId`. */
  function SaveResult(rows: map<int, AdvertisementJpaEntity>, nextId: int, e: AdvertisementJpaEntity, now: Timestamp)
    : Result<AdvertisementJpaEntity, PersistenceError>
  {
    if e.id.Some? && e.id.value !in rows then Err(StaleEntity)
    else
      var row := Persisted(e, nextId, now);
      if !SatisfiesConstraints(row) then Err(ConstraintViolation) else Ok(row)
  }

  /**
   * A new entity is inserted exactly when its row satisfies every constraint apart from the
   * timestamps `@PrePersist` fills in, and then under the next id with the current time.
   */
  lemma NewEntitySavesIff(rows: map<int, AdvertisementJpaEntity>, nextId: int, e: AdvertisementJpaEntity, now: Timestamp)
    requires e.id.None?
    ensures SaveResult(rows, nextId, e, now).Ok? <==> SatisfiesConstraints(e.(createdAt := Some(now), updatedAt := Some(now)))
    ensures SaveResult(rows, nextId, e, now).Err? ==> SaveResult(rows, nextId, e, now).error == ConstraintViolation
    ensures SaveResult(rows, nextId, e, now).Ok? ==>
      SaveResult(rows, nextId, e, now).value == e.(id := Some(nextId), createdAt := Some(now), updatedAt := Some(now))
  {
  }

  /**
   * An update of a stored row fails exactly when the row, with its new `updatedAt`, breaks a
   * constraint; it never fails for `updatedAt` itself.
   */
  lemma UpdateFailsIffConstraintBroken(rows: map<int, AdvertisementJpaEntity>, nextId: int, e: AdvertisementJpaEntity, now: Timestamp)
    requires e.id.Some? && e.id.value in rows
    ensures SaveResult(rows, nextId, e, now).Err? <==> !SatisfiesConstraints(e.(updatedAt := Some(now)))
    ensures SaveResult(rows, nextId, e, now).Err? ==> SaveResult(rows, nextId, e, now).error == ConstraintViolation
    ensures SaveResult(rows, nextId, e, now).Ok? ==> SaveResult(rows, nextId, e, now).value == e.(updatedAt := Some(now))
  {
  }

  /**
   * Through `mapToJpaEntity`, the entity's constraints are the domain ad's: its title and
   * content not blank, a source and an identifier present, and `FitsColumns`; the creation
   * time is the one the row is written with.
   */
  lemma MappedConstraintsIff(ad: A.Advertisement, created: Option<Timestamp>, now: Timestamp)
    ensures SatisfiesConstraints(MapToJpaEntity(ad).(createdAt := created, updatedAt := Some(now))) <==>
      NotBlank(ad.title) && NotBlank(ad.content) && ad.source.Some? && ad.sourceIdentifier.Some?
      && created.Some? && FitsColumns(ad)
  {
    var e := MapToJpaEntity(ad);
    if ad.geoTargets.Some? && ad.geoTargets.value != {} {
      forall g | g in ad.geoTargets.value ensures MapToGeoTargetJpaEntity(g) in e.geoTargets.value {
      }
    }
    if ad.moodTargets.Some? && ad.moodTargets.value != {} {
      forall m | m in ad.moodTargets.value
        ensures MapToMoodTargetJpaEntity(m) in e.moodTargets.value
        ensures MapToMoodTargetJpaEntity(m).mood.Some? <==> m.mood.Some?
      {
        MoodMappingsAgree(m.mood, None);
      }
    }
  }

  /**
   * What a load hands back: an element collection is materialised as a set, empty when the
   * column was written as null.
   */
  function Loaded(e: AdvertisementJpaEntity): (r: AdvertisementJpaEntity)
    ensures r.geoTargets.Some? && r.bioTargets.Some? && r.moodTargets.Some?
    ensures r.(geoTargets := e.geoTargets, bioTargets := e.bioTargets, moodTargets := e.moodTargets) == e
  {
    e.(geoTargets := Some(e.geoTargets.GetOr({})), bioTargets := Some(e.bioTargets.GetOr({})),
       moodTargets := Some(e.moodTargets.GetOr({})))
  }

  /** A non-empty set has an element. */
  lemma HasElement(s: set<int>)
    requires s != {}
    ensures exists k :: k in s
  {
    if forall k :: k !in s {
      assert false;
    }
  }

  /** The table behind `AdvertisementJpaRepository`: rows by id and the identity generator. */
  class JpaStore {
    var rows: map<int, AdvertisementJpaEntity>
    var nextId: int

    /** Every row is stored under its own id, and the generator is past every id in use. */
    predicate Valid()
      reads this
    {
      forall id :: id in rows ==> rows[id].id == Some(id) && id < nextId
    }

    /** An empty table whose identity column starts at 1. */
    constructor ()
      ensures rows == map[] && nextId == 1
      ensures Valid()
    {
      rows := map[];
      nextId := 1;
    }

    /** `findById`: the loaded row, or empty. */
    function FindById(id: int): (r: Option<AdvertisementJpaEntity>)
      reads this
      ensures r.Some? <==> id in rows
      ensures r.Some? ==> r.value == Loaded(rows[id])
    {
      if id in rows then Some(Loaded(rows[id])) else None
    }

    /** `findAll` (`activeOnly` false) and `findByActiveTrue` (`activeOnly` true), in no particular order. */
    method Scan(activeOnly: bool) returns (r: seq<AdvertisementJpaEntity>)
      ensures forall e :: e in r <==> exists id :: id in rows && (!activeOnly || rows[id].active) && e == Loaded(rows[id])
    {
      r := [];
      var pending := rows.Keys;
      while pending != {}
        invariant pending <= rows.Keys
        invariant forall e :: e in r ==> exists id :: id in rows && (!activeOnly || rows[id].active) && e == Loaded(rows[id])
        invariant forall id :: id in rows.Keys - pending && (!activeOnly || rows[id].active) ==> Loaded(rows[id]) in r
        decreases pending
      {
        HasElement(pending);
        var id :| id in pending;
        if !activeOnly || rows[id].active {
          r := r + [Loaded(rows[id])];
        }
        pending := pending - {id};
      }
    }

    /**
     * `save`: inserts a new entity under the next generated id, or merges an entity into the
     * row with its id; the store is unchanged when `SaveResult` is a failure.
     */
    method Save(e: AdvertisementJpaEntity, now: Timestamp) returns (r: Result<AdvertisementJpaEntity, PersistenceError>)
      requires Valid()
      modifies this
      ensures Valid()
      ensures r == SaveResult(old(rows), old(nextId), e, now)
      ensures r.Err? ==> rows == old(rows) && nextId == old(nextId)
      ensures r.Ok? ==> rows == old(rows)[r.value.id.value := r.value]
      ensures r.Ok? ==> nextId == if e.id.None? then old(nextId) + 1 else old(nextId)
    {
      r := SaveResult(rows, nextId, e, now);
      if r.Ok? {
        rows := rows[r.value.id.value := r.value];
        if e.id.None? {
          nextId := nextId + 1;
        }
      }
    }

    /** `deleteById`: removes the row, and does nothing for an id with no row. */
    method DeleteById(id: int)
      requires Valid()
      modifies this
      ensures Valid()
      ensures rows == old(rows) - {id} && nextId == old(nextId)
    {
      rows := rows - {id};
    }
  }

  /** The domain ad stored under `id`, as `findById` would return it. */
  function StoredAd(rows: map<int, AdvertisementJpaEntity>, id: int): Option<A.Advertisement> {
    if id in rows then Some(MapToAdvertisement(Loaded(rows[id]))) else None
  }

  /** `a` is what loading some row gives, restricted to active rows when `activeOnly`. */
  predicate IsStored(rows: map<int, AdvertisementJpaEntity>, a: A.Advertisement, activeOnly: bool) {
    exists id :: id in rows && (!activeOnly || rows[id].active) && a == MapToAdvertisement(Loaded(rows[id]))
  }

  /** Every stored ad has an id, and loading gives it a (possibly empty) set in every targeting dimension. */
  lemma StoredAdsAreComplete(rows: map<int, AdvertisementJpaEntity>, nextId: int, a: A.Advertisement, activeOnly: bool)
    requires forall id :: id in rows ==> rows[id].id == Some(id) && id < nextId
    requires IsStored(rows, a, activeOnly)
    ensures a.id.Some? && a.id.value in rows
    ensures a.geoTargets.Some? && a.bioTargets.Some? && a.moodTargets.Some?
    ensures activeOnly ==> a.active
  {
  }

  /** The adapter: domain-level repository calls translated to the JPA store. */
  class AdvertisementRepositoryAdapter {
    const jpaRepository: JpaStore

    constructor (jpaRepository: JpaStore)
      ensures this.jpaRepository == jpaRepository
    {
      this.jpaRepository := jpaRepository;
    }

    /** `findById`: the stored ad, or empty. */
    function FindById(id: int): (r: Option<A.Advertisement>)
      reads jpaRepository
      ensures r == StoredAd(jpaRepository.rows, id)
    {
      match jpaRepository.FindById(id)
      case None => None
      case Some(e) => Some(MapToAdvertisement(e))
    }

    /** `findAll`: every stored ad, in the store's order. */
    method FindAll() returns (r: seq<A.Advertisement>)
      ensures forall a :: a in r <==> IsStored(jpaRepository.rows, a, false)
    {
      var entities := jpaRepository.Scan(false);
      r := seq(|entities|, i requires 0 <= i < |entities| => MapToAdvertisement(entities[i]));
      ConvertedMembers(entities, r, false);
    }

    /** `findByActiveTrue`: every stored active ad, in the store's order. */
    method FindByActiveTrue() returns (r: seq<A.Advertisement>)
      ensures forall a :: a in r <==> IsStored(jpaRepository.rows, a, true)
    {
      var entities := jpaRepository.Scan(true);
      r := seq(|entities|, i requires 0 <= i < |entities| => MapToAdvertisement(entities[i]));
      ConvertedMembers(entities, r, true);
    }

    /** Converting the scanned rows one by one gives exactly the stored ads. */
    lemma ConvertedMembers(entities: seq<AdvertisementJpaEntity>, r: seq<A.Advertisement>, activeOnly: bool)
      requires |r| == |entities| && forall i :: 0 <= i < |r| ==> r[i] == MapToAdvertisement(entities[i])
      requires forall e :: e in entities <==>
        exists id :: id in jpaRepository.rows && (!activeOnly || jpaRepository.rows[id].active) && e == Loaded(jpaRepository.rows[id])
      ensures forall a :: a in r <==> IsStored(jpaRepository.rows, a, activeOnly)
    {
      forall a ensures a in r <==> IsStored(jpaRepository.rows, a, activeOnly) {
        if a in r {
          var i :| 0 <= i < |r| && r[i] == a;
          assert entities[i] in entities;
        }
        if IsStored(jpaRepository.rows, a, activeOnly) {
          var id :| id in jpaRepository.rows && (!activeOnly || jpaRepository.rows[id].active)
            && a == MapToAdvertisement(Loaded(jpaRepository.rows[id]));
          assert Loaded(jpaRepository.rows[id]) in entities;
          var i :| 0 <= i < |entities| && entities[i] == Loaded(jpaRepository.rows[id]);
          assert r[i] == a;
        }
      }
    }

    /**
     * `save`: the ad is converted to an entity and saved; the saved entity (as written, not
     * reloaded) is converted back.
     */
    method Save(ad: A.Advertisement, now: Timestamp) returns (r: Result<A.Advertisement, PersistenceError>)
      requires jpaRepository.Valid()
      modifies jpaRepository
      ensures jpaRepository.Valid()
      ensures var saved := SaveResult(old(jpaRepository.rows), old(jpaRepository.nextId), MapToJpaEntity(ad), now);
        (saved.Err? ==> (r == Err(saved.error) && jpaRepository.rows == old(jpaRepository.rows) &&
                         jpaRepository.nextId == old(jpaRepository.nextId))) &&
        (saved.Ok? ==> (r == Ok(MapToAdvertisement(saved.value)) &&
                        jpaRepository.rows == old(jpaRepository.rows)[saved.value.id.value := saved.value] &&
                        jpaRepository.nextId == if ad.id.None? then old(jpaRepository.nextId) + 1 else old(jpaRepository.nextId)))
    {
      var saved := jpaRepository.Save(MapToJpaEntity(ad), now);
      match saved
      case Err(e) => r := Err(e);
      case Ok(e) => r := Ok(MapToAdvertisement(e));
    }

    /** `deleteById`. */
    method DeleteById(id: int)
      requires jpaRepository.Valid()
      modifies jpaRepository
      ensures jpaRepository.Valid()
      ensures jpaRepository.rows == old(jpaRepository.rows) - {id}
      ensures jpaRepository.nextId == old(jpaRepository.nextId)
    {
      jpaRepository.DeleteById(id);
    }
  }
}
