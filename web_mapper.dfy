/**
 * The web DTOs and the mapper between them and the domain model
 * (infrastructure/web/mapper/AdvertisementMapper.java, infrastructure/web/dto/).
 * Gender and mood travel as their names; the target sets are mapped with
 * `stream()`, so a null set makes the mapping throw.
 */
module WebMapper {
  import opened Wrappers
  import opened Sequences
  import opened JavaValues
  import JavaStrings
  import JavaInts
  import Genders
  import Moods
  import GT = GeoTargets
  import BT = BioTargets
  import MT = MoodTargets
  import A = Advertisements

  type Timestamp = A.Timestamp

  // ----- DTOs -----

  datatype YouTubeDetailsDto = YouTubeDetailsDto(
    videoId: Option<string>,
    videoTitle: Option<string>,
    channelId: Option<string>,
    channelTitle: Option<string>,
    durationSeconds: Option<int>,
    thumbnailUrl: Option<string>,
    publishedAt: Option<Timestamp>)

  datatype GeoTargetDto = GeoTargetDto(
    countryCode: Option<string>,
    region: Option<string>,
    city: Option<string>,
    latitude: Option<real>,
    longitude: Option<real>,
    radiusKm: Option<int>,
    isInclude: bool)

  /** The gender travels as free text. */
  datatype BioTargetDto = BioTargetDto(
    minAge: Option<int>,
    maxAge: Option<int>,
    gender: Option<string>,
    occupation: Option<string>,
    educationLevel: Option<string>,
    language: Option<string>,
    interestCategory: Option<string>,
    isInclude: bool)

  /** The mood travels as free text. */
  datatype MoodTargetDto = MoodTargetDto(
    mood: Option<string>,
    intensityMin: Option<int>,
    intensityMax: Option<int>,
    timeOfDay: Option<string>,
    dayOfWeek: Option<string>,
    season: Option<string>,
    isInclude: bool)

  datatype AdvertisementDto = AdvertisementDto(
    id: Option<int>,
    title: Option<string>,
    description: Option<string>,
    content: Option<string>,
    source: Option<A.AdvertisementSource>,
    sourceIdentifier: Option<string>,
    createdAt: Option<Timestamp>,
    updatedAt: Option<Timestamp>,
    active: bool,
    targetUrl: Option<string>,
    clickable: bool,
    weight: JavaInts.Int32,
    overrideStart: Option<Timestamp>,
    overrideEnd: Option<Timestamp>,
    youtubeDetails: Option<YouTubeDetailsDto>,
    geoTargets: Option<set<GeoTargetDto>>,
    bioTargets: Option<set<BioTargetDto>>,
    moodTargets: Option<set<MoodTargetDto>>)

  // ----- the per-record overloads -----

  /** `toDto(YouTubeDetails)`: null stays null. */
  function YouTubeToDto(d: Option<A.YouTubeDetails>): (r: Option<YouTubeDetailsDto>)
    ensures r.None? <==> d.None?
  {
    match d
    case None => None
    case Some(x) => Some(YouTubeDetailsDto(x.videoId, x.videoTitle, x.channelId, x.channelTitle,
                                           x.durationSeconds, x.thumbnailUrl, x.publishedAt))
  }

  /** `toDomain(YouTubeDetailsDTO)`: null stays null. */
  function YouTubeToDomain(d: Option<YouTubeDetailsDto>): (r: Option<A.YouTubeDetails>)
    ensures r.None? <==> d.None?
  {
    match d
    case None => None
    case Some(x) => Some(A.YouTubeDetails(x.videoId, x.videoTitle, x.channelId, x.channelTitle,
                                          x.durationSeconds, x.thumbnailUrl, x.publishedAt))
  }

  function GeoToDto(t: GT.GeoTarget): GeoTargetDto {
    GeoTargetDto(t.countryCode, t.region, t.city, t.latitude, t.longitude, t.radiusKm, t.isInclude)
  }

  function GeoToDomain(d: GeoTargetDto): GT.GeoTarget {
    GT.GeoTarget(d.countryCode, d.region, d.city, d.latitude, d.longitude, d.radiusKm, d.isInclude)
  }

  /** A gender goes out as its name. */
  function GenderToText(g: Option<Genders.Gender>): Option<string> {
    if g.None? then None else Some(Genders.Name(g.value))
  }

  /** A mood goes out as its name. */
  function MoodToText(m: Option<Moods.Mood>): Option<string> {
    if m.None? then None else Some(Moods.Name(m.value))
  }

  function BioToDto(t: BT.BioTarget): BioTargetDto {
    BioTargetDto(t.minAge, t.maxAge, GenderToText(t.gender), t.occupation, t.educationLevel, t.language,
                 t.interestCategory, t.isInclude)
  }

  /** The gender text is read back with the lenient parser. */
  function BioToDomain(d: BioTargetDto): BT.BioTarget {
    BT.BioTarget(d.minAge, d.maxAge, Genders.FromString(d.gender), d.occupation, d.educationLevel, d.language,
                 d.interestCategory, d.isInclude)
  }

  function MoodToDto(t: MT.MoodTarget): MoodTargetDto {
    MoodTargetDto(MoodToText(t.mood), t.intensityMin, t.intensityMax, t.timeOfDay, t.dayOfWeek, t.season, t.isInclude)
  }

  /** The mood text is read back with the lenient parser. */
  function MoodToDomain(d: MoodTargetDto): MT.MoodTarget {
    MT.MoodTarget(Moods.FromString(d.mood), d.intensityMin, d.intensityMax, d.timeOfDay, d.dayOfWeek, d.season, d.isInclude)
  }

  /** `s.stream().map(f).collect(toSet())`: throws on a null set. */
  function StreamMap<X(!new), Y(==,!new)>(s: Option<set<X>>, f: X -> Y): (r: Result<set<Y>, JavaException>)
    ensures r.Err? <==> s.None?
    ensures r.Err? ==> r.error == NullPointerException
    ensures r.Ok? ==> forall y :: y in r.value <==> exists x :: x in s.value && f(x) == y
  {
    if s.None? then Err(NullPointerException) else Ok(Image(s.value, f))
  }

  // ----- the advertisement overloads -----

  /** `toDto(Advertisement)`. */
  function ToDto(ad: A.Advertisement): (r: Result<AdvertisementDto, JavaException>)
    ensures r.Err? <==> ad.geoTargets.None? || ad.bioTargets.None? || ad.moodTargets.None?
    ensures r.Err? ==> r.error == NullPointerException
  {
    var geo :- StreamMap(ad.geoTargets, GeoToDto);
    var bio :- StreamMap(ad.bioTargets, BioToDto);
    var mood :- StreamMap(ad.moodTargets, MoodToDto);
    Ok(AdvertisementDto(ad.id, ad.title, ad.description, ad.content, ad.source, ad.sourceIdentifier,
                        ad.createdAt, ad.updatedAt, ad.active, ad.targetUrl, ad.clickable, ad.weight,
                        ad.overrideStart, ad.overrideEnd, YouTubeToDto(ad.youtubeDetails),
                        Some(geo), Some(bio), Some(mood)))
  }

  /** `toDomain(AdvertisementDTO)`. */
  function ToDomain(dto: AdvertisementDto): (r: Result<A.Advertisement, JavaException>)
    ensures r.Err? <==> dto.geoTargets.None? || dto.bioTargets.None? || dto.moodTargets.None?
    ensures r.Err? ==> r.error == NullPointerException
  {
    var geo :- StreamMap(dto.geoTargets, GeoToDomain);
    var bio :- StreamMap(dto.bioTargets, BioToDomain);
    var mood :- StreamMap(dto.moodTargets, MoodToDomain);
    Ok(A.Advertisement(dto.id, dto.title, dto.description, dto.content, dto.source, dto.sourceIdentifier,
                       dto.createdAt, dto.updatedAt, dto.active, dto.targetUrl, dto.clickable, dto.weight,
                       dto.overrideStart, dto.overrideEnd, YouTubeToDomain(dto.youtubeDetails),
                       Some(geo), Some(bio), Some(mood)))
  }

  // ----- properties -----

  /** Every domain target record survives the trip to its DTO and back, genders and moods included. */
  lemma RecordsRoundTrip(g: GT.GeoTarget, b: BT.BioTarget, m: MT.MoodTarget, y: Option<A.YouTubeDetails>)
    ensures GeoToDomain(GeoToDto(g)) == g
    ensures BioToDomain(BioToDto(b)) == b
    ensures MoodToDomain(MoodToDto(m)) == m
    ensures YouTubeToDomain(YouTubeToDto(y)) == y
  {
    if b.gender.Some? {
      Genders.FromStringName(b.gender.value);
    }
    if m.mood.Some? {
      Moods.FromStringName(m.mood.value);
    }
  }

  /** A text is a gender's exact name. */
  predicate IsGenderName(s: string) {
    exists g :: Genders.Name(g) == s
  }

  /** A text is a mood's exact name. */
  predicate IsMoodName(s: string) {
    exists m :: Moods.Name(m) == s
  }

  /**
   * A bio DTO survives the trip to the domain and back exactly when its gender is null or
   * already a gender's exact name: any other spelling is normalised or lost.
   */
  lemma BioDtoRoundTripIff(d: BioTargetDto)
    ensures BioToDto(BioToDomain(d)) == d <==> d.gender.None? || IsGenderName(d.gender.value)
  {
    if d.gender.Some? && IsGenderName(d.gender.value) {
      var g :| Genders.Name(g) == d.gender.value;
      Genders.FromStringName(g);
    }
  }

  /**
   * A mood DTO survives the trip to the domain and back exactly when its mood is null or
   * already a mood's exact name.
   */
  lemma MoodDtoRoundTripIff(d: MoodTargetDto)
    ensures MoodToDto(MoodToDomain(d)) == d <==> d.mood.None? || IsMoodName(d.mood.value)
  {
    if d.mood.Some? && IsMoodName(d.mood.value) {
      var m :| Moods.Name(m) == d.mood.value;
      Moods.FromStringName(m);
    }
  }

  /** A gender text that names no gender, whatever its case, arrives in the domain as null. */
  lemma UnknownGenderBecomesNull(d: BioTargetDto)
    requires d.gender.Some? && forall g :: JavaStrings.ToUpper(d.gender.value) != Genders.Name(g)
    ensures BioToDomain(d).gender.None?
  {
    if BioToDomain(d).gender.Some? {
      Genders.FromStringIff(d.gender.value, BioToDomain(d).gender.value);
    }
  }

  /** A mood text that names no mood, whatever its case, arrives in the domain as null. */
  lemma UnknownMoodBecomesNull(d: MoodTargetDto)
    requires d.mood.Some? && forall m :: JavaStrings.ToUpper(d.mood.value) != Moods.Name(m)
    ensures MoodToDomain(d).mood.None?
  {
    if MoodToDomain(d).mood.Some? {
      Moods.FromStringIff(d.mood.value, MoodToDomain(d).mood.value);
    }
  }

  /**
   * An ad with all three target sets present reaches its DTO and comes back unchanged,
   * every scalar field, the YouTube details and every target record included.
   */
  lemma AdvertisementRoundTrip(ad: A.Advertisement)
    requires ad.geoTargets.Some? && ad.bioTargets.Some? && ad.moodTargets.Some?
    ensures ToDto(ad).Ok? && ToDomain(ToDto(ad).value) == Ok(ad)
  {
    forall t | t in ad.geoTargets.value ensures GeoToDomain(GeoToDto(t)) == t { }
    forall t | t in ad.bioTargets.value ensures BioToDomain(BioToDto(t)) == t {
      RecordsRoundTrip(GT.GeoTarget(None, None, None, None, None, None, true), t,
                       MT.MoodTarget(None, None, None, None, None, None, true), None);
    }
    forall t | t in ad.moodTargets.value ensures MoodToDomain(MoodToDto(t)) == t {
      RecordsRoundTrip(GT.GeoTarget(None, None, None, None, None, None, true),
                       BT.BioTarget(None, None, None, None, None, None, None, true), t, None);
    }
    RecordsRoundTrip(GT.GeoTarget(None, None, None, None, None, None, true),
                     BT.BioTarget(None, None, None, None, None, None, None, true),
                     MT.MoodTarget(None, None, None, None, None, None, true), ad.youtubeDetails);
    ImageRoundTrip(ad.geoTargets.value, GeoToDto, GeoToDomain);
    ImageRoundTrip(ad.bioTargets.value, BioToDto, BioToDomain);
    ImageRoundTrip(ad.moodTargets.value, MoodToDto, MoodToDomain);
  }

  /** Every gender and mood text in the DTO's rules is null or an exact name. */
  predicate CanonicalNames(dto: AdvertisementDto)
    requires dto.bioTargets.Some? && dto.moodTargets.Some?
  {
    (forall b :: b in dto.bioTargets.value ==> b.gender.None? || IsGenderName(b.gender.value))
    && (forall m :: m in dto.moodTargets.value ==> m.mood.None? || IsMoodName(m.mood.value))
  }

  /** A set of bio DTOs comes back from the domain unchanged exactly when all its gender texts are canonical. */
  lemma BioSetRoundTripIff(s: set<BioTargetDto>)
    ensures Image(Image(s, BioToDomain), BioToDto) == s <==>
      forall b :: b in s ==> b.gender.None? || IsGenderName(b.gender.value)
  {
    if forall b :: b in s ==> b.gender.None? || IsGenderName(b.gender.value) {
      forall b | b in s ensures BioToDto(BioToDomain(b)) == b {
        BioDtoRoundTripIff(b);
      }
      ImageRoundTrip(s, BioToDomain, BioToDto);
    } else {
      var b :| b in s && !(b.gender.None? || IsGenderName(b.gender.value));
      assert b !in Image(Image(s, BioToDomain), BioToDto);
    }
  }

  /** A set of mood DTOs comes back from the domain unchanged exactly when all its mood texts are canonical. */
  lemma MoodSetRoundTripIff(s: set<MoodTargetDto>)
    ensures Image(Image(s, MoodToDomain), MoodToDto) == s <==>
      forall m :: m in s ==> m.mood.None? || IsMoodName(m.mood.value)
  {
    if forall m :: m in s ==> m.mood.None? || IsMoodName(m.mood.value) {
      forall m | m in s ensures MoodToDto(MoodToDomain(m)) == m {
        MoodDtoRoundTripIff(m);
      }
      ImageRoundTrip(s, MoodToDomain, MoodToDto);
    } else {
      var m :| m in s && !(m.mood.None? || IsMoodName(m.mood.value));
      assert m !in Image(Image(s, MoodToDomain), MoodToDto);
    }
  }

  /** The shape of a DTO after the trip to the domain and back: each target set is replaced by its double image. */
  lemma DtoThroughDomain(dto: AdvertisementDto)
    requires dto.geoTargets.Some? && dto.bioTargets.Some? && dto.moodTargets.Some?
    ensures ToDomain(dto).Ok? && ToDto(ToDomain(dto).value).Ok?
    ensures ToDto(ToDomain(dto).value).value ==
      dto.(youtubeDetails := YouTubeToDto(YouTubeToDomain(dto.youtubeDetails)),
           geoTargets := Some(Image(Image(dto.geoTargets.value, GeoToDomain), GeoToDto)),
           bioTargets := Some(Image(Image(dto.bioTargets.value, BioToDomain), BioToDto)),
           moodTargets := Some(Image(Image(dto.moodTargets.value, MoodToDomain), MoodToDto)))
  {
  }

  /**
   * A DTO with all three target sets present comes back from the domain unchanged
   * exactly when its gender and mood texts are canonical.
   */
  lemma DtoRoundTrip(dto: AdvertisementDto)
    requires dto.geoTargets.Some? && dto.bioTargets.Some? && dto.moodTargets.Some?
    ensures ToDomain(dto).Ok? && ToDto(ToDomain(dto).value).Ok?
    ensures ToDto(ToDomain(dto).value).value == dto <==> CanonicalNames(dto)
  {
    DtoThroughDomain(dto);
    var back := ToDto(ToDomain(dto).value).value;
    var bio := Image(Image(dto.bioTargets.value, BioToDomain), BioToDto);
    var mood := Image(Image(dto.moodTargets.value, MoodToDomain), MoodToDto);
    forall t | t in dto.geoTargets.value ensures GeoToDto(GeoToDomain(t)) == t { }
    ImageRoundTrip(dto.geoTargets.value, GeoToDomain, GeoToDto);
    assert YouTubeToDto(YouTubeToDomain(dto.youtubeDetails)) == dto.youtubeDetails;
    assert back == dto.(bioTargets := Some(bio), moodTargets := Some(mood));
    assert back == dto <==> bio == dto.bioTargets.value && mood == dto.moodTargets.value;
    BioSetRoundTripIff(dto.bioTargets.value);
    MoodSetRoundTripIff(dto.moodTargets.value);
  }

  // ----- lists, as the controller maps them -----

  /** `ads.stream().map(mapper::toDto).collect(toList())`: stops at the first ad that cannot be mapped. */
  function ToDtos(ads: seq<A.Advertisement>): (r: Result<seq<AdvertisementDto>, JavaException>)
    ensures r.Ok? ==> |r.value| == |ads| && forall i :: 0 <= i < |ads| ==> ToDto(ads[i]) == Ok(r.value[i])
  {
    if ads == [] then Ok([])
    else
      var init :- ToDtos(ads[..|ads| - 1]);
      var last :- ToDto(ads[|ads| - 1]);
      Ok(init + [last])
  }

  /** The list maps exactly when every ad carries all three target sets. */
  lemma {:induction false} ToDtosOkIff(ads: seq<A.Advertisement>)
    ensures ToDtos(ads).Ok? <==>
      forall i :: 0 <= i < |ads| ==> ads[i].geoTargets.Some? && ads[i].bioTargets.Some? && ads[i].moodTargets.Some?
  {
    if ads != [] {
      var init := ads[..|ads| - 1];
      ToDtosOkIff(init);
      assert forall i :: 0 <= i < |init| ==> init[i] == ads[i];
    }
  }

  // ----- a null-safe variant -----

  /** A null target set read as the empty set. */
  function OrEmpty<T>(s: Option<set<T>>): set<T> {
    if s.None? then {} else s.value
  }

  /**
   * `toDto` with a null target set rendered as an empty list instead of a thrown
   * exception: the behaviour the controller's replies need for ads that the persistence
   * layer hands back with null sets.
   */
  function ToDtoNullSafe(ad: A.Advertisement): (r: AdvertisementDto)
    ensures ad.geoTargets.Some? && ad.bioTargets.Some? && ad.moodTargets.Some? ==> ToDto(ad) == Ok(r)
    ensures r.geoTargets.Some? && r.bioTargets.Some? && r.moodTargets.Some?
  {
    var filled := ad.(geoTargets := Some(OrEmpty(ad.geoTargets)),
                      bioTargets := Some(OrEmpty(ad.bioTargets)),
                      moodTargets := Some(OrEmpty(ad.moodTargets)));
    assert ad.geoTargets.Some? && ad.bioTargets.Some? && ad.moodTargets.Some? ==> filled == ad;
    ToDto(filled).value
  }

  /** The null-safe DTO reads back as the ad with each null target set replaced by an empty one. */
  lemma NullSafeRoundTrip(ad: A.Advertisement)
    ensures ToDomain(ToDtoNullSafe(ad)) ==
      Ok(ad.(geoTargets := Some(OrEmpty(ad.geoTargets)),
             bioTargets := Some(OrEmpty(ad.bioTargets)),
             moodTargets := Some(OrEmpty(ad.moodTargets))))
  {
    var filled := ad.(geoTargets := Some(OrEmpty(ad.geoTargets)),
                      bioTargets := Some(OrEmpty(ad.bioTargets)),
                      moodTargets := Some(OrEmpty(ad.moodTargets)));
    AdvertisementRoundTrip(filled);
  }
}
