/**
 * The targeting service: list filters over the advertisement combinators
 * (application/service/TargetingServiceImpl.java).  Its `matches*` methods repeat the
 * combinators of Advertisement.java verbatim, so the model uses those definitions.
 */
module TargetingService {
  import opened Wrappers
  import opened Sequences
  import opened JavaValues
  import opened GeoTargets
  import Moods
  import opened Advertisements

  /** Null and empty lists are both "no input". */
  predicate NoInput(ads: Option<seq<Advertisement>>) {
    ads.None? || ads.value == []
  }

  /** `filterByGeoTargeting`. */
  function FilterByGeoTargeting(ads: Option<seq<Advertisement>>, countryCode: Option<string>, region: Option<string>,
                                city: Option<string>, latitude: Option<real>, longitude: Option<real>, distance: Distance)
    : seq<Advertisement>
  {
    if NoInput(ads) then []
    else Filter(ads.value, (ad: Advertisement) => MatchesGeoTargeting(ad, countryCode, region, city, latitude, longitude, distance))
  }

  /** `filterByBioTargeting`. */
  function FilterByBioTargeting(ads: Option<seq<Advertisement>>, age: Option<int>, genderStr: Option<string>,
                                occupation: Option<string>, educationLevel: Option<string>, language: Option<string>,
                                interests: Option<set<string>>): seq<Advertisement>
  {
    if NoInput(ads) then []
    else Filter(ads.value, (ad: Advertisement) => MatchesBioTargeting(ad, age, genderStr, occupation, educationLevel, language, interests))
  }

  /** `filterByMoodTargeting`. */
  function FilterByMoodTargeting(ads: Option<seq<Advertisement>>, mood: Option<Moods.Mood>, intensity: Option<int>,
                                 timeOfDay: Option<string>, dayOfWeek: Option<string>, season: Option<string>): seq<Advertisement>
  {
    if NoInput(ads) then []
    else Filter(ads.value, (ad: Advertisement) => MatchesMoodTargeting(ad, mood, intensity, timeOfDay, dayOfWeek, season))
  }

  /**
   * The interests entry as `filterByTargetingCriteria` reads it:
   * `new HashSet<>((List<String>) userBioData.getOrDefault("interests", emptyList()))`.
   * A missing key gives the empty set, an explicit null makes the HashSet constructor throw,
   * and anything that is not a List fails the cast.
   */
  function InterestsFromList(userBioData: Criteria): Result<set<string>, JavaException> {
    if "interests" !in userBioData then Ok({})
    else match userBioData["interests"]
      case VNull => Err(NullPointerException)
      case VList(items) => Ok(set x | x in items)
      case _ => Err(ClassCastException)
  }

  /**
   * `filterByTargetingCriteria`: only the bio data is applied; the country code and the mood
   * are accepted and ignored.
   */
  function FilterByTargetingCriteria(ads: Option<seq<Advertisement>>, countryCode: Option<string>,
                                     userBioData: Option<Criteria>, mood: Option<Moods.Mood>)
    : Result<seq<Advertisement>, JavaException>
  {
    if NoInput(ads) then Ok([])
    else if userBioData.None? || userBioData.value == map[] then Ok(ads.value)
    else
      var m := userBioData.value;
      var age :- AsInteger(Get(m, "age"));
      var gender :- AsString(Get(m, "gender"));
      var occupation :- AsString(Get(m, "occupation"));
      var educationLevel :- AsString(Get(m, "educationLevel"));
      var language :- AsString(Get(m, "language"));
      var interests :- InterestsFromList(m);
      Ok(Filter(ads.value, (ad: Advertisement) =>
        MatchesBioTargeting(ad, age, gender, occupation, educationLevel, language, Some(interests))))
  }

  /** Every filter returns the empty list for a null or empty input. */
  lemma NoInputGivesNothing(ads: Option<seq<Advertisement>>, countryCode: Option<string>, userBioData: Option<Criteria>,
                            mood: Option<Moods.Mood>, distance: Distance)
    requires NoInput(ads)
    ensures FilterByTargetingCriteria(ads, countryCode, userBioData, mood) == Ok([])
    ensures FilterByGeoTargeting(ads, countryCode, None, None, None, None, distance) == []
    ensures FilterByBioTargeting(ads, None, None, None, None, None, None) == []
    ensures FilterByMoodTargeting(ads, mood, None, None, None, None) == []
  {
  }

  /** `filterByGeoTargeting` keeps exactly the geo-matching ads, in input order. */
  lemma FilterByGeoTargetingExact(ads: seq<Advertisement>, countryCode: Option<string>, region: Option<string>,
                                  city: Option<string>, latitude: Option<real>, longitude: Option<real>, distance: Distance)
    ensures var r := FilterByGeoTargeting(Some(ads), countryCode, region, city, latitude, longitude, distance);
      (forall ad :: ad in r <==> ad in ads && MatchesGeoTargeting(ad, countryCode, region, city, latitude, longitude, distance))
      && multiset(r) <= multiset(ads)
  {
    var p := (ad: Advertisement) => MatchesGeoTargeting(ad, countryCode, region, city, latitude, longitude, distance);
    forall ad | ad in ads && p(ad) ensures ad in Filter(ads, p) {
      var i :| 0 <= i < |ads| && ads[i] == ad;
    }
  }

  /** `filterByBioTargeting` keeps exactly the bio-matching ads, in input order. */
  lemma FilterByBioTargetingExact(ads: seq<Advertisement>, age: Option<int>, genderStr: Option<string>,
                                  occupation: Option<string>, educationLevel: Option<string>, language: Option<string>,
                                  interests: Option<set<string>>)
    ensures var r := FilterByBioTargeting(Some(ads), age, genderStr, occupation, educationLevel, language, interests);
      (forall ad :: ad in r <==> ad in ads && MatchesBioTargeting(ad, age, genderStr, occupation, educationLevel, language, interests))
      && multiset(r) <= multiset(ads)
  {
    var p := (ad: Advertisement) => MatchesBioTargeting(ad, age, genderStr, occupation, educationLevel, language, interests);
    forall ad | ad in ads && p(ad) ensures ad in Filter(ads, p) {
      var i :| 0 <= i < |ads| && ads[i] == ad;
    }
  }

  /** `filterByMoodTargeting` keeps exactly the mood-matching ads, in input order. */
  lemma FilterByMoodTargetingExact(ads: seq<Advertisement>, mood: Option<Moods.Mood>, intensity: Option<int>,
                                   timeOfDay: Option<string>, dayOfWeek: Option<string>, season: Option<string>)
    ensures var r := FilterByMoodTargeting(Some(ads), mood, intensity, timeOfDay, dayOfWeek, season);
      (forall ad :: ad in r <==> ad in ads && MatchesMoodTargeting(ad, mood, intensity, timeOfDay, dayOfWeek, season))
      && multiset(r) <= multiset(ads)
  {
    var p := (ad: Advertisement) => MatchesMoodTargeting(ad, mood, intensity, timeOfDay, dayOfWeek, season);
    forall ad | ad in ads && p(ad) ensures ad in Filter(ads, p) {
      var i :| 0 <= i < |ads| && ads[i] == ad;
    }
  }

  /** Without bio data the combined filter returns its (non-empty) input unchanged, whatever the country and mood. */
  lemma NoBioDataKeepsInput(ads: seq<Advertisement>, countryCode: Option<string>, userBioData: Option<Criteria>,
                            mood: Option<Moods.Mood>)
    requires ads != []
    requires userBioData.None? || userBioData.value == map[]
    ensures FilterByTargetingCriteria(Some(ads), countryCode, userBioData, mood) == Ok(ads)
  {
  }

  /** The country code and mood never influence the combined filter. */
  lemma CountryAndMoodIgnored(ads: Option<seq<Advertisement>>, c1: Option<string>, c2: Option<string>,
                              userBioData: Option<Criteria>, m1: Option<Moods.Mood>, m2: Option<Moods.Mood>)
    ensures FilterByTargetingCriteria(ads, c1, userBioData, m1) == FilterByTargetingCriteria(ads, c2, userBioData, m2)
  {
  }

  /** Well-typed bio data: the combined filter keeps exactly the ads whose bio rules match it. */
  lemma BioDataFilters(ads: seq<Advertisement>, userBioData: Criteria, countryCode: Option<string>, mood: Option<Moods.Mood>,
                       age: Option<int>, gender: Option<string>, occupation: Option<string>, educationLevel: Option<string>,
                       language: Option<string>, interests: seq<string>)
    requires ads != [] && userBioData != map[]
    requires Get(userBioData, "age") == (if age.Some? then VInteger(age.value) else VNull)
    requires Get(userBioData, "gender") == (if gender.Some? then VString(gender.value) else VNull)
    requires Get(userBioData, "occupation") == (if occupation.Some? then VString(occupation.value) else VNull)
    requires Get(userBioData, "educationLevel") == (if educationLevel.Some? then VString(educationLevel.value) else VNull)
    requires Get(userBioData, "language") == (if language.Some? then VString(language.value) else VNull)
    requires "interests" in userBioData && userBioData["interests"] == VList(interests)
    ensures FilterByTargetingCriteria(Some(ads), countryCode, Some(userBioData), mood)
         == Ok(Filter(ads, (ad: Advertisement) =>
              MatchesBioTargeting(ad, age, gender, occupation, educationLevel, language, Some(set x | x in interests))))
  {
    assert AsInteger(Get(userBioData, "age")) == Ok(age);
    assert AsString(Get(userBioData, "gender")) == Ok(gender);
    assert AsString(Get(userBioData, "occupation")) == Ok(occupation);
    assert AsString(Get(userBioData, "educationLevel")) == Ok(educationLevel);
    assert AsString(Get(userBioData, "language")) == Ok(language);
  }

  /** An explicit null interests entry makes the combined filter throw. */
  lemma NullInterestsThrow(ads: seq<Advertisement>, userBioData: Criteria, countryCode: Option<string>, mood: Option<Moods.Mood>)
    requires ads != []
    requires "interests" in userBioData && userBioData["interests"] == VNull
    requires AsInteger(Get(userBioData, "age")).Ok?
    requires forall k :: k in ["gender", "occupation", "educationLevel", "language"] ==> IsStringOrNull(Get(userBioData, k))
    ensures FilterByTargetingCriteria(Some(ads), countryCode, Some(userBioData), mood) == Err(NullPointerException)
  {
    assert IsStringOrNull(Get(userBioData, "gender"));
    assert IsStringOrNull(Get(userBioData, "occupation"));
    assert IsStringOrNull(Get(userBioData, "educationLevel"));
    assert IsStringOrNull(Get(userBioData, "language"));
  }

  /** Interests given as a Set (not a List) fail the List cast. */
  lemma SetInterestsFailCast(userBioData: Criteria, interests: set<string>)
    requires "interests" in userBioData && userBioData["interests"] == VSet(interests)
    ensures InterestsFromList(userBioData) == Err(ClassCastException)
  {
  }

  /**
   * Bio data carrying none of the recognised keys constrains nothing: an ad passes exactly
   * when it has some inclusion rule and no exclusion rule at all.
   */
  lemma UninformativeBioData(ads: seq<Advertisement>, userBioData: Criteria, countryCode: Option<string>, mood: Option<Moods.Mood>)
    requires ads != [] && userBioData != map[]
    requires forall k :: k in userBioData ==> k !in ["age", "gender", "occupation", "educationLevel", "language", "interests"]
    ensures FilterByTargetingCriteria(Some(ads), countryCode, Some(userBioData), mood).Ok?
    ensures var r := FilterByTargetingCriteria(Some(ads), countryCode, Some(userBioData), mood).value;
      forall ad :: ad in r <==> (ad in ads && ad.bioTargets.Some?
        && (exists t :: t in ad.bioTargets.value && t.isInclude)
        && (forall t :: t in ad.bioTargets.value ==> t.isInclude))
  {
    assert "age" !in userBioData && "gender" !in userBioData && "occupation" !in userBioData;
    assert "educationLevel" !in userBioData && "language" !in userBioData && "interests" !in userBioData;
    var p := (ad: Advertisement) => MatchesBioTargeting(ad, None, None, None, None, None, Some({}));
    var r := Filter(ads, p);
    assert FilterByTargetingCriteria(Some(ads), countryCode, Some(userBioData), mood) == Ok(r);
    forall ad
      ensures ad in r <==> (ad in ads && ad.bioTargets.Some?
        && (exists t :: t in ad.bioTargets.value && t.isInclude)
        && (forall t :: t in ad.bioTargets.value ==> t.isInclude))
    {
      if ad in ads && p(ad) {
        var i :| 0 <= i < |ads| && ads[i] == ad;
      }
      if ad.bioTargets.Some? {
        forall t | t in ad.bioTargets.value ensures BioTargets.Matches(t, None, None, None, None, None, Some({})) { }
      }
    }
  }
}
