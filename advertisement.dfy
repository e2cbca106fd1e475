/**
 * The advertisement aggregate and its targeting combinators
 * (domain/model/Advertisement.java, YouTubeDetails.java, AdvertisementSource.java).
 */
module Advertisements {
  import opened Wrappers
  import JavaInts
  import Genders
  import Moods
  import opened GeoTargets
  import opened BioTargets
  import opened MoodTargets

  /** A `LocalDateTime` or `Instant`, as a point on a totally ordered time line. */
  type Timestamp = int

  datatype AdvertisementSource = STORAGE | YOUTUBE

  datatype YouTubeDetails = YouTubeDetails(
    videoId: Option<string>,
    videoTitle: Option<string>,
    channelId: Option<string>,
    channelTitle: Option<string>,
    durationSeconds: Option<int>,
    thumbnailUrl: Option<string>,
    publishedAt: Option<Timestamp>)

  /**
   * The domain advertisement.  Besides the fields declared in Advertisement.java it carries
   * the viewing-policy and click fields (weight, targetUrl, clickable, overrideStart,
   * overrideEnd, youtubeDetails) that the viewing policy and the mappers read from it.
   */
  datatype Advertisement = Advertisement(
    id: Option<int>,
    title: Option<string>,
    description: Option<string>,
    content: Option<string>,
    source: Option<AdvertisementSource>,
    sourceIdentifier: Option<string>,
    createdAt: Option<Timestamp>,
    updatedAt: Option<Timestamp>,
    active: bool,
    targetUrl: Option<string>,
    clickable: bool,
    weight: JavaInts.Int32,
    overrideStart: Option<Timestamp>,
    overrideEnd: Option<Timestamp>,
    youtubeDetails: Option<YouTubeDetails>,
    geoTargets: Option<set<GeoTarget>>,
    bioTargets: Option<set<BioTarget>>,
    moodTargets: Option<set<MoodTarget>>)

  /**
   * The include/exclude combinator shared by every targeting dimension: a null or empty
   * rule set never matches; otherwise some inclusion rule must match and no exclusion rule may.
   */
  predicate RuleSetMatches<T>(rules: Option<set<T>>, isInclude: T -> bool, matches: T -> bool) {
    rules.Some? && rules.value != {}
    && (exists t :: t in rules.value && isInclude(t) && matches(t))
    && !(exists t :: t in rules.value && !isInclude(t) && matches(t))
  }

  /** A null or empty rule set never matches. */
  lemma NoRulesNeverMatch<T>(rules: Option<set<T>>, isInclude: T -> bool, matches: T -> bool)
    requires rules.None? || rules.value == {}
    ensures !RuleSetMatches(rules, isInclude, matches)
  {
  }

  /** A rule set made only of exclusion rules never matches. */
  lemma OnlyExclusionsNeverMatch<T>(rules: set<T>, isInclude: T -> bool, matches: T -> bool)
    requires forall t :: t in rules ==> !isInclude(t)
    ensures !RuleSetMatches(Some(rules), isInclude, matches)
  {
  }

  /** One matching exclusion rule vetoes the whole dimension, whatever the inclusion rules say. */
  lemma MatchingExclusionVetoes<T>(rules: set<T>, isInclude: T -> bool, matches: T -> bool, veto: T)
    requires veto in rules && !isInclude(veto) && matches(veto)
    ensures !RuleSetMatches(Some(rules), isInclude, matches)
  {
  }

  /** With no exclusion rule matching, one matching inclusion rule is enough. */
  lemma MatchingInclusionSuffices<T>(rules: set<T>, isInclude: T -> bool, matches: T -> bool, chosen: T)
    requires chosen in rules && isInclude(chosen) && matches(chosen)
    requires forall t :: t in rules && !isInclude(t) ==> !matches(t)
    ensures RuleSetMatches(Some(rules), isInclude, matches)
  {
  }

  /** `Advertisement.matchesGeoTargeting`. */
  predicate MatchesGeoTargeting(ad: Advertisement, countryCode: Option<string>, region: Option<string>, city: Option<string>,
                                latitude: Option<real>, longitude: Option<real>, distance: Distance)
  {
    RuleSetMatches(ad.geoTargets, (t: GeoTarget) => t.isInclude,
                   (t: GeoTarget) => GeoTargets.Matches(t, countryCode, region, city, latitude, longitude, distance))
  }

  /** `Advertisement.matchesBioTargeting`: the gender arrives as text and is parsed with `Gender.fromString`. */
  predicate MatchesBioTargeting(ad: Advertisement, age: Option<int>, genderStr: Option<string>, occupation: Option<string>,
                                educationLevel: Option<string>, language: Option<string>, interests: Option<set<string>>)
  {
    var gender := Genders.FromString(genderStr);
    RuleSetMatches(ad.bioTargets, (t: BioTarget) => t.isInclude,
                   (t: BioTarget) => BioTargets.Matches(t, age, gender, occupation, educationLevel, language, interests))
  }

  /** `Advertisement.matchesMoodTargeting`. */
  predicate MatchesMoodTargeting(ad: Advertisement, mood: Option<Moods.Mood>, intensity: Option<int>, timeOfDay: Option<string>,
                                 dayOfWeek: Option<string>, season: Option<string>)
  {
    RuleSetMatches(ad.moodTargets, (t: MoodTarget) => t.isInclude,
                   (t: MoodTarget) => MoodTargets.Matches(t, mood, intensity, timeOfDay, dayOfWeek, season))
  }

  /** `Advertisement.matchesTargeting`: all three dimensions, with geography checked on the country alone. */
  predicate MatchesTargeting(ad: Advertisement, countryCode: Option<string>, age: Option<int>, genderStr: Option<string>,
                             occupation: Option<string>, educationLevel: Option<string>, language: Option<string>,
                             interests: Option<set<string>>, mood: Option<Moods.Mood>, intensity: Option<int>,
                             timeOfDay: Option<string>, dayOfWeek: Option<string>, season: Option<string>, distance: Distance)
  {
    MatchesGeoTargeting(ad, countryCode, None, None, None, None, distance)
    && MatchesBioTargeting(ad, age, genderStr, occupation, educationLevel, language, interests)
    && MatchesMoodTargeting(ad, mood, intensity, timeOfDay, dayOfWeek, season)
  }

  /** The geo dimension never matches an ad without geo rules, and otherwise follows include-and-no-exclude. */
  lemma MatchesGeoTargetingIff(ad: Advertisement, countryCode: Option<string>, region: Option<string>, city: Option<string>,
                               latitude: Option<real>, longitude: Option<real>, distance: Distance)
    ensures MatchesGeoTargeting(ad, countryCode, region, city, latitude, longitude, distance) <==>
      ad.geoTargets.Some?
      && (exists t :: t in ad.geoTargets.value && t.isInclude && GeoTargets.Matches(t, countryCode, region, city, latitude, longitude, distance))
      && (forall t :: t in ad.geoTargets.value && !t.isInclude ==> !GeoTargets.Matches(t, countryCode, region, city, latitude, longitude, distance))
  {
  }

  /** The bio dimension never matches an ad without bio rules, and otherwise follows include-and-no-exclude on the parsed gender. */
  lemma MatchesBioTargetingIff(ad: Advertisement, age: Option<int>, genderStr: Option<string>, occupation: Option<string>,
                               educationLevel: Option<string>, language: Option<string>, interests: Option<set<string>>)
    ensures var g := Genders.FromString(genderStr);
      MatchesBioTargeting(ad, age, genderStr, occupation, educationLevel, language, interests) <==>
      ad.bioTargets.Some?
      && (exists t :: t in ad.bioTargets.value && t.isInclude && BioTargets.Matches(t, age, g, occupation, educationLevel, language, interests))
      && (forall t :: t in ad.bioTargets.value && !t.isInclude ==> !BioTargets.Matches(t, age, g, occupation, educationLevel, language, interests))
  {
  }

  /** The mood dimension never matches an ad without mood rules, and otherwise follows include-and-no-exclude. */
  lemma MatchesMoodTargetingIff(ad: Advertisement, mood: Option<Moods.Mood>, intensity: Option<int>, timeOfDay: Option<string>,
                                dayOfWeek: Option<string>, season: Option<string>)
    ensures MatchesMoodTargeting(ad, mood, intensity, timeOfDay, dayOfWeek, season) <==>
      ad.moodTargets.Some?
      && (exists t :: t in ad.moodTargets.value && t.isInclude && MoodTargets.Matches(t, mood, intensity, timeOfDay, dayOfWeek, season))
      && (forall t :: t in ad.moodTargets.value && !t.isInclude ==> !MoodTargets.Matches(t, mood, intensity, timeOfDay, dayOfWeek, season))
  {
  }

  /** An ad with a null or empty rule set in some dimension fails that dimension, and with it `matchesTargeting`. */
  lemma NoRulesFailTargeting(ad: Advertisement, countryCode: Option<string>, age: Option<int>, genderStr: Option<string>,
                             occupation: Option<string>, educationLevel: Option<string>, language: Option<string>,
                             interests: Option<set<string>>, mood: Option<Moods.Mood>, intensity: Option<int>,
                             timeOfDay: Option<string>, dayOfWeek: Option<string>, season: Option<string>, distance: Distance)
    requires ad.geoTargets.None? || ad.geoTargets.value == {} || ad.bioTargets.None? || ad.bioTargets.value == {}
          || ad.moodTargets.None? || ad.moodTargets.value == {}
    ensures !MatchesTargeting(ad, countryCode, age, genderStr, occupation, educationLevel, language, interests,
                              mood, intensity, timeOfDay, dayOfWeek, season, distance)
  {
  }

  /** A gender text that names no backend gender (such as "OTHER") behaves exactly like a missing gender. */
  lemma UnknownGenderIsWildcard(ad: Advertisement, age: Option<int>, genderStr: string, occupation: Option<string>,
                                educationLevel: Option<string>, language: Option<string>, interests: Option<set<string>>)
    requires Genders.FromString(Some(genderStr)).None?
    ensures MatchesBioTargeting(ad, age, Some(genderStr), occupation, educationLevel, language, interests)
        == MatchesBioTargeting(ad, age, None, occupation, educationLevel, language, interests)
  {
  }

  /** `matchesTargeting` ignores region, city and coordinates: only the country code reaches the geo rules. */
  lemma TargetingIgnoresFinerGeography(ad: Advertisement, countryCode: string, age: Option<int>, genderStr: Option<string>,
                                       occupation: Option<string>, educationLevel: Option<string>, language: Option<string>,
                                       interests: Option<set<string>>, mood: Option<Moods.Mood>, intensity: Option<int>,
                                       timeOfDay: Option<string>, dayOfWeek: Option<string>, season: Option<string>,
                                       d1: Distance, d2: Distance)
    ensures MatchesTargeting(ad, Some(countryCode), age, genderStr, occupation, educationLevel, language, interests,
                             mood, intensity, timeOfDay, dayOfWeek, season, d1)
        == MatchesTargeting(ad, Some(countryCode), age, genderStr, occupation, educationLevel, language, interests,
                            mood, intensity, timeOfDay, dayOfWeek, season, d2)
  {
    assert forall t: GeoTarget :: GeoTargets.Matches(t, Some(countryCode), None, None, None, None, d1)
                               == GeoTargets.Matches(t, Some(countryCode), None, None, None, None, d2);
  }
}
