/** The mood targeting strategy over an untyped criteria map (application/service/targeting/MoodTargetingStrategy.java). */
module MoodTargetingStrategy {
  import opened Wrappers
  import Sequences
  import opened JavaValues
  import Moods
  import opened MoodTargets
  import opened Advertisements

  /** `key()`. */
  const Key: string := "mood"

  datatype MoodQuery = MoodQuery(mood: Option<Moods.Mood>, intensity: Option<int>, timeOfDay: Option<string>,
                                 dayOfWeek: Option<string>, season: Option<string>)

  /** The casts at the top of `matches`; the mood must already be a Mood, not its name. */
  function ReadCriteria(criteria: Option<Criteria>): Result<MoodQuery, JavaException> {
    if criteria.None? then Err(NullPointerException)
    else
      var m := criteria.value;
      var mood :- AsMood(Get(m, "mood"));
      var intensity :- AsInteger(Get(m, "intensity"));
      var timeOfDay :- AsString(Get(m, "timeOfDay"));
      var dayOfWeek :- AsString(Get(m, "dayOfWeek"));
      var season :- AsString(Get(m, "season"));
      Ok(MoodQuery(mood, intensity, timeOfDay, dayOfWeek, season))
  }

  /** `matches`: the criteria are read before the ad's rules are looked at. */
  function Matches(ad: Advertisement, criteria: Option<Criteria>): Result<bool, JavaException> {
    var q :- ReadCriteria(criteria);
    Ok(MatchesMoodTargeting(ad, q.mood, q.intensity, q.timeOfDay, q.dayOfWeek, q.season))
  }

  /** `filter`. */
  function Filter(ads: Option<seq<Advertisement>>, criteria: Option<Criteria>): Result<seq<Advertisement>, JavaException> {
    if ads.None? || ads.value == [] then Ok([])
    else Sequences.FilterOrFail(ads.value, (ad: Advertisement) => Matches(ad, criteria))
  }

  /** Null or empty input filters to the empty list. */
  lemma FilterNoInput(ads: Option<seq<Advertisement>>, criteria: Option<Criteria>)
    requires ads.None? || ads.value == []
    ensures Filter(ads, criteria) == Ok([])
  {
  }

  /** With readable criteria, `filter` keeps exactly the ads the domain combinator accepts, in order. */
  lemma FilterExact(ads: seq<Advertisement>, criteria: Option<Criteria>)
    requires ReadCriteria(criteria).Ok?
    ensures var q := ReadCriteria(criteria).value;
      Filter(Some(ads), criteria)
      == Ok(Sequences.Filter(ads, (ad: Advertisement) => MatchesMoodTargeting(ad, q.mood, q.intensity, q.timeOfDay, q.dayOfWeek, q.season)))
  {
    var q := ReadCriteria(criteria).value;
    Sequences.FilterOrFailTotal(ads, (ad: Advertisement) => Matches(ad, criteria),
      (ad: Advertisement) => MatchesMoodTargeting(ad, q.mood, q.intensity, q.timeOfDay, q.dayOfWeek, q.season));
  }

  /** Unreadable criteria make a non-empty `filter` throw the cast's exception. */
  lemma FilterPropagatesCastFailure(ads: seq<Advertisement>, criteria: Option<Criteria>)
    requires ads != [] && ReadCriteria(criteria).Err?
    ensures Filter(Some(ads), criteria) == Err(ReadCriteria(criteria).error)
  {
  }

  /** Missing keys read as null, so an empty map asks for any mood. */
  lemma MissingKeysAreNull(ad: Advertisement)
    ensures Matches(ad, Some(map[])) == Ok(MatchesMoodTargeting(ad, None, None, None, None, None))
  {
  }

  /** A mood given by name rather than as a Mood fails the cast. */
  lemma MoodNameFails(ad: Advertisement, m: Criteria, name: string)
    requires Get(m, "mood") == VString(name)
    ensures Matches(ad, Some(m)) == Err(ClassCastException)
  {
  }

  /** With readable criteria, an ad without mood rules never matches; otherwise include-and-no-exclude decides. */
  lemma MatchesIff(ad: Advertisement, criteria: Option<Criteria>)
    requires ReadCriteria(criteria).Ok?
    ensures var q := ReadCriteria(criteria).value;
      Matches(ad, criteria).Ok?
      && (Matches(ad, criteria).value <==>
          ad.moodTargets.Some?
          && (exists t :: t in ad.moodTargets.value && t.isInclude && MoodTargets.Matches(t, q.mood, q.intensity, q.timeOfDay, q.dayOfWeek, q.season))
          && (forall t :: t in ad.moodTargets.value && !t.isInclude ==> !MoodTargets.Matches(t, q.mood, q.intensity, q.timeOfDay, q.dayOfWeek, q.season)))
  {
  }
}
