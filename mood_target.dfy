/** A mood targeting rule and its per-rule match (domain/model/MoodTarget.java). */
module MoodTargets {
  import opened Wrappers
  import opened JavaStrings
  import opened Moods

  datatype MoodTarget = MoodTarget(
    mood: Option<Mood>,
    intensityMin: Option<int>,
    intensityMax: Option<int>,
    timeOfDay: Option<string>,
    dayOfWeek: Option<string>,
    season: Option<string>,
    isInclude: bool)  // the source field `include`: true for an inclusion rule, false for an exclusion rule

  /** A string criterion imposes nothing when either side is null; otherwise the two must agree up to case. */
  predicate TextAgrees(ruleValue: Option<string>, queryValue: Option<string>) {
    queryValue.None? || ruleValue.None? || EqualsIgnoreCase(ruleValue.value, queryValue.value)
  }

  /** `MoodTarget.matches`: a chain of early rejections, accepting when none fires. */
  function Matches(t: MoodTarget, mood: Option<Mood>, intensity: Option<int>, timeOfDay: Option<string>,
                   dayOfWeek: Option<string>, season: Option<string>): bool
  {
    if mood.Some? && t.mood.Some? && t.mood.value != mood.value then false
    else if intensity.Some? && (t.intensityMin.Some? || t.intensityMax.Some?)
       && ((t.intensityMin.Some? && intensity.value < t.intensityMin.value)
           || (t.intensityMax.Some? && intensity.value > t.intensityMax.value))
    then false
    else if timeOfDay.Some? && t.timeOfDay.Some? && !EqualsIgnoreCase(t.timeOfDay.value, timeOfDay.value) then false
    else if dayOfWeek.Some? && t.dayOfWeek.Some? && !EqualsIgnoreCase(t.dayOfWeek.value, dayOfWeek.value) then false
    else if season.Some? && t.season.Some? && !EqualsIgnoreCase(t.season.value, season.value) then false
    else true
  }

  /** The intensity criterion: inclusive bounds, skipped for a null intensity. */
  predicate IntensityOk(t: MoodTarget, intensity: Option<int>) {
    intensity.None?
    || ((t.intensityMin.None? || t.intensityMin.value <= intensity.value)
        && (t.intensityMax.None? || intensity.value <= t.intensityMax.value))
  }

  /** The rule matches exactly when the moods agree (where both are known), the intensity is in range and the text criteria agree. */
  lemma MatchesIff(t: MoodTarget, mood: Option<Mood>, intensity: Option<int>, timeOfDay: Option<string>,
                   dayOfWeek: Option<string>, season: Option<string>)
    ensures Matches(t, mood, intensity, timeOfDay, dayOfWeek, season) <==>
      (mood.None? || t.mood.None? || t.mood == mood) && IntensityOk(t, intensity)
      && TextAgrees(t.timeOfDay, timeOfDay) && TextAgrees(t.dayOfWeek, dayOfWeek) && TextAgrees(t.season, season)
  {
  }

  /** Two different known moods never match. */
  lemma DifferentMoodFails(t: MoodTarget, m: Mood, intensity: Option<int>, timeOfDay: Option<string>,
                           dayOfWeek: Option<string>, season: Option<string>)
    requires t.mood.Some? && t.mood.value != m
    ensures !Matches(t, Some(m), intensity, timeOfDay, dayOfWeek, season)
  {
  }

  /** Time of day, day of week and season are compared ignoring case. */
  lemma TextIgnoresCase(ruleValue: Option<string>, a: string, b: string)
    requires EqualsIgnoreCase(a, b)
    ensures TextAgrees(ruleValue, Some(a)) <==> TextAgrees(ruleValue, Some(b))
  {
    if ruleValue.Some? {
      EqualsIgnoreCaseIsEquivalence(ruleValue.value, a, b);
      EqualsIgnoreCaseIsEquivalence(ruleValue.value, b, a);
    }
  }

  /** A rule whose optional fields are all null matches every query. */
  lemma UnconstrainedMatchesAll(isInclude: bool, mood: Option<Mood>, intensity: Option<int>, timeOfDay: Option<string>,
                                dayOfWeek: Option<string>, season: Option<string>)
    ensures Matches(MoodTarget(None, None, None, None, None, None, isInclude), mood, intensity, timeOfDay, dayOfWeek, season)
  {
  }

  /** `a` is `b` with possibly the value replaced by null. */
  predicate Relaxes<T(==)>(a: Option<T>, b: Option<T>) {
    a.None? || a == b
  }

  /** Replacing query fields by null never turns a match into a non-match. */
  lemma NullQueryFieldKeepsMatch(t: MoodTarget,
                                 mood: Option<Mood>, intensity: Option<int>, timeOfDay: Option<string>,
                                 dayOfWeek: Option<string>, season: Option<string>,
                                 mood': Option<Mood>, intensity': Option<int>, timeOfDay': Option<string>,
                                 dayOfWeek': Option<string>, season': Option<string>)
    requires Relaxes(mood', mood) && Relaxes(intensity', intensity) && Relaxes(timeOfDay', timeOfDay)
    requires Relaxes(dayOfWeek', dayOfWeek) && Relaxes(season', season)
    requires Matches(t, mood, intensity, timeOfDay, dayOfWeek, season)
    ensures Matches(t, mood', intensity', timeOfDay', dayOfWeek', season')
  {
  }
}
