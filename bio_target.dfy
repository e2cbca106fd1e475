/** A biographical targeting rule and its per-rule match (domain/model/BioTarget.java). */
module BioTargets {
  import opened Wrappers
  import opened JavaStrings
  import opened Genders

  datatype BioTarget = BioTarget(
    minAge: Option<int>,
    maxAge: Option<int>,
    gender: Option<Gender>,
    occupation: Option<string>,
    educationLevel: Option<string>,
    language: Option<string>,
    interestCategory: Option<string>,
    isInclude: bool)  // the source field `include`: true for an inclusion rule, false for an exclusion rule

  /** A string criterion imposes nothing when either side is null; otherwise the two must agree up to case. */
  predicate TextAgrees(ruleValue: Option<string>, queryValue: Option<string>) {
    queryValue.None? || ruleValue.None? || EqualsIgnoreCase(ruleValue.value, queryValue.value)
  }

  /** Some element of `interests` equals `category` up to case. */
  predicate HasInterest(interests: set<string>, category: string) {
    exists i :: i in interests && EqualsIgnoreCase(i, category)
  }

  /** `BioTarget.matches`: a chain of early rejections, accepting when none fires. */
  function Matches(t: BioTarget, age: Option<int>, gender: Option<Gender>, occupation: Option<string>,
                   educationLevel: Option<string>, language: Option<string>, interests: Option<set<string>>): bool
  {
    if age.Some? && (t.minAge.Some? || t.maxAge.Some?)
       && ((t.minAge.Some? && age.value < t.minAge.value) || (t.maxAge.Some? && age.value > t.maxAge.value))
    then false
    else if gender.Some? && t.gender.Some? && t.gender.value != ALL && t.gender.value != gender.value then false
    else if occupation.Some? && t.occupation.Some? && !EqualsIgnoreCase(t.occupation.value, occupation.value) then false
    else if educationLevel.Some? && t.educationLevel.Some? && !EqualsIgnoreCase(t.educationLevel.value, educationLevel.value) then false
    else if language.Some? && t.language.Some? && !EqualsIgnoreCase(t.language.value, language.value) then false
    else if interests.Some? && interests.value != {} && t.interestCategory.Some?
       && !HasInterest(interests.value, t.interestCategory.value)
    then false
    else true
  }

  /** The age criterion: inclusive bounds, skipped for a null age. */
  predicate AgeOk(t: BioTarget, age: Option<int>) {
    age.None? || ((t.minAge.None? || t.minAge.value <= age.value) && (t.maxAge.None? || age.value <= t.maxAge.value))
  }

  /** The gender criterion: ALL admits everyone; otherwise both genders must be equal when both are known. */
  predicate GenderOk(t: BioTarget, gender: Option<Gender>) {
    gender.None? || t.gender.None? || t.gender.value == ALL || t.gender.value == gender.value
  }

  /** The interest criterion: skipped for a null or empty interest set or a null category. */
  predicate InterestOk(t: BioTarget, interests: Option<set<string>>) {
    interests.None? || interests.value == {} || t.interestCategory.None? || HasInterest(interests.value, t.interestCategory.value)
  }

  /** The rule matches exactly when every criterion holds. */
  lemma MatchesIff(t: BioTarget, age: Option<int>, gender: Option<Gender>, occupation: Option<string>,
                   educationLevel: Option<string>, language: Option<string>, interests: Option<set<string>>)
    ensures Matches(t, age, gender, occupation, educationLevel, language, interests) <==>
      AgeOk(t, age) && GenderOk(t, gender) && TextAgrees(t.occupation, occupation)
      && TextAgrees(t.educationLevel, educationLevel) && TextAgrees(t.language, language)
      && InterestOk(t, interests)
  {
  }

  /** With a known age and at least one bound, the rule fails when the age lies outside the inclusive range. */
  lemma AgeOutsideRangeFails(t: BioTarget, age: int, gender: Option<Gender>, occupation: Option<string>,
                             educationLevel: Option<string>, language: Option<string>, interests: Option<set<string>>)
    requires (t.minAge.Some? && age < t.minAge.value) || (t.maxAge.Some? && age > t.maxAge.value)
    ensures !Matches(t, Some(age), gender, occupation, educationLevel, language, interests)
  {
  }

  /** The bounds themselves are inside the range. */
  lemma AgeBoundsInclusive(t: BioTarget, age: int)
    requires t.minAge == Some(age) || t.maxAge == Some(age)
    requires t.minAge.None? || t.minAge.value <= age
    requires t.maxAge.None? || age <= t.maxAge.value
    ensures AgeOk(t, Some(age))
  {
  }

  /** A rule targeting ALL accepts every gender. */
  lemma AllAcceptsEveryGender(t: BioTarget, g: Gender)
    requires t.gender == Some(ALL)
    ensures GenderOk(t, Some(g))
  {
  }

  /** Occupation, education and language are compared ignoring case. */
  lemma TextIgnoresCase(ruleValue: Option<string>, a: string, b: string)
    requires EqualsIgnoreCase(a, b)
    ensures TextAgrees(ruleValue, Some(a)) <==> TextAgrees(ruleValue, Some(b))
  {
    if ruleValue.Some? {
      EqualsIgnoreCaseIsEquivalence(ruleValue.value, a, b);
      EqualsIgnoreCaseIsEquivalence(ruleValue.value, b, a);
    }
  }

  /** With non-empty interests and a category, the rule fails when no interest names the category. */
  lemma MissingInterestFails(t: BioTarget, age: Option<int>, gender: Option<Gender>, occupation: Option<string>,
                             educationLevel: Option<string>, language: Option<string>, interests: set<string>)
    requires interests != {} && t.interestCategory.Some?
    requires forall i :: i in interests ==> !EqualsIgnoreCase(i, t.interestCategory.value)
    ensures !Matches(t, age, gender, occupation, educationLevel, language, Some(interests))
  {
  }

  /** A null or empty interest set never causes a mismatch. */
  lemma NoInterestsNeverRejects(t: BioTarget, interests: Option<set<string>>)
    requires interests.None? || interests.value == {}
    ensures InterestOk(t, interests)
  {
  }

  /** `a` is `b` with possibly the value replaced by null. */
  predicate Relaxes<T(==)>(a: Option<T>, b: Option<T>) {
    a.None? || a == b
  }

  /** A rule whose optional fields are all null matches every query. */
  lemma UnconstrainedMatchesAll(isInclude: bool, age: Option<int>, gender: Option<Gender>, occupation: Option<string>,
                                educationLevel: Option<string>, language: Option<string>, interests: Option<set<string>>)
    ensures Matches(BioTarget(None, None, None, None, None, None, None, isInclude), age, gender, occupation, educationLevel, language, interests)
  {
  }

  /** Replacing query fields by null never turns a match into a non-match. */
  lemma NullQueryFieldKeepsMatch(t: BioTarget,
                                 age: Option<int>, gender: Option<Gender>, occupation: Option<string>,
                                 educationLevel: Option<string>, language: Option<string>, interests: Option<set<string>>,
                                 age': Option<int>, gender': Option<Gender>, occupation': Option<string>,
                                 educationLevel': Option<string>, language': Option<string>, interests': Option<set<string>>)
    requires Relaxes(age', age) && Relaxes(gender', gender) && Relaxes(occupation', occupation)
    requires Relaxes(educationLevel', educationLevel) && Relaxes(language', language) && Relaxes(interests', interests)
    requires Matches(t, age, gender, occupation, educationLevel, language, interests)
    ensures Matches(t, age', gender', occupation', educationLevel', language', interests')
  {
  }
}
