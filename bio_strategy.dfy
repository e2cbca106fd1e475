/** The bio targeting strategy over an untyped criteria map (application/service/targeting/BioTargetingStrategy.java). */
module BioTargetingStrategy {
  import opened Wrappers
  import Sequences
  import opened JavaValues
  import Genders
  import opened BioTargets
  import opened Advertisements

  /** `key()`. */
  const Key: string := "bio"

  datatype BioQuery = BioQuery(age: Option<int>, genderStr: Option<string>, occupation: Option<string>,
                               educationLevel: Option<string>, language: Option<string>, interests: set<string>)

  /** The interests entry: a Set is used as it is, a List is collected into a set, anything else (null included) is empty. */
  function NormaliseInterests(v: Value): (r: set<string>)
    ensures v.VSet? ==> r == v.elements
    ensures v.VList? ==> forall x :: x in r <==> x in v.items
    ensures !v.VSet? && !v.VList? ==> r == {}
  {
    match v
    case VSet(elements) => elements
    case VList(items) => set x | x in items
    case _ => {}
  }

  /** The casts at the top of `matches`; a null map throws on the first `get`. */
  function ReadCriteria(criteria: Option<Criteria>): Result<BioQuery, JavaException> {
    if criteria.None? then Err(NullPointerException)
    else
      var m := criteria.value;
      var age :- AsInteger(Get(m, "age"));
      var genderStr :- AsString(Get(m, "gender"));
      var occupation :- AsString(Get(m, "occupation"));
      var educationLevel :- AsString(Get(m, "educationLevel"));
      var language :- AsString(Get(m, "language"));
      Ok(BioQuery(age, genderStr, occupation, educationLevel, language, NormaliseInterests(Get(m, "interests"))))
  }

  /** `matches`: the criteria are read before the ad's rules are looked at. */
  function Matches(ad: Advertisement, criteria: Option<Criteria>): Result<bool, JavaException> {
    var q :- ReadCriteria(criteria);
    Ok(MatchesBioTargeting(ad, q.age, q.genderStr, q.occupation, q.educationLevel, q.language, Some(q.interests)))
  }

  /** `filter`. */
  function Filter(ads: Option<seq<Advertisement>>, criteria: Option<Criteria>): Result<seq<Advertisement>, JavaException> {
    if ads.None? || ads.value == [] then Ok([])
    else Sequences.FilterOrFail(ads.value, (ad: Advertisement) => Matches(ad, criteria))
  }

  /** Null or empty input filters to the empty list. */
  lemma FilterNoInput(ads: Option<seq<Advertisement>>, criteria: Option<Criteria>)
    requires ads.None? || ads.value == []
    ensures Filter(ads, criteria) == Ok([])
  {
  }

  /** With readable criteria, `filter` keeps exactly the ads the domain combinator accepts, in order. */
  lemma FilterExact(ads: seq<Advertisement>, criteria: Option<Criteria>)
    requires ReadCriteria(criteria).Ok?
    ensures var q := ReadCriteria(criteria).value;
      Filter(Some(ads), criteria)
      == Ok(Sequences.Filter(ads, (ad: Advertisement) =>
            MatchesBioTargeting(ad, q.age, q.genderStr, q.occupation, q.educationLevel, q.language, Some(q.interests))))
  {
    var q := ReadCriteria(criteria).value;
    Sequences.FilterOrFailTotal(ads, (ad: Advertisement) => Matches(ad, criteria),
      (ad: Advertisement) => MatchesBioTargeting(ad, q.age, q.genderStr, q.occupation, q.educationLevel, q.language, Some(q.interests)));
  }

  /** Unreadable criteria make a non-empty `filter` throw the cast's exception. */
  lemma FilterPropagatesCastFailure(ads: seq<Advertisement>, criteria: Option<Criteria>)
    requires ads != [] && ReadCriteria(criteria).Err?
    ensures Filter(Some(ads), criteria) == Err(ReadCriteria(criteria).error)
  {
  }

  /** Sets and lists with the same elements give the same interests, and an unusable entry gives none. */
  lemma InterestsNormalised(items: seq<string>, v: Value)
    requires !v.VSet? && !v.VList?
    ensures NormaliseInterests(VList(items)) == NormaliseInterests(VSet(set x | x in items))
    ensures NormaliseInterests(v) == {}
  {
  }

  /** An unrecognised gender text (such as "OTHER") matches exactly as if no gender had been given. */
  lemma UnknownGenderIsWildcard(ad: Advertisement, m: Criteria, genderStr: string)
    requires Genders.FromString(Some(genderStr)).None?
    ensures Matches(ad, Some(m[("gender") := VString(genderStr)])) == Matches(ad, Some(m[("gender") := VNull]))
  {
    var m1 := m[("gender") := VString(genderStr)];
    var m2 := m[("gender") := VNull];
    assert forall k :: k != "gender" ==> Get(m1, k) == Get(m2, k);
    match ReadCriteria(Some(m1))
    case Err(_) =>
    case Ok(q) =>
      Advertisements.UnknownGenderIsWildcard(ad, q.age, genderStr, q.occupation, q.educationLevel, q.language, Some(q.interests));
  }

  /** With readable criteria, an ad without bio rules never matches; otherwise include-and-no-exclude decides on the parsed gender. */
  lemma MatchesIff(ad: Advertisement, criteria: Option<Criteria>)
    requires ReadCriteria(criteria).Ok?
    ensures var q := ReadCriteria(criteria).value;
      var g := Genders.FromString(q.genderStr);
      Matches(ad, criteria).Ok?
      && (Matches(ad, criteria).value <==>
          ad.bioTargets.Some?
          && (exists t :: t in ad.bioTargets.value && t.isInclude && BioTargets.Matches(t, q.age, g, q.occupation, q.educationLevel, q.language, Some(q.interests)))
          && (forall t :: t in ad.bioTargets.value && !t.isInclude ==> !BioTargets.Matches(t, q.age, g, q.occupation, q.educationLevel, q.language, Some(q.interests))))
  {
  }
}
