/** The geo targeting strategy over an untyped criteria map (application/service/targeting/GeoTargetingStrategy.java). */
module GeoTargetingStrategy {
  import opened Wrappers
  import Sequences
  import opened JavaValues
  import opened GeoTargets
  import opened Advertisements

  /** `key()`. */
  const Key: string := "geo"

  datatype GeoQuery = GeoQuery(countryCode: Option<string>, region: Option<string>, city: Option<string>,
                               latitude: Option<real>, longitude: Option<real>)

  /** The casts at the top of `matches`; a null map throws on the first `get`. */
  function ReadCriteria(criteria: Option<Criteria>): Result<GeoQuery, JavaException> {
    if criteria.None? then Err(NullPointerException)
    else
      var m := criteria.value;
      var countryCode :- AsString(Get(m, "countryCode"));
      var region :- AsString(Get(m, "region"));
      var city :- AsString(Get(m, "city"));
      var latitude :- AsDouble(Get(m, "latitude"));
      var longitude :- AsDouble(Get(m, "longitude"));
      Ok(GeoQuery(countryCode, region, city, latitude, longitude))
  }

  /** `matches`: the criteria are read before the ad's rules are looked at, so a bad cast throws even for an ad without rules. */
  function Matches(ad: Advertisement, criteria: Option<Criteria>, distance: Distance): Result<bool, JavaException> {
    var q :- ReadCriteria(criteria);
    Ok(MatchesGeoTargeting(ad, q.countryCode, q.region, q.city, q.latitude, q.longitude, distance))
  }

  /** `filter`. */
  function Filter(ads: Option<seq<Advertisement>>, criteria: Option<Criteria>, distance: Distance)
    : Result<seq<Advertisement>, JavaException>
  {
    if ads.None? || ads.value == [] then Ok([])
    else Sequences.FilterOrFail(ads.value, (ad: Advertisement) => Matches(ad, criteria, distance))
  }

  /** Null or empty input filters to the empty list, even with unreadable criteria. */
  lemma FilterNoInput(ads: Option<seq<Advertisement>>, criteria: Option<Criteria>, distance: Distance)
    requires ads.None? || ads.value == []
    ensures Filter(ads, criteria, distance) == Ok([])
  {
  }

  /** With readable criteria, `filter` keeps exactly the ads the domain combinator accepts, in order. */
  lemma FilterExact(ads: seq<Advertisement>, criteria: Option<Criteria>, distance: Distance)
    requires ReadCriteria(criteria).Ok?
    ensures var q := ReadCriteria(criteria).value;
      Filter(Some(ads), criteria, distance)
      == Ok(Sequences.Filter(ads, (ad: Advertisement) =>
            MatchesGeoTargeting(ad, q.countryCode, q.region, q.city, q.latitude, q.longitude, distance)))
  {
    var q := ReadCriteria(criteria).value;
    Sequences.FilterOrFailTotal(ads, (ad: Advertisement) => Matches(ad, criteria, distance),
      (ad: Advertisement) => MatchesGeoTargeting(ad, q.countryCode, q.region, q.city, q.latitude, q.longitude, distance));
  }

  /** Unreadable criteria make a non-empty `filter` throw the cast's exception. */
  lemma FilterPropagatesCastFailure(ads: seq<Advertisement>, criteria: Option<Criteria>, distance: Distance)
    requires ads != [] && ReadCriteria(criteria).Err?
    ensures Filter(Some(ads), criteria, distance) == Err(ReadCriteria(criteria).error)
  {
  }

  /** Missing keys read as null, so an empty map asks for any location. */
  lemma MissingKeysAreNull(ad: Advertisement, distance: Distance)
    ensures Matches(ad, Some(map[]), distance) == Ok(MatchesGeoTargeting(ad, None, None, None, None, None, distance))
  {
  }

  /** A latitude given as an Integer fails the Double cast. */
  lemma IntegerLatitudeFails(ad: Advertisement, m: Criteria, distance: Distance, lat: int)
    requires forall k :: k in ["countryCode", "region", "city"] ==> IsStringOrNull(Get(m, k))
    requires Get(m, "latitude") == VInteger(lat)
    ensures Matches(ad, Some(m), distance) == Err(ClassCastException)
  {
    assert IsStringOrNull(Get(m, "countryCode")) && IsStringOrNull(Get(m, "region")) && IsStringOrNull(Get(m, "city"));
  }

  /** With readable criteria, an ad without geo rules never matches; otherwise include-and-no-exclude decides. */
  lemma MatchesIff(ad: Advertisement, criteria: Option<Criteria>, distance: Distance)
    requires ReadCriteria(criteria).Ok?
    ensures var q := ReadCriteria(criteria).value;
      Matches(ad, criteria, distance).Ok?
      && (Matches(ad, criteria, distance).value <==>
          ad.geoTargets.Some?
          && (exists t :: t in ad.geoTargets.value && t.isInclude && GeoTargets.Matches(t, q.countryCode, q.region, q.city, q.latitude, q.longitude, distance))
          && (forall t :: t in ad.geoTargets.value && !t.isInclude ==> !GeoTargets.Matches(t, q.countryCode, q.region, q.city, q.latitude, q.longitude, distance)))
  {
  }
}
