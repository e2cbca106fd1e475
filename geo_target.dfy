/** A geolocation targeting rule and its per-rule match (domain/model/GeoTarget.java). */
module GeoTargets {
  import opened Wrappers
  import opened JavaStrings

  /**
   * The great-circle distance in kilometres between (lat1, lon1) and (lat2, lon2).
   * The source computes it with the Haversine formula in floating point; the model
   * takes it as a parameter and assumes nothing about it.
   */
  type Distance = (real, real, real, real) -> real

  datatype GeoTarget = GeoTarget(
    countryCode: Option<string>,
    region: Option<string>,
    city: Option<string>,
    latitude: Option<real>,
    longitude: Option<real>,
    radiusKm: Option<int>,
    isInclude: bool)  // the source field `include`: true for an inclusion rule, false for an exclusion rule

  /** A string criterion imposes nothing when either side is null; otherwise the two must agree up to case. */
  predicate TextAgrees(ruleValue: Option<string>, queryValue: Option<string>) {
    queryValue.None? || ruleValue.None? || EqualsIgnoreCase(ruleValue.value, queryValue.value)
  }

  /** The proximity check runs only when all five coordinates are present. */
  predicate ProximityApplies(t: GeoTarget, latitude: Option<real>, longitude: Option<real>) {
    latitude.Some? && longitude.Some? && t.latitude.Some? && t.longitude.Some? && t.radiusKm.Some?
  }

  /** `GeoTarget.matches`: a chain of early rejections, accepting when none fires. */
  function Matches(t: GeoTarget, countryCode: Option<string>, region: Option<string>, city: Option<string>,
                   latitude: Option<real>, longitude: Option<real>, distance: Distance): bool
  {
    if countryCode.Some? && t.countryCode.Some? && !EqualsIgnoreCase(t.countryCode.value, countryCode.value) then false
    else if region.Some? && t.region.Some? && !EqualsIgnoreCase(t.region.value, region.value) then false
    else if city.Some? && t.city.Some? && !EqualsIgnoreCase(t.city.value, city.value) then false
    else if ProximityApplies(t, latitude, longitude)
      && distance(latitude.value, longitude.value, t.latitude.value, t.longitude.value) > t.radiusKm.value as real
    then false
    else true
  }

  /** The rule matches exactly when each text criterion agrees and, where proximity applies, the point lies within the radius. */
  lemma MatchesIff(t: GeoTarget, countryCode: Option<string>, region: Option<string>, city: Option<string>,
                   latitude: Option<real>, longitude: Option<real>, distance: Distance)
    ensures Matches(t, countryCode, region, city, latitude, longitude, distance) <==>
      TextAgrees(t.countryCode, countryCode) && TextAgrees(t.region, region) && TextAgrees(t.city, city)
      && (ProximityApplies(t, latitude, longitude) ==>
            distance(latitude.value, longitude.value, t.latitude.value, t.longitude.value) <= t.radiusKm.value as real)
  {
  }

  /** Country, region and city are compared ignoring case: re-spelling a query value in another case changes nothing. */
  lemma MatchesIgnoresCase(t: GeoTarget, c1: string, c2: string, r1: string, r2: string, y1: string, y2: string,
                           latitude: Option<real>, longitude: Option<real>, distance: Distance)
    requires EqualsIgnoreCase(c1, c2) && EqualsIgnoreCase(r1, r2) && EqualsIgnoreCase(y1, y2)
    ensures Matches(t, Some(c1), Some(r1), Some(y1), latitude, longitude, distance)
        == Matches(t, Some(c2), Some(r2), Some(y2), latitude, longitude, distance)
  {
    forall a: string | a in [t.countryCode.GetOr(""), t.region.GetOr(""), t.city.GetOr("")]
      ensures (EqualsIgnoreCase(a, c1) <==> EqualsIgnoreCase(a, c2))
           && (EqualsIgnoreCase(a, r1) <==> EqualsIgnoreCase(a, r2))
           && (EqualsIgnoreCase(a, y1) <==> EqualsIgnoreCase(a, y2))
    {
      EqualsIgnoreCaseIsEquivalence(a, c1, c2);
      EqualsIgnoreCaseIsEquivalence(a, c2, c1);
      EqualsIgnoreCaseIsEquivalence(a, r1, r2);
      EqualsIgnoreCaseIsEquivalence(a, r2, r1);
      EqualsIgnoreCaseIsEquivalence(a, y1, y2);
      EqualsIgnoreCaseIsEquivalence(a, y2, y1);
    }
  }

  /** When proximity does not apply the distance is never consulted. */
  lemma ProximityOnlyWhenAllPresent(t: GeoTarget, countryCode: Option<string>, region: Option<string>, city: Option<string>,
                                    latitude: Option<real>, longitude: Option<real>, d1: Distance, d2: Distance)
    requires !ProximityApplies(t, latitude, longitude)
    ensures Matches(t, countryCode, region, city, latitude, longitude, d1)
         == Matches(t, countryCode, region, city, latitude, longitude, d2)
  {
  }

  /** Once the text criteria pass and proximity applies, the rule fails exactly when the distance exceeds the radius. */
  lemma ProximityDecides(t: GeoTarget, countryCode: Option<string>, region: Option<string>, city: Option<string>,
                         latitude: Option<real>, longitude: Option<real>, distance: Distance)
    requires TextAgrees(t.countryCode, countryCode) && TextAgrees(t.region, region) && TextAgrees(t.city, city)
    requires ProximityApplies(t, latitude, longitude)
    ensures !Matches(t, countryCode, region, city, latitude, longitude, distance) <==>
      distance(latitude.value, longitude.value, t.latitude.value, t.longitude.value) > t.radiusKm.value as real
  {
  }

  /** A rule whose optional fields are all null matches every query. */
  lemma UnconstrainedMatchesAll(isInclude: bool, countryCode: Option<string>, region: Option<string>, city: Option<string>,
                                latitude: Option<real>, longitude: Option<real>, distance: Distance)
    ensures Matches(GeoTarget(None, None, None, None, None, None, isInclude), countryCode, region, city, latitude, longitude, distance)
  {
  }

  /** `a` is `b` with possibly some fields replaced by null. */
  predicate Relaxes<T(==)>(a: Option<T>, b: Option<T>) {
    a.None? || a == b
  }

  /** Replacing query fields by null never turns a match into a non-match. */
  lemma NullQueryFieldKeepsMatch(t: GeoTarget,
                                 countryCode: Option<string>, region: Option<string>, city: Option<string>,
                                 latitude: Option<real>, longitude: Option<real>,
                                 countryCode': Option<string>, region': Option<string>, city': Option<string>,
                                 latitude': Option<real>, longitude': Option<real>, distance: Distance)
    requires Relaxes(countryCode', countryCode) && Relaxes(region', region) && Relaxes(city', city)
    requires Relaxes(latitude', latitude) && Relaxes(longitude', longitude)
    requires Matches(t, countryCode, region, city, latitude, longitude, distance)
    ensures Matches(t, countryCode', region', city', latitude', longitude', distance)
  {
  }
}
