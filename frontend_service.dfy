/**
 * The client's API service (frontend/services/advertisementService.ts). Every call is
 * modelled by the request it sends; the transport and the response are not part of this
 * module, so a call's result is supplied to its callers as a parameter.
 */
module FrontendService {
  import opened Wrappers
  import opened JavaStrings
  import opened FrontendTypes
  import RateLimiting

  const API_URL := "/api/advertisements"
  const ID_REQUIRED := "Advertisement ID is required for update"

  /** A query-parameter value. */
  datatype ParamValue = Text(text: string) | Number(number: int)

  /** The query parameters of a request, by name. */
  type Params = map<string, ParamValue>

  /** A request body: an advertisement, or the (possibly undefined) bio data of a targeted search. */
  datatype Body = AdvertisementBody(ad: Advertisement) | BioBody(bio: Option<UserBioData>)

  /** An HTTP request as the client builds it. */
  datatype HttpRequest =
    | Get(url: string, params: Params)
    | Post(url: string, body: Body, params: Params)
    | Put(url: string, body: Body)
    | Delete(url: string)

  /** A text argument as a parameter value. */
  function AsText(v: Option<string>): Option<ParamValue> {
    if v.None? then None else Some(Text(v.value))
  }

  /** A number argument as a parameter value. */
  function AsNumber(v: Option<int>): Option<ParamValue> {
    if v.None? then None else Some(Number(v.value))
  }

  /** A mood as it travels at run time: the enum's string. */
  function MoodText(v: Option<Mood>): Option<string> {
    if v.None? then None else Some(MoodName(v.value))
  }

  /** Adds one entry of a parameters object; axios leaves an undefined value out of the query. */
  function With(params: Params, name: string, v: Option<ParamValue>): (r: Params)
    ensures v.None? ==> r == params
    ensures v.Some? ==> r == params[name := v.value]
  {
    if v.None? then params else params[name := v.value]
  }

  /** The query carries parameter `name` exactly when the argument `v` is defined, with its value. */
  predicate Carries(params: Params, name: string, v: Option<ParamValue>) {
    (v.None? ==> name !in params) && (v.Some? ==> name in params && params[name] == v.value)
  }

  /** The URL of one advertisement. */
  function AdvertisementUrl(id: int): (url: string)
    ensures StartsWith(url, API_URL + "/") && url[|API_URL| + 1..] == NumberText(id)
  {
    API_URL + "/" + NumberText(id)
  }

  /** One id addresses one resource: reading, updating and deleting advertisement `id` use the same URL, and different ids different URLs. */
  lemma AdvertisementUrlInjective(a: int, b: int, ad: Advertisement)
    ensures AdvertisementUrl(a) == AdvertisementUrl(b) ==> a == b
    ensures GetAdvertisementById(a).url == DeleteAdvertisement(a).url == AdvertisementUrl(a)
    ensures ad.id == Some(a) && a != 0 ==> UpdateAdvertisement(ad).value.url == AdvertisementUrl(a)
  {
    if AdvertisementUrl(a) == AdvertisementUrl(b) {
      NumberTextInjective(a, b);
    }
  }

  /** Every URL the service builds lies under the API prefix, which the server's rate limiter covers. */
  lemma ServiceUrlsAreRateLimited(url: string)
    requires StartsWith(url, API_URL)
    ensures !RateLimiting.ShouldNotFilter(Some(url))
  {
    assert url[..5] == API_URL[..5];
  }

  /** `getAllAdvertisements`: a plain GET of the collection. */
  function GetAllAdvertisements(): (r: HttpRequest)
    ensures r.Get? && r.url == API_URL && r.params == map[]
  {
    Get(API_URL, map[])
  }

  /** `getActiveAdvertisements`: a plain GET of the collection's `active` listing. */
  function GetActiveAdvertisements(): (r: HttpRequest)
    ensures r.Get? && r.url == API_URL + "/active" && r.params == map[]
  {
    Get(API_URL + "/active", map[])
  }

  /** `getAdvertisementById`: a plain GET of the advertisement's own URL. */
  function GetAdvertisementById(id: int): (r: HttpRequest)
    ensures r.Get? && r.url == AdvertisementUrl(id) && r.params == map[]
  {
    Get(AdvertisementUrl(id), map[])
  }

  /** `createAdvertisement`: the record is posted, unchanged, to the collection. */
  function CreateAdvertisement(ad: Advertisement): (r: HttpRequest)
    ensures r.Post? && r.url == API_URL && r.body == AdvertisementBody(ad) && r.params == map[]
  {
    Post(API_URL, AdvertisementBody(ad), map[])
  }

  /**
   * `updateAdvertisement`: a record with a falsy id (missing or 0) is refused before any
   * request is made; otherwise the record is put to its own URL.
   */
  function UpdateAdvertisement(ad: Advertisement): (r: Result<HttpRequest, string>)
    ensures r.Err? <==> !TruthyNumber(ad.id)
    ensures r.Err? ==> r.error == ID_REQUIRED
    ensures r.Ok? ==> r.value == Put(AdvertisementUrl(ad.id.value), AdvertisementBody(ad))
  {
    if !TruthyNumber(ad.id) then Err(ID_REQUIRED)
    else Ok(Put(AdvertisementUrl(ad.id.value), AdvertisementBody(ad)))
  }

  /** `deleteAdvertisement`: a DELETE of the advertisement's own URL. */
  function DeleteAdvertisement(id: int): (r: HttpRequest)
    ensures r.Delete? && r.url == AdvertisementUrl(id)
  {
    Delete(AdvertisementUrl(id))
  }

  /** `getAdvertisementsBySource`: a plain GET of the listing named after the source. */
  function GetAdvertisementsBySource(source: Source): (r: HttpRequest)
    ensures r.Get? && r.url == API_URL + "/source/" + SourceName(source) && r.params == map[]
  {
    Get(API_URL + "/source/" + SourceName(source), map[])
  }

  /** `getAdvertisementsByTitle`: a GET of the search URL whose only parameter is the text, as `title`. */
  function GetAdvertisementsByTitle(title: string): (r: HttpRequest)
    ensures r.Get? && r.url == API_URL + "/search" && r.params == map["title" := Text(title)]
  {
    Get(API_URL + "/search", map["title" := Text(title)])
  }

  /** A printed number opens with a digit or a minus sign, never with a letter. */
  lemma NumberTextOpensWithDigitOrSign(n: int)
    ensures NumberText(n) != [] && (NumberText(n)[0] == '-' || '0' <= NumberText(n)[0] <= '9')
  {
    if n >= 0 {
      assert NumberText(n) == NatToDecimal(n);
    }
  }

  /**
   * The read requests address different resources: the collection, the active listing, the
   * search, each source's listing and each advertisement's URL are pairwise different, so
   * the server can tell the `/active`, `/search` and `/source/...` routes from an id.
   */
  lemma ReadRequestsAreDistinct(id: int, s: Source, t: Source, title: string)
    ensures GetAllAdvertisements().url != GetActiveAdvertisements().url
    ensures GetAllAdvertisements().url != GetAdvertisementsByTitle(title).url
    ensures GetActiveAdvertisements().url != GetAdvertisementsByTitle(title).url
    ensures GetAdvertisementsBySource(s).url !in {GetAllAdvertisements().url, GetActiveAdvertisements().url,
                                                  GetAdvertisementsByTitle(title).url}
    ensures GetAdvertisementsBySource(s).url == GetAdvertisementsBySource(t).url <==> s == t
    ensures GetAdvertisementById(id).url !in {GetAllAdvertisements().url, GetActiveAdvertisements().url,
                                              GetAdvertisementsByTitle(title).url, GetAdvertisementsBySource(s).url}
  {
    var n := |API_URL| + 1;
    NumberTextOpensWithDigitOrSign(id);
    assert AdvertisementUrl(id)[n] == NumberText(id)[0];
    assert (API_URL + "/active")[n] == 'a';
    assert (API_URL + "/search")[n] == 's';
    assert (API_URL + "/source/" + SourceName(s))[n] == 's';
    assert (API_URL + "/source/" + SourceName(s))[n + 1] == 'o';
    assert (API_URL + "/search")[n + 1] == 'e';
    if GetAdvertisementsBySource(s).url == GetAdvertisementsBySource(t).url {
      assert (API_URL + "/source/" + SourceName(s))[n + 7] == SourceName(s)[0];
      assert (API_URL + "/source/" + SourceName(t))[n + 7] == SourceName(t)[0];
    }
  }

  const TARGETED_URL := API_URL + "/targeted"
  const GEO_TARGETED_URL := API_URL + "/geo-targeted"
  const MOOD_TARGETED_URL := API_URL + "/mood-targeted"

  /** `getTargetedAdvertisements`: the bio data is the body; country and mood are query parameters. */
  function GetTargetedAdvertisements(countryCode: Option<string>, userBioData: Option<UserBioData>, mood: Option<string>): (r: HttpRequest)
    ensures r.Post? && r.url == TARGETED_URL && r.body == BioBody(userBioData)
    ensures r.params.Keys <= {"countryCode", "mood"}
    ensures Carries(r.params, "countryCode", AsText(countryCode)) && Carries(r.params, "mood", AsText(mood))
  {
    Post(TARGETED_URL, BioBody(userBioData), With(With(map[], "countryCode", AsText(countryCode)), "mood", AsText(mood)))
  }

  /** `getGeoTargetedAdvertisements`: each location argument is sent when it is defined. */
  function GetGeoTargetedAdvertisements(countryCode: Option<string>, region: Option<string>, city: Option<string>,
                                        latitude: Option<int>, longitude: Option<int>): (r: HttpRequest)
    ensures r.Get? && r.url == GEO_TARGETED_URL
    ensures r.params.Keys <= {"countryCode", "region", "city", "latitude", "longitude"}
    ensures Carries(r.params, "countryCode", AsText(countryCode)) && Carries(r.params, "region", AsText(region))
    ensures Carries(r.params, "city", AsText(city))
    ensures Carries(r.params, "latitude", AsNumber(latitude)) && Carries(r.params, "longitude", AsNumber(longitude))
  {
    var p := With(map[], "countryCode", AsText(countryCode));
    var p := With(p, "region", AsText(region));
    var p := With(p, "city", AsText(city));
    var p := With(p, "latitude", AsNumber(latitude));
    Get(GEO_TARGETED_URL, With(p, "longitude", AsNumber(longitude)))
  }

  /** `getMoodTargetedAdvertisements`: the mood (a string at run time) and each defined argument are sent. */
  function GetMoodTargetedAdvertisements(mood: Option<string>, intensity: Option<int>, timeOfDay: Option<string>,
                                         dayOfWeek: Option<string>, season: Option<string>): (r: HttpRequest)
    ensures r.Get? && r.url == MOOD_TARGETED_URL
    ensures r.params.Keys <= {"mood", "intensity", "timeOfDay", "dayOfWeek", "season"}
    ensures Carries(r.params, "mood", AsText(mood)) && Carries(r.params, "intensity", AsNumber(intensity))
    ensures Carries(r.params, "timeOfDay", AsText(timeOfDay)) && Carries(r.params, "dayOfWeek", AsText(dayOfWeek))
    ensures Carries(r.params, "season", AsText(season))
  {
    var p := With(map[], "mood", AsText(mood));
    var p := With(p, "intensity", AsNumber(intensity));
    var p := With(p, "timeOfDay", AsText(timeOfDay));
    var p := With(p, "dayOfWeek", AsText(dayOfWeek));
    Get(MOOD_TARGETED_URL, With(p, "season", AsText(season)))
  }

  /**
   * `getAdvertisementsWithTargeting`: bio data selects the combined endpoint (which also
   * takes the country and the mood); failing that a mood selects the mood endpoint; otherwise
   * the geo endpoint is used.
   */
  function GetAdvertisementsWithTargeting(params: TargetingParams): (r: HttpRequest)
    ensures r.Post? <==> params.userBioData.Some?
    ensures r.Post? ==> r == GetTargetedAdvertisements(params.countryCode, params.userBioData, MoodText(params.mood))
    ensures r.Get? && r.url == MOOD_TARGETED_URL <==> params.userBioData.None? && params.mood.Some?
    ensures params.userBioData.None? && params.mood.Some? ==>
      r == GetMoodTargetedAdvertisements(MoodText(params.mood), params.intensity, params.timeOfDay, params.dayOfWeek, params.season)
    ensures r.Get? && r.url == GEO_TARGETED_URL <==> params.userBioData.None? && params.mood.None?
    ensures params.userBioData.None? && params.mood.None? ==>
      r == GetGeoTargetedAdvertisements(params.countryCode, params.region, params.city, params.latitude, params.longitude)
  {
    if params.userBioData.Some? then
      GetTargetedAdvertisements(params.countryCode, params.userBioData, MoodText(params.mood))
    else if params.mood.Some? then
      GetMoodTargetedAdvertisements(MoodText(params.mood), params.intensity, params.timeOfDay, params.dayOfWeek, params.season)
    else
      GetGeoTargetedAdvertisements(params.countryCode, params.region, params.city, params.latitude, params.longitude)
  }

  /** Once bio data is given, the location details and the mood context other than the mood itself are not sent. */
  lemma CombinedSearchDropsDetails(params: TargetingParams)
    requires params.userBioData.Some?
    ensures var r := GetAdvertisementsWithTargeting(params);
      "region" !in r.params && "city" !in r.params && "latitude" !in r.params && "longitude" !in r.params
      && "intensity" !in r.params && "timeOfDay" !in r.params && "dayOfWeek" !in r.params && "season" !in r.params
  {
  }

  /** Every request the service builds is addressed under the API, so the server's rate limiter sees it. */
  lemma EveryRequestIsRateLimited(params: TargetingParams, ad: Advertisement, id: int, source: Source, title: string)
    ensures !RateLimiting.ShouldNotFilter(Some(GetAdvertisementsWithTargeting(params).url))
    ensures !RateLimiting.ShouldNotFilter(Some(CreateAdvertisement(ad).url))
    ensures UpdateAdvertisement(ad).Ok? ==> !RateLimiting.ShouldNotFilter(Some(UpdateAdvertisement(ad).value.url))
    ensures !RateLimiting.ShouldNotFilter(Some(DeleteAdvertisement(id).url))
    ensures !RateLimiting.ShouldNotFilter(Some(GetAdvertisementById(id).url))
    ensures !RateLimiting.ShouldNotFilter(Some(GetAdvertisementsBySource(source).url))
    ensures !RateLimiting.ShouldNotFilter(Some(GetAdvertisementsByTitle(title).url))
    ensures !RateLimiting.ShouldNotFilter(Some(GetAllAdvertisements().url))
    ensures !RateLimiting.ShouldNotFilter(Some(GetActiveAdvertisements().url))
  {
    var url := GetAdvertisementsWithTargeting(params).url;
    assert StartsWith(url, API_URL);
    ServiceUrlsAreRateLimited(url);
    ServiceUrlsAreRateLimited(API_URL);
    if UpdateAdvertisement(ad).Ok? {
      ServiceUrlsAreRateLimited(AdvertisementUrl(ad.id.value));
    }
    ServiceUrlsAreRateLimited(AdvertisementUrl(id));
    ServiceUrlsAreRateLimited(API_URL + "/source/" + SourceName(source));
    ServiceUrlsAreRateLimited(API_URL + "/search");
    ServiceUrlsAreRateLimited(API_URL);
    ServiceUrlsAreRateLimited(API_URL + "/active");
  }
}
