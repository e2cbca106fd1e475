/**
 * The records the Next.js client exchanges with the API (frontend/types/advertisement.ts),
 * and the JavaScript truthiness tests the components apply to them.
 *
 * An optional property (`x?: T`) is an `Option`; `undefined` and `null` are both `None`.
 * TypeScript numbers are modelled as integers. The property `include` is spelled `isInclude`,
 * because `include` is a keyword.
 */
module FrontendTypes {
  import opened Wrappers
  import opened JavaStrings

  datatype Source = STORAGE | YOUTUBE

  /** The client's gender enum; unlike the server's it has an OTHER value. */
  datatype Gender = MALE | FEMALE | OTHER | ALL

  /** The client's ten moods; the server's mood enum is a different list. */
  datatype Mood = HAPPY | SAD | EXCITED | RELAXED | STRESSED | BORED | FOCUSED | TIRED | ENERGETIC | NEUTRAL

  /** The string value of each `AdvertisementSource` member. */
  function SourceName(s: Source): string {
    match s
    case STORAGE => "STORAGE"
    case YOUTUBE => "YOUTUBE"
  }

  /** The string value of each `Gender` member. */
  function GenderName(g: Gender): string {
    match g
    case MALE => "MALE"
    case FEMALE => "FEMALE"
    case OTHER => "OTHER"
    case ALL => "ALL"
  }

  /** The string value of each `Mood` member: its own name. */
  function MoodName(m: Mood): string {
    match m
    case HAPPY => "HAPPY"
    case SAD => "SAD"
    case EXCITED => "EXCITED"
    case RELAXED => "RELAXED"
    case STRESSED => "STRESSED"
    case BORED => "BORED"
    case FOCUSED => "FOCUSED"
    case TIRED => "TIRED"
    case ENERGETIC => "ENERGETIC"
    case NEUTRAL => "NEUTRAL"
  }

  /** Distinct moods are sent as distinct, non-empty strings, so a mood is always truthy. */
  lemma MoodNamesDistinct(a: Mood, b: Mood)
    ensures MoodName(a) != ""
    ensures MoodName(a) == MoodName(b) <==> a == b
  {
  }

  datatype GeoTarget = GeoTarget(
    countryCode: string,
    region: Option<string>,
    city: Option<string>,
    latitude: Option<int>,
    longitude: Option<int>,
    radiusKm: Option<int>,
    isInclude: bool)

  datatype BioTarget = BioTarget(
    minAge: Option<int>,
    maxAge: Option<int>,
    gender: Option<Gender>,
    occupation: Option<string>,
    educationLevel: Option<string>,
    language: Option<string>,
    interestCategory: Option<string>,
    isInclude: bool)

  /** `mood` is declared required, but a record from a form or from the server may lack it. */
  datatype MoodTarget = MoodTarget(
    mood: Option<Mood>,
    intensityMin: Option<int>,
    intensityMax: Option<int>,
    timeOfDay: Option<string>,
    dayOfWeek: Option<string>,
    season: Option<string>,
    isInclude: bool)

  datatype YouTubeDetails = YouTubeDetails(
    videoId: Option<string>,
    videoTitle: Option<string>,
    thumbnailUrl: Option<string>)

  /** `source` is declared required, but the form validates it, so the model lets it be missing. */
  datatype Advertisement = Advertisement(
    id: Option<int>,
    title: string,
    description: Option<string>,
    content: string,
    source: Option<Source>,
    sourceIdentifier: string,
    createdAt: Option<string>,
    updatedAt: Option<string>,
    active: bool,
    targetUrl: Option<string>,
    clickable: Option<bool>,
    youtubeDetails: Option<YouTubeDetails>,
    geoTargets: Option<seq<GeoTarget>>,
    bioTargets: Option<seq<BioTarget>>,
    moodTargets: Option<seq<MoodTarget>>)

  datatype UserBioData = UserBioData(
    age: Option<int>,
    gender: Option<string>,
    occupation: Option<string>,
    educationLevel: Option<string>,
    language: Option<string>,
    interests: Option<seq<string>>)

  datatype TargetingParams = TargetingParams(
    countryCode: Option<string>,
    region: Option<string>,
    city: Option<string>,
    latitude: Option<int>,
    longitude: Option<int>,
    userBioData: Option<UserBioData>,
    mood: Option<Mood>,
    intensity: Option<int>,
    timeOfDay: Option<string>,
    dayOfWeek: Option<string>,
    season: Option<string>)

  /** An optional string is truthy when it is present and not empty. */
  predicate TruthyText(s: Option<string>) {
    s.Some? && s.value != ""
  }

  /** An optional number is truthy when it is present and not 0. */
  predicate TruthyNumber(n: Option<int>) {
    n.Some? && n.value != 0
  }

  /** An optional flag is truthy when it is present and true. */
  predicate TruthyFlag(b: Option<bool>) {
    b.Some? && b.value
  }

  /** An optional list is non-empty when it is present and has an element. */
  predicate HasElements<T>(s: Option<seq<T>>) {
    s.Some? && |s.value| > 0
  }

  /** `s || undefined` on a text field: the empty string becomes undefined, anything else is kept. */
  function OrUndefined(s: string): (r: Option<string>)
    ensures r.None? <==> s == ""
    ensures r.Some? ==> r.value == s
    ensures TruthyText(r) || r.None?
  {
    if s == "" then None else Some(s)
  }

  /** `String(n)` for an integral number. */
  function NumberText(n: int): string {
    LongToString(n)
  }

  /** Different numbers print differently, so a number in a URL path identifies it. */
  lemma NumberTextInjective(a: int, b: int)
    requires NumberText(a) == NumberText(b)
    ensures a == b
  {
    if a < 0 && b < 0 {
      assert NumberText(a)[1..] == NatToDecimal(-a) && NumberText(b)[1..] == NatToDecimal(-b);
      DecimalInjective(-a, -b);
    } else if a >= 0 && b >= 0 {
      DecimalInjective(a, b);
    }
  }

  /** Decimal notation is injective. */
  lemma {:induction false} DecimalInjective(a: nat, b: nat)
    requires NatToDecimal(a) == NatToDecimal(b)
    ensures a == b
  {
    var s := NatToDecimal(a);
    if a < 10 && b < 10 {
      assert s[0] == Digit(a) && s[0] == Digit(b);
    } else if a >= 10 && b >= 10 {
      assert NatToDecimal(a / 10) == s[..|s| - 1] == NatToDecimal(b / 10);
      assert Digit(a % 10) == s[|s| - 1] == Digit(b % 10);
      DecimalInjective(a / 10, b / 10);
    }
  }
}
