/**
 * The targeting search page (frontend/app/targeting/page.tsx): its text fields, the way each
 * of the three searches turns them into request arguments, and the loading, error, results
 * and "search performed" state the handlers set.
 *
 * A handler's request is returned; the reply it awaits is a parameter. The page parses its
 * number fields with `parseFloat`/`parseInt`; that parse is the parameter `parseNumber`.
 */
module TargetingPages {
  import opened Wrappers
  import opened JavaStrings
  import opened Sequences
  import opened FrontendTypes
  import opened FrontendService

  const FETCH_FAILED := "Failed to fetch advertisements. Please try again later."
  const MOOD_REQUIRED_FOR_SEARCH := "Mood is required for mood-based targeting"

  /** `s.split(sep)`: the pieces between the separators, in order; the empty string gives one empty piece. */
  function Split(s: string, sep: char): (r: seq<string>)
    ensures |r| >= 1
    decreases |s|
  {
    var k := IndexOf(s, sep);
    if k < 0 then [s] else [s[..k]] + Split(s[k + 1..], sep)
  }

  /** No piece of a split holds the separator. */
  lemma {:induction false} SplitPiecesLackSeparator(s: string, sep: char)
    ensures forall i :: 0 <= i < |Split(s, sep)| ==> sep !in Split(s, sep)[i]
    decreases |s|
  {
    var k := IndexOf(s, sep);
    if k >= 0 {
      SplitPiecesLackSeparator(s[k + 1..], sep);
      assert Split(s, sep) == [s[..k]] + Split(s[k + 1..], sep);
    }
  }

  /** `pieces.join(sep)`. */
  function Join(pieces: seq<string>, sep: char): string
    requires |pieces| >= 1
  {
    if |pieces| == 1 then pieces[0] else pieces[0] + [sep] + Join(pieces[1..], sep)
  }

  /** Joining the pieces of a split gives the string back. */
  lemma {:induction false} JoinSplit(s: string, sep: char)
    ensures Join(Split(s, sep), sep) == s
    decreases |s|
  {
    var k := IndexOf(s, sep);
    if k >= 0 {
      JoinSplit(s[k + 1..], sep);
      JoinCons(s[..k], Split(s[k + 1..], sep), sep);
      assert s == s[..k] + [sep] + s[k + 1..];
    }
  }

  /** Joining a piece in front of other pieces puts a separator between them. */
  lemma JoinCons(p: string, rest: seq<string>, sep: char)
    requires |rest| >= 1
    ensures Join([p] + rest, sep) == p + [sep] + Join(rest, sep)
  {
    assert ([p] + rest)[1..] == rest;
  }

  /** Splitting a join of separator-free pieces gives the pieces back. */
  lemma {:induction false} SplitJoin(pieces: seq<string>, sep: char)
    requires |pieces| >= 1
    requires forall i :: 0 <= i < |pieces| ==> sep !in pieces[i]
    ensures Split(Join(pieces, sep), sep) == pieces
  {
    if |pieces| > 1 {
      var s := Join(pieces, sep);
      var rest := Join(pieces[1..], sep);
      assert s == pieces[0] + [sep] + rest;
      assert s[|pieces[0]|] == sep;
      var k := IndexOf(s, sep);
      assert s[..|pieces[0]|] == pieces[0];
      assert k == |pieces[0]|;
      assert s[..k] == pieces[0] && s[k + 1..] == rest;
      SplitJoin(pieces[1..], sep);
    }
  }

  /** A character absent from a string is absent from its trimmed form. */
  lemma TrimKeepsOut(s: string, c: char)
    requires c !in s
    ensures c !in JsTrim(s)
  {
    var t := TrimStart(s, IsJsWhitespace);
    TrimStartIsSuffix(s, IsJsWhitespace);
    TrimEndIsPrefix(t, IsJsWhitespace);
  }

  /**
   * `.map(i => i.trim()).filter(i => i)`: each piece trimmed, and the pieces that trim to
   * nothing dropped, in order.
   */
  function TrimmedNonEmpty(pieces: seq<string>): (r: seq<string>)
    ensures |r| <= |pieces|
  {
    if pieces == [] then []
    else
      var t := JsTrim(pieces[0]);
      (if t != "" then [t] else []) + TrimmedNonEmpty(pieces[1..])
  }

  /** The interests field as a list: split on commas, each piece trimmed, empty pieces dropped. */
  function InterestsList(interests: string): seq<string> {
    TrimmedNonEmpty(Split(interests, ','))
  }

  /** Trimming pieces that lack a character, and dropping the empty ones, leaves non-empty pieces without it. */
  lemma {:induction false} TrimmedNonEmptyIsClean(pieces: seq<string>, c: char)
    requires forall i :: 0 <= i < |pieces| ==> c !in pieces[i]
    ensures forall i :: 0 <= i < |TrimmedNonEmpty(pieces)| ==>
      TrimmedNonEmpty(pieces)[i] != "" && c !in TrimmedNonEmpty(pieces)[i]
  {
    if pieces != [] {
      TrimmedNonEmptyIsClean(pieces[1..], c);
      TrimKeepsOut(pieces[0], c);
    }
  }

  /** Every interest sent is non-empty and holds no comma. */
  lemma InterestsAreClean(interests: string)
    ensures forall i :: 0 <= i < |InterestsList(interests)| ==>
      InterestsList(interests)[i] != "" && ',' !in InterestsList(interests)[i]
  {
    SplitPiecesLackSeparator(interests, ',');
    TrimmedNonEmptyIsClean(Split(interests, ','), ',');
  }

  /** Pieces that are non-empty and already trimmed pass through unchanged. */
  lemma {:induction false} TrimmedNonEmptyKeepsClean(xs: seq<string>)
    requires forall i :: 0 <= i < |xs| ==> xs[i] != "" && JsTrim(xs[i]) == xs[i]
    ensures TrimmedNonEmpty(xs) == xs
  {
    if xs != [] {
      TrimmedNonEmptyKeepsClean(xs[1..]);
    }
  }

  /** Entries that are non-empty, comma-free and already trimmed come back from their comma-joined form unchanged. */
  lemma InterestsOfJoined(xs: seq<string>)
    requires |xs| >= 1
    requires forall i :: 0 <= i < |xs| ==> xs[i] != "" && ',' !in xs[i] && JsTrim(xs[i]) == xs[i]
    ensures InterestsList(Join(xs, ',')) == xs
  {
    SplitJoin(xs, ',');
    TrimmedNonEmptyKeepsClean(xs);
  }

  /** Pieces made only of blanks all trim to nothing. */
  lemma {:induction false} TrimmedNonEmptyDropsBlank(pieces: seq<string>)
    requires forall i, k :: 0 <= i < |pieces| && 0 <= k < |pieces[i]| ==> pieces[i][k] == ' '
    ensures TrimmedNonEmpty(pieces) == []
  {
    if pieces != [] {
      TrimmedNonEmptyDropsBlank(pieces[1..]);
      TrimWithEmptyIff(pieces[0], IsJsWhitespace);
    }
  }

  /** A field holding only blanks and commas yields no interest, and then none is sent. */
  lemma BlankInterestsGiveNone(interests: string)
    requires forall i :: 0 <= i < |interests| ==> interests[i] == ',' || interests[i] == ' '
    ensures InterestsList(interests) == []
  {
    var pieces := Split(interests, ',');
    JoinSplit(interests, ',');
    SplitPiecesLackSeparator(interests, ',');
    forall i, k | 0 <= i < |pieces| && 0 <= k < |pieces[i]| ensures pieces[i][k] == ' ' {
      JoinedPieceIsPart(pieces, i);
      assert pieces[i][k] in pieces[i];
    }
    TrimmedNonEmptyDropsBlank(pieces);
  }

  /** Every character of a piece occurs in the joined string. */
  lemma {:induction false} JoinedPieceIsPart(pieces: seq<string>, i: nat)
    requires |pieces| >= 1 && i < |pieces|
    ensures forall k :: 0 <= k < |pieces[i]| ==> pieces[i][k] in Join(pieces, ',')
  {
    if i > 0 {
      JoinedPieceIsPart(pieces[1..], i - 1);
      assert forall k :: 0 <= k < |pieces[i]| ==> pieces[i][k] in Join(pieces[1..], ',');
    }
  }

  /** `list.length > 0 ? list : undefined`. */
  function NonEmptyOrUndefined(list: seq<string>): (r: Option<seq<string>>)
    ensures r.None? <==> list == []
    ensures r.Some? ==> r.value == list
  {
    if list == [] then None else Some(list)
  }

  /** `field ? parse(field) : undefined` for a number field. */
  function NumberOrUndefined(field: string, parseNumber: string -> int): (r: Option<int>)
    ensures r.None? <==> field == ""
  {
    if field == "" then None else Some(parseNumber(field))
  }

  /** The text of the page's sixteen input fields. */
  datatype SearchInputs = SearchInputs(
    countryCode: string, region: string, city: string, latitude: string, longitude: string,
    age: string, gender: string, occupation: string, educationLevel: string, language: string, interests: string,
    mood: string, intensity: string, timeOfDay: string, dayOfWeek: string, season: string)

  /** The geo search's request. */
  function GeoSearchRequest(inputs: SearchInputs, parseNumber: string -> int): HttpRequest {
    GetGeoTargetedAdvertisements(OrUndefined(inputs.countryCode), OrUndefined(inputs.region), OrUndefined(inputs.city),
                                 NumberOrUndefined(inputs.latitude, parseNumber),
                                 NumberOrUndefined(inputs.longitude, parseNumber))
  }

  /** The bio data the bio search was meant to send. */
  function BioSearchData(inputs: SearchInputs, parseNumber: string -> int): UserBioData {
    UserBioData(NumberOrUndefined(inputs.age, parseNumber), OrUndefined(inputs.gender), OrUndefined(inputs.occupation),
                OrUndefined(inputs.educationLevel), OrUndefined(inputs.language),
                NonEmptyOrUndefined(InterestsList(inputs.interests)))
  }

  /** The mood search's request, made only when a mood is chosen. */
  function MoodSearchRequest(inputs: SearchInputs, parseNumber: string -> int): HttpRequest {
    GetMoodTargetedAdvertisements(Some(inputs.mood), NumberOrUndefined(inputs.intensity, parseNumber),
                                  OrUndefined(inputs.timeOfDay), OrUndefined(inputs.dayOfWeek), OrUndefined(inputs.season))
  }

  /** A text field is sent exactly when it is not empty, and then as typed. */
  predicate SendsField(params: Params, name: string, field: string) {
    Carries(params, name, if field == "" then None else Some(Text(field)))
  }

  /** The geo search sends each filled-in location field and nothing else; empty ones are left out. */
  lemma GeoSearchSendsFilledFields(inputs: SearchInputs, parseNumber: string -> int)
    ensures var r := GeoSearchRequest(inputs, parseNumber);
      r.url == GEO_TARGETED_URL
      && SendsField(r.params, "countryCode", inputs.countryCode) && SendsField(r.params, "region", inputs.region)
      && SendsField(r.params, "city", inputs.city)
      && ("latitude" in r.params <==> inputs.latitude != "") && ("longitude" in r.params <==> inputs.longitude != "")
      && r.params.Keys <= {"countryCode", "region", "city", "latitude", "longitude"}
  {
  }

  /** The mood search sends the mood and each filled-in context field, and nothing else. */
  lemma MoodSearchSendsFilledFields(inputs: SearchInputs, parseNumber: string -> int)
    requires inputs.mood != ""
    ensures var r := MoodSearchRequest(inputs, parseNumber);
      r.url == MOOD_TARGETED_URL && SendsField(r.params, "mood", inputs.mood)
      && ("intensity" in r.params <==> inputs.intensity != "")
      && SendsField(r.params, "timeOfDay", inputs.timeOfDay) && SendsField(r.params, "dayOfWeek", inputs.dayOfWeek)
      && SendsField(r.params, "season", inputs.season)
      && r.params.Keys <= {"mood", "intensity", "timeOfDay", "dayOfWeek", "season"}
  {
  }

  /** The intended bio search posts the typed bio data, with the interests as a list, and no query parameter. */
  lemma BioSearchSendsBioData(inputs: SearchInputs, parseNumber: string -> int)
    ensures var r := GetTargetedAdvertisements(None, Some(BioSearchData(inputs, parseNumber)), None);
      r.Post? && r.url == TARGETED_URL && r.params == map[]
      && r.body.bio.Some? && var bio := r.body.bio.value;
      (bio.occupation.None? <==> inputs.occupation == "") && (bio.age.None? <==> inputs.age == "")
      && (bio.interests.None? <==> InterestsList(inputs.interests) == [])
      && (bio.interests.Some? ==> bio.interests.value == InterestsList(inputs.interests))
  {
  }

  /** The page's state. */
  class TargetingPage {
    var loading: bool
    var error: Option<string>
    var advertisements: seq<Advertisement>
    var searchPerformed: bool

    var countryCode: string
    var region: string
    var city: string
    var latitude: string
    var longitude: string
    var age: string
    var gender: string
    var occupation: string
    var educationLevel: string
    var language: string
    var interests: string
    var mood: string
    var intensity: string
    var timeOfDay: string
    var dayOfWeek: string
    var season: string

    /** The input fields' current text. */
    function Inputs(): SearchInputs
      reads this
    {
      SearchInputs(countryCode, region, city, latitude, longitude, age, gender, occupation, educationLevel, language,
                   interests, mood, intensity, timeOfDay, dayOfWeek, season)
    }

    /** The initial state: empty fields, no results, no search yet. */
    constructor ()
      ensures Inputs() == SearchInputs("", "", "", "", "", "", "", "", "", "", "", "", "", "", "", "")
      ensures !loading && error.None? && advertisements == [] && !searchPerformed
    {
      loading, error, advertisements, searchPerformed := false, None, [], false;
      countryCode, region, city, latitude, longitude := "", "", "", "", "";
      age, gender, occupation, educationLevel, language, interests := "", "", "", "", "", "";
      mood, intensity, timeOfDay, dayOfWeek, season := "", "", "", "", "";
    }

    /** What a search does with its reply: results replace the old ones, a failure keeps them and sets the error. */
    method Settle(reply: Result<seq<Advertisement>, string>)
      modifies this
      ensures Inputs() == old(Inputs()) && !loading
      ensures reply.Ok? ==> error == old(error) && advertisements == reply.value && searchPerformed
      ensures reply.Err? ==>
        error == Some(FETCH_FAILED) && advertisements == old(advertisements) && searchPerformed == old(searchPerformed)
    {
      if reply.Ok? {
        advertisements := reply.value;
        searchPerformed := true;
      } else {
        error := Some(FETCH_FAILED);
      }
      loading := false;
    }

    /** `handleGeoSearch`. */
    method HandleGeoSearch(parseNumber: string -> int, reply: Result<seq<Advertisement>, string>) returns (request: HttpRequest)
      modifies this
      ensures request == GeoSearchRequest(old(Inputs()), parseNumber)
      ensures Inputs() == old(Inputs()) && !loading
      ensures reply.Ok? ==> error.None? && advertisements == reply.value && searchPerformed
      ensures reply.Err? ==>
        error == Some(FETCH_FAILED) && advertisements == old(advertisements) && searchPerformed == old(searchPerformed)
    {
      var inputs := Inputs();
      loading := true;
      error := None;
      request := GeoSearchRequest(inputs, parseNumber);
      Settle(reply);
    }

    /**
     * `handleBioSearch` as written: it calls `getBioTargetedAdvertisements`, which the service
     * does not define. The call throws before any request is made, and the handler shows the
     * fetch error, whatever was typed.
     */
    method HandleBioSearch() returns (request: Option<HttpRequest>)
      modifies this
      ensures request.None?
      ensures Inputs() == old(Inputs()) && !loading
      ensures error == Some(FETCH_FAILED) && advertisements == old(advertisements) && searchPerformed == old(searchPerformed)
    {
      loading := true;
      error := None;
      request := None;
      error := Some(FETCH_FAILED);
      loading := false;
    }

    /** `handleBioSearch` as intended: the typed bio data is posted to the combined targeting endpoint. */
    method HandleBioSearchCorrected(parseNumber: string -> int, reply: Result<seq<Advertisement>, string>)
      returns (request: HttpRequest)
      modifies this
      ensures request == GetTargetedAdvertisements(None, Some(BioSearchData(old(Inputs()), parseNumber)), None)
      ensures Inputs() == old(Inputs()) && !loading
      ensures reply.Ok? ==> error.None? && advertisements == reply.value && searchPerformed
      ensures reply.Err? ==>
        error == Some(FETCH_FAILED) && advertisements == old(advertisements) && searchPerformed == old(searchPerformed)
    {
      var inputs := Inputs();
      loading := true;
      error := None;
      request := GetTargetedAdvertisements(None, Some(BioSearchData(inputs, parseNumber)), None);
      Settle(reply);
    }

    /** `handleMoodSearch`: with no mood chosen it only shows the "mood required" error. */
    method HandleMoodSearch(parseNumber: string -> int, reply: Result<seq<Advertisement>, string>)
      returns (request: Option<HttpRequest>)
      modifies this
      ensures Inputs() == old(Inputs()) && !loading
      ensures request.None? <==> old(mood) == ""
      ensures old(mood) == "" ==>
        error == Some(MOOD_REQUIRED_FOR_SEARCH) && advertisements == old(advertisements) && searchPerformed == old(searchPerformed)
      ensures old(mood) != "" ==> request == Some(MoodSearchRequest(old(Inputs()), parseNumber))
      ensures old(mood) != "" && reply.Ok? ==> error.None? && advertisements == reply.value && searchPerformed
      ensures old(mood) != "" && reply.Err? ==>
        error == Some(FETCH_FAILED) && advertisements == old(advertisements) && searchPerformed == old(searchPerformed)
    {
      var inputs := Inputs();
      loading := true;
      error := None;
      if mood == "" {
        error := Some(MOOD_REQUIRED_FOR_SEARCH);
        loading := false;
        return None;
      }
      request := Some(MoodSearchRequest(inputs, parseNumber));
      Settle(reply);
    }
  }
}
