/**
 * One advertisement as a card (frontend/components/AdvertisementCard.tsx): the text and chips
 * it shows, the buttons it offers, the YouTube preview of its details dialog, the sentences
 * that describe its targeting rules, and the edit and delete callbacks it makes.
 *
 * A rendered piece of text is a string; an element is a datatype value. A callback the card
 * may make is returned, as the argument it is called with.
 */
module AdvertisementCards {
  import opened Wrappers
  import opened JavaStrings
  import opened FrontendTypes

  const NO_DESCRIPTION := "No description provided"
  const EMBED_PREFIX := "https://www.youtube.com/embed/"

  /** `description || 'No description provided'`: the card never shows an empty description. */
  function DescriptionText(ad: Advertisement): (r: string)
    ensures r != ""
    ensures TruthyText(ad.description) ==> r == ad.description.value
    ensures !TruthyText(ad.description) ==> r == NO_DESCRIPTION
  {
    if TruthyText(ad.description) then ad.description.value else NO_DESCRIPTION
  }

  datatype Chip = Chip(caption: string, color: string)

  /** The caption of a chip that names one kind of targeting, shown when the ad has such rules. */
  function TargetingChip(present: bool, caption: string): seq<Chip> {
    if present then [Chip(caption, "info")] else []
  }

  /** The chips under the description: source, status, then one per kind of targeting the ad uses. */
  function Chips(ad: Advertisement): (r: seq<Chip>)
    ensures 2 <= |r| <= 5
    ensures r[0].caption == (if ad.source.Some? then SourceName(ad.source.value) else "")
    ensures r[0].color == (if ad.source == Some(YOUTUBE) then "error" else "primary")
    ensures r[1] == (if ad.active then Chip("Active", "success") else Chip("Inactive", "default"))
    ensures Chip("Geo Targeted", "info") in r <==> HasElements(ad.geoTargets)
    ensures Chip("Bio Targeted", "info") in r <==> HasElements(ad.bioTargets)
    ensures Chip("Mood Targeted", "info") in r <==> HasElements(ad.moodTargets)
  {
    [Chip(if ad.source.Some? then SourceName(ad.source.value) else "",
          if ad.source == Some(YOUTUBE) then "error" else "primary"),
     if ad.active then Chip("Active", "success") else Chip("Inactive", "default")]
    + TargetingChip(HasElements(ad.geoTargets), "Geo Targeted")
    + TargetingChip(HasElements(ad.bioTargets), "Bio Targeted")
    + TargetingChip(HasElements(ad.moodTargets), "Mood Targeted")
  }

  datatype Action = DetailsButton | VisitButton(href: string) | EditButton | DeleteButton

  /** The Visit link is shown when the ad is clickable and has a non-empty target URL. */
  predicate ShowsVisit(ad: Advertisement) {
    TruthyFlag(ad.clickable) && TruthyText(ad.targetUrl)
  }

  /** The card's buttons: Details always, Visit for a clickable ad, Edit and Delete when their callbacks are given. */
  function Actions(ad: Advertisement, hasOnEdit: bool, hasOnDelete: bool): (r: seq<Action>)
    ensures |r| >= 1 && r[0] == DetailsButton
    ensures ShowsVisit(ad) ==> VisitButton(ad.targetUrl.value) in r
    ensures forall i :: 0 <= i < |r| && r[i].VisitButton? ==> ShowsVisit(ad) && r[i].href == ad.targetUrl.value
    ensures EditButton in r <==> hasOnEdit
    ensures DeleteButton in r <==> hasOnDelete
  {
    [DetailsButton]
    + (if ShowsVisit(ad) then [VisitButton(ad.targetUrl.value)] else [])
    + (if hasOnEdit then [EditButton] else [])
    + (if hasOnDelete then [DeleteButton] else [])
  }

  /** The YouTube video id: the details' video id when it is non-empty, else the source identifier. */
  function VideoId(ad: Advertisement): string {
    if ad.youtubeDetails.Some? && TruthyText(ad.youtubeDetails.value.videoId) then ad.youtubeDetails.value.videoId.value
    else ad.sourceIdentifier
  }

  /** The thumbnail URL of the YouTube details, if any. */
  function ThumbnailUrl(ad: Advertisement): Option<string> {
    if ad.youtubeDetails.Some? then ad.youtubeDetails.value.thumbnailUrl else None
  }

  /** The caption of the preview: the details' video title when non-empty, else the ad's title. */
  function PreviewTitle(ad: Advertisement): string {
    if ad.youtubeDetails.Some? && TruthyText(ad.youtubeDetails.value.videoTitle) then ad.youtubeDetails.value.videoTitle.value
    else ad.title
  }

  datatype Preview = Embed(src: string, title: string) | Thumbnail(src: string, alt: string) | Blank

  /**
   * The preview section of the details dialog: only a YouTube ad has one; it embeds the video
   * when there is a video id, else shows the thumbnail when there is one, else is empty.
   */
  function PreviewOf(ad: Advertisement): (r: Option<Preview>)
    ensures r.Some? <==> ad.source == Some(YOUTUBE)
    ensures r.Some? && VideoId(ad) != "" ==> r.value == Embed(EMBED_PREFIX + VideoId(ad), PreviewTitle(ad))
    ensures r.Some? && r.value.Thumbnail? ==>
      VideoId(ad) == "" && TruthyText(ThumbnailUrl(ad)) && r.value == Thumbnail(ThumbnailUrl(ad).value, PreviewTitle(ad))
    ensures r.Some? && r.value.Blank? ==> VideoId(ad) == "" && !TruthyText(ThumbnailUrl(ad))
  {
    if ad.source != Some(YOUTUBE) then None
    else if VideoId(ad) != "" then Some(Embed(EMBED_PREFIX + VideoId(ad), PreviewTitle(ad)))
    else if TruthyText(ThumbnailUrl(ad)) then Some(Thumbnail(ThumbnailUrl(ad).value, PreviewTitle(ad)))
    else Some(Blank)
  }

  /**
   * The embed URL names the video: past the embed prefix it is the details' video id when that
   * is non-empty, and the source identifier otherwise.
   */
  lemma EmbedNamesTheVideo(ad: Advertisement)
    requires PreviewOf(ad).Some? && PreviewOf(ad).value.Embed?
    ensures PreviewOf(ad).value.src[..|EMBED_PREFIX|] == EMBED_PREFIX
    ensures ad.youtubeDetails.Some? && TruthyText(ad.youtubeDetails.value.videoId) ==>
      PreviewOf(ad).value.src[|EMBED_PREFIX|..] == ad.youtubeDetails.value.videoId.value
    ensures !(ad.youtubeDetails.Some? && TruthyText(ad.youtubeDetails.value.videoId)) ==>
      PreviewOf(ad).value.src[|EMBED_PREFIX|..] == ad.sourceIdentifier
  {
    var src := PreviewOf(ad).value.src;
    assert src == EMBED_PREFIX + VideoId(ad);
    assert src[..|EMBED_PREFIX|] == EMBED_PREFIX;
    assert src[|EMBED_PREFIX|..] == VideoId(ad);
  }

  /** A YouTube ad without details, identified by its video id, embeds that video. */
  lemma SourceIdentifierIsEmbedded(ad: Advertisement)
    requires ad.source == Some(YOUTUBE) && ad.youtubeDetails.None? && ad.sourceIdentifier != ""
    ensures PreviewOf(ad) == Some(Embed(EMBED_PREFIX + ad.sourceIdentifier, ad.title))
  {
  }

  /** "Include" or "Exclude", both seven letters long. */
  function Polarity(isInclude: bool): (r: string)
    ensures |r| == 7
    ensures r == "Include" <==> isInclude
  {
    if isInclude then "Include" else "Exclude"
  }

  /** `{value && `${caption}${value}`}`: the caption and the value when the value is non-empty, else nothing. */
  function Phrase(caption: string, value: Option<string>): (r: string)
    ensures r == "" <==> !TruthyText(value)
    ensures r != "" ==> r == caption + value.value
  {
    if TruthyText(value) then caption + value.value else ""
  }

  /** The location phrase, for a target with both coordinates; a missing or zero radius is shown as 0. */
  function WithinPhrase(t: GeoTarget): string
    requires t.latitude.Some? && t.longitude.Some?
  {
    ", within " + NumberText(if TruthyNumber(t.radiusKm) then t.radiusKm.value else 0) + "km of ("
    + NumberText(t.latitude.value) + ", " + NumberText(t.longitude.value) + ")"
  }

  /**
   * The location part of a geo sentence as written: `latitude && longitude && phrase`. A zero
   * coordinate is falsy, so the expression's value is that 0, and React renders it as "0".
   */
  function LocationAsWritten(t: GeoTarget): (r: string)
    ensures t.latitude == Some(0) ==> r == "0"
  {
    if t.latitude.Some? && t.latitude.value == 0 then "0"
    else if !TruthyNumber(t.latitude) then ""
    else if t.longitude.Some? && t.longitude.value == 0 then "0"
    else if !TruthyNumber(t.longitude) then ""
    else WithinPhrase(t)
  }

  /** The location part as intended: the phrase exactly when both coordinates are given, whatever their value. */
  function Location(t: GeoTarget): (r: string)
    ensures r != "" <==> t.latitude.Some? && t.longitude.Some?
    ensures r != "" ==> r == WithinPhrase(t)
  {
    if t.latitude.Some? && t.longitude.Some? then WithinPhrase(t) else ""
  }

  /** What follows the polarity in a geo rule's sentence, as the card writes it. */
  function GeoDetailsAsWritten(t: GeoTarget): string {
    " users from " + t.countryCode + Phrase(", ", t.region) + Phrase(", ", t.city) + LocationAsWritten(t)
  }

  /** What follows the polarity in a geo rule's sentence, with the location part as intended. */
  function GeoDetails(t: GeoTarget): string {
    " users from " + t.countryCode + Phrase(", ", t.region) + Phrase(", ", t.city) + Location(t)
  }

  /** The sentence for one geo rule as the card writes it. */
  function GeoSentenceAsWritten(t: GeoTarget): string {
    Polarity(t.isInclude) + GeoDetailsAsWritten(t)
  }

  /** The sentence for one geo rule, with the location part as intended. */
  function GeoSentence(t: GeoTarget): string {
    Polarity(t.isInclude) + GeoDetails(t)
  }

  /** The rule of the example below: included users from "US", within 5 km of (0, 10). */
  const EQUATOR_RULE := GeoTarget("US", None, None, Some(0), Some(10), Some(5), true)

  /** As written, the rule on the equator is shown with a stray "0" and without its location. */
  lemma EquatorShowsStrayZero()
    ensures GeoSentenceAsWritten(EQUATOR_RULE) == "Include users from US0"
  {
    assert Phrase(", ", None) == "";
    assert LocationAsWritten(EQUATOR_RULE) == "0";
  }

  /** As intended, the rule on the equator is shown with its location. */
  lemma EquatorShowsLocation()
    ensures GeoSentence(EQUATOR_RULE) == "Include users from US" + WithinPhrase(EQUATOR_RULE)
    ensures WithinPhrase(EQUATOR_RULE) == ", within 5km of (0, 10)"
  {
    assert NumberText(10) == "10" by {
      assert NatToDecimal(10) == NatToDecimal(1) + [Digit(0)];
    }
    assert NumberText(0) == "0" && NumberText(5) == "5";
    assert Phrase(", ", None) == "";
    assert GeoDetails(EQUATOR_RULE) == " users from US" + WithinPhrase(EQUATOR_RULE);
  }

  /**
   * As written, a rule with both coordinates of which one is 0 shows "0" instead of its
   * location; the intended reading differs from it only there.
   */
  lemma GeoSentenceLocation(t: GeoTarget)
    ensures t.latitude.Some? && t.longitude.Some? && (t.latitude.value == 0 || t.longitude.value == 0) ==>
      LocationAsWritten(t) == "0" && Location(t) == WithinPhrase(t)
    ensures t.latitude != Some(0) && t.longitude != Some(0) ==> GeoSentenceAsWritten(t) == GeoSentence(t)
  {
  }

  /** " aged min-max", " aged min+", " aged up to max", or nothing, as the bounds are given. */
  function AgePhrase(minAge: Option<int>, maxAge: Option<int>): (r: string)
    ensures minAge.Some? && maxAge.Some? ==> r == " aged " + NumberText(minAge.value) + "-" + NumberText(maxAge.value)
    ensures minAge.Some? && maxAge.None? ==> r == " aged " + NumberText(minAge.value) + "+"
    ensures minAge.None? && maxAge.Some? ==> r == " aged up to " + NumberText(maxAge.value)
    ensures r == "" <==> minAge.None? && maxAge.None?
  {
    (if minAge.Some? && maxAge.Some? then " aged " + NumberText(minAge.value) + "-" + NumberText(maxAge.value) else "")
    + (if minAge.Some? && maxAge.None? then " aged " + NumberText(minAge.value) + "+" else "")
    + (if minAge.None? && maxAge.Some? then " aged up to " + NumberText(maxAge.value) else "")
  }

  /** What follows the polarity in a bio rule's sentence. */
  function BioDetails(t: BioTarget): string {
    " users" + AgePhrase(t.minAge, t.maxAge)
    + Phrase(", gender: ", if t.gender.Some? then Some(GenderName(t.gender.value)) else None)
    + Phrase(", occupation: ", t.occupation) + Phrase(", education: ", t.educationLevel)
    + Phrase(", language: ", t.language) + Phrase(", interested in: ", t.interestCategory)
  }

  /** The sentence for one bio rule. */
  function BioSentence(t: BioTarget): string {
    Polarity(t.isInclude) + BioDetails(t)
  }

  /** ", intensity: min-max" when both bounds are given, else nothing. */
  function IntensityPhrase(intensityMin: Option<int>, intensityMax: Option<int>): (r: string)
    ensures r != "" <==> intensityMin.Some? && intensityMax.Some?
    ensures r != "" ==> r == ", intensity: " + NumberText(intensityMin.value) + "-" + NumberText(intensityMax.value)
  {
    if intensityMin.Some? && intensityMax.Some? then
      ", intensity: " + NumberText(intensityMin.value) + "-" + NumberText(intensityMax.value)
    else ""
  }

  /** What follows the polarity in a mood rule's sentence; a missing mood renders as nothing. */
  function MoodDetails(t: MoodTarget): string {
    " users in mood: " + (if t.mood.Some? then MoodName(t.mood.value) else "")
    + IntensityPhrase(t.intensityMin, t.intensityMax)
    + Phrase(", time of day: ", t.timeOfDay) + Phrase(", day: ", t.dayOfWeek) + Phrase(", season: ", t.season)
  }

  /** The sentence for one mood rule. */
  function MoodSentence(t: MoodTarget): string {
    Polarity(t.isInclude) + MoodDetails(t)
  }

  /** A string opens with what was put in front of it. */
  lemma OpensWith(p: string, rest: string)
    ensures (p + rest)[..|p|] == p
  {
  }

  /** Every targeting sentence opens with the rule's polarity, so include and exclude rules always read differently. */
  lemma SentencesOpenWithPolarity(g: GeoTarget, b: BioTarget, m: MoodTarget)
    ensures GeoSentence(g)[..7] == Polarity(g.isInclude)
    ensures BioSentence(b)[..7] == Polarity(b.isInclude)
    ensures MoodSentence(m)[..7] == Polarity(m.isInclude)
    ensures GeoSentence(g) != GeoSentence(g.(isInclude := !g.isInclude))
  {
    OpensWith(Polarity(g.isInclude), GeoDetails(g));
    OpensWith(Polarity(b.isInclude), BioDetails(b));
    OpensWith(Polarity(m.isInclude), MoodDetails(m));
    OpensWith(Polarity(!g.isInclude), GeoDetails(g.(isInclude := !g.isInclude)));
  }

  /** The lines of one targeting section as the card renders them: one sentence per rule, the section shown only when there are rules. */
  function GeoLines(ad: Advertisement): (r: seq<string>)
    ensures |r| == (if HasElements(ad.geoTargets) then |ad.geoTargets.value| else 0)
    ensures forall i :: 0 <= i < |r| ==> r[i] == GeoSentenceAsWritten(ad.geoTargets.value[i])
  {
    if HasElements(ad.geoTargets) then
      seq(|ad.geoTargets.value|, i requires 0 <= i < |ad.geoTargets.value| => GeoSentenceAsWritten(ad.geoTargets.value[i]))
    else []
  }

  /** The geo section's lines with the location part as intended. */
  function GeoLinesCorrected(ad: Advertisement): (r: seq<string>)
    ensures |r| == (if HasElements(ad.geoTargets) then |ad.geoTargets.value| else 0)
    ensures forall i :: 0 <= i < |r| ==> r[i] == GeoSentence(ad.geoTargets.value[i])
  {
    if HasElements(ad.geoTargets) then
      seq(|ad.geoTargets.value|, i requires 0 <= i < |ad.geoTargets.value| => GeoSentence(ad.geoTargets.value[i]))
    else []
  }

  /** The rendered geo section differs from the intended one only through rules with a zero coordinate. */
  lemma GeoLinesAgreeAwayFromZero(ad: Advertisement)
    requires ad.geoTargets.Some? ==>
      forall i :: 0 <= i < |ad.geoTargets.value| ==>
        ad.geoTargets.value[i].latitude != Some(0) && ad.geoTargets.value[i].longitude != Some(0)
    ensures GeoLines(ad) == GeoLinesCorrected(ad)
  {
    forall i | 0 <= i < |GeoLines(ad)| ensures GeoLines(ad)[i] == GeoLinesCorrected(ad)[i] {
      GeoSentenceLocation(ad.geoTargets.value[i]);
    }
  }

  /** The bio section's lines. */
  function BioLines(ad: Advertisement): (r: seq<string>)
    ensures |r| == (if HasElements(ad.bioTargets) then |ad.bioTargets.value| else 0)
    ensures forall i :: 0 <= i < |r| ==> r[i] == BioSentence(ad.bioTargets.value[i])
  {
    if HasElements(ad.bioTargets) then seq(|ad.bioTargets.value|, i requires 0 <= i < |ad.bioTargets.value| => BioSentence(ad.bioTargets.value[i]))
    else []
  }

  /** The mood section's lines. */
  function MoodLines(ad: Advertisement): (r: seq<string>)
    ensures |r| == (if HasElements(ad.moodTargets) then |ad.moodTargets.value| else 0)
    ensures forall i :: 0 <= i < |r| ==> r[i] == MoodSentence(ad.moodTargets.value[i])
  {
    if HasElements(ad.moodTargets) then seq(|ad.moodTargets.value|, i requires 0 <= i < |ad.moodTargets.value| => MoodSentence(ad.moodTargets.value[i]))
    else []
  }

  /** The card component: its advertisement and callbacks are props, the details flag its state. */
  class AdvertisementCard {
    const advertisement: Advertisement
    const hasOnEdit: bool
    const hasOnDelete: bool
    var showDetails: bool

    /** A card starts with its details dialog closed. */
    constructor (advertisement: Advertisement, hasOnEdit: bool, hasOnDelete: bool)
      ensures this.advertisement == advertisement && this.hasOnEdit == hasOnEdit && this.hasOnDelete == hasOnDelete
      ensures !showDetails
    {
      this.advertisement := advertisement;
      this.hasOnEdit := hasOnEdit;
      this.hasOnDelete := hasOnDelete;
      showDetails := false;
    }

    /** `handleShowDetails`: the Details button opens the dialog. */
    method HandleShowDetails()
      modifies this
      ensures showDetails
    {
      showDetails := true;
    }

    /** `handleCloseDetails`: the dialog's Close button and its backdrop close it. */
    method HandleCloseDetails()
      modifies this
      ensures !showDetails
    {
      showDetails := false;
    }

    /** `handleEdit`: the whole record goes to `onEdit`, when there is one. */
    method HandleEdit() returns (edited: Option<Advertisement>)
      ensures edited.Some? <==> hasOnEdit
      ensures edited.Some? ==> edited.value == advertisement
    {
      edited := if hasOnEdit then Some(advertisement) else None;
    }

    /** `handleDelete`: `onDelete` is called with the id, only when there is a callback and the id is truthy. */
    method HandleDelete() returns (deleted: Option<int>)
      ensures deleted.Some? <==> hasOnDelete && TruthyNumber(advertisement.id)
      ensures deleted.Some? ==> deleted == advertisement.id && deleted.value != 0
    {
      deleted := None;
      if hasOnDelete && TruthyNumber(advertisement.id) {
        deleted := advertisement.id;
      }
    }
  }
}
