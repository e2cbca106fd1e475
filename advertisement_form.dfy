/**
 * The create/edit form (frontend/components/AdvertisementForm.tsx): its Yup validation
 * schema, the empty record and the new-rule templates, the rule lists that the field-array
 * buttons grow and shrink, and the submit handler that creates or updates the record.
 */
module AdvertisementForms {
  import opened Wrappers
  import opened FrontendTypes
  import opened FrontendService

  const TITLE_REQUIRED := "Title is required"
  const CONTENT_REQUIRED := "Content is required"
  const SOURCE_REQUIRED := "Source is required"
  const SOURCE_IDENTIFIER_REQUIRED := "Source identifier is required"
  const COUNTRY_CODE_REQUIRED := "Country code is required"
  const MIN_AGE_POSITIVE := "Min age must be positive"
  const MAX_AGE_POSITIVE := "Max age must be positive"
  const MAX_AGE_BELOW_MIN := "Max age must be greater than min age"
  const MOOD_REQUIRED := "Mood is required"
  const MIN_INTENSITY_RANGE := "Min intensity must be between 1 and 10"
  const MAX_INTENSITY_RANGE := "Max intensity must be between 1 and 10"
  const MAX_INTENSITY_BELOW_MIN := "Max intensity must be greater than min intensity"

  /** The record the form starts from when it is given none. */
  const EMPTY_ADVERTISEMENT := Advertisement(
    None, "", Some(""), "", Some(STORAGE), "", None, None, true, None, None, None,
    Some([]), Some([]), Some([]))

  /** The rules the "Add" buttons append. */
  const GEO_TEMPLATE := GeoTarget("", None, None, None, None, None, true)
  const BIO_TEMPLATE := BioTarget(None, None, None, None, None, None, None, true)
  const MOOD_TEMPLATE := MoodTarget(Some(HAPPY), None, None, None, None, None, true)

  /** The errors of one record or rule, by field name; a field keeps only its first failing test's message. */
  type FieldErrors = map<string, string>

  /** `Yup.number().nullable().min(lo)` fails: a defined value below `lo` (an undefined one passes). */
  predicate BelowMin(v: Option<int>, lo: int) {
    v.Some? && v.value < lo
  }

  /** `.min(1).max(10)` fails: a defined value outside 1..10. */
  predicate OutsideOneToTen(v: Option<int>) {
    v.Some? && !(1 <= v.value <= 10)
  }

  /** The order test `!value || !min || value >= min` fails: both truthy and the maximum below the minimum. */
  predicate OrderViolated(max: Option<int>, min: Option<int>) {
    TruthyNumber(max) && TruthyNumber(min) && max.value < min.value
  }

  /** `Yup.string().required()` on a text field fails on the empty string. */
  function Required(errors: FieldErrors, field: string, value: string, message: string): (r: FieldErrors)
    ensures value == "" ==> r == errors[field := message]
    ensures value != "" ==> r == errors
  {
    if value == "" then errors[field := message] else errors
  }

  /** The schema of a geo rule. */
  function GeoErrors(g: GeoTarget): (r: FieldErrors)
    ensures r.Keys <= {"countryCode"}
    ensures "countryCode" in r <==> g.countryCode == ""
    ensures "countryCode" in r ==> r["countryCode"] == COUNTRY_CODE_REQUIRED
  {
    Required(map[], "countryCode", g.countryCode, COUNTRY_CODE_REQUIRED)
  }

  /** The schema of a bio rule: non-negative ages, and a maximum not below the minimum when both are truthy. */
  function BioErrors(b: BioTarget): (r: FieldErrors)
    ensures r.Keys <= {"minAge", "maxAge"}
    ensures "minAge" in r <==> BelowMin(b.minAge, 0)
    ensures "minAge" in r ==> r["minAge"] == MIN_AGE_POSITIVE
    ensures "maxAge" in r <==> BelowMin(b.maxAge, 0) || OrderViolated(b.maxAge, b.minAge)
    ensures "maxAge" in r ==> r["maxAge"] == (if BelowMin(b.maxAge, 0) then MAX_AGE_POSITIVE else MAX_AGE_BELOW_MIN)
  {
    var e := if BelowMin(b.minAge, 0) then map["minAge" := MIN_AGE_POSITIVE] else map[];
    if BelowMin(b.maxAge, 0) then e["maxAge" := MAX_AGE_POSITIVE]
    else if OrderViolated(b.maxAge, b.minAge) then e["maxAge" := MAX_AGE_BELOW_MIN]
    else e
  }

  /** The schema of a mood rule: a mood, intensities in 1..10, and a maximum not below the minimum. */
  function MoodErrors(m: MoodTarget): (r: FieldErrors)
    ensures r.Keys <= {"mood", "intensityMin", "intensityMax"}
    ensures "mood" in r <==> m.mood.None?
    ensures "mood" in r ==> r["mood"] == MOOD_REQUIRED
    ensures "intensityMin" in r <==> OutsideOneToTen(m.intensityMin)
    ensures "intensityMin" in r ==> r["intensityMin"] == MIN_INTENSITY_RANGE
    ensures "intensityMax" in r <==> OutsideOneToTen(m.intensityMax) || OrderViolated(m.intensityMax, m.intensityMin)
    ensures "intensityMax" in r ==>
      r["intensityMax"] == (if OutsideOneToTen(m.intensityMax) then MAX_INTENSITY_RANGE else MAX_INTENSITY_BELOW_MIN)
  {
    var e := if m.mood.None? then map["mood" := MOOD_REQUIRED] else map[];
    var e := if OutsideOneToTen(m.intensityMin) then e["intensityMin" := MIN_INTENSITY_RANGE] else e;
    if OutsideOneToTen(m.intensityMax) then e["intensityMax" := MAX_INTENSITY_RANGE]
    else if OrderViolated(m.intensityMax, m.intensityMin) then e["intensityMax" := MAX_INTENSITY_BELOW_MIN]
    else e
  }

  /** The errors of the form: the record's own fields, then one entry per rule of each list. */
  datatype FormErrors = FormErrors(
    fields: FieldErrors,
    geoTargets: seq<FieldErrors>,
    bioTargets: seq<FieldErrors>,
    moodTargets: seq<FieldErrors>)

  /** No field of the record and no rule has an error: only then is the submit handler called. */
  predicate NoErrors(e: FormErrors) {
    e.fields == map[]
    && (forall i :: 0 <= i < |e.geoTargets| ==> e.geoTargets[i] == map[])
    && (forall i :: 0 <= i < |e.bioTargets| ==> e.bioTargets[i] == map[])
    && (forall i :: 0 <= i < |e.moodTargets| ==> e.moodTargets[i] == map[])
  }

  /** The rules of an optional list, none when it is missing. */
  function Rules<T>(rules: Option<seq<T>>): seq<T> {
    rules.GetOr([])
  }

  /** `Yup.array().of(schema)`: each rule is checked on its own; a missing list passes. */
  function EachRule<T>(rules: Option<seq<T>>, check: T -> FieldErrors): (r: seq<FieldErrors>)
    ensures |r| == |Rules(rules)|
    ensures forall i :: 0 <= i < |r| ==> r[i] == check(Rules(rules)[i])
  {
    var s := Rules(rules);
    seq(|s|, i requires 0 <= i < |s| => check(s[i]))
  }

  /** The errors of the record's own fields. */
  function RecordErrors(v: Advertisement): (r: FieldErrors)
    ensures r.Keys <= {"title", "content", "source", "sourceIdentifier"}
    ensures "title" in r <==> v.title == ""
    ensures "content" in r <==> v.content == ""
    ensures "source" in r <==> v.source.None?
    ensures "sourceIdentifier" in r <==> v.sourceIdentifier == ""
    ensures forall k :: k in r ==> r[k] == (match k
      case "title" => TITLE_REQUIRED
      case "content" => CONTENT_REQUIRED
      case "source" => SOURCE_REQUIRED
      case _ => SOURCE_IDENTIFIER_REQUIRED)
  {
    var e := Required(map[], "title", v.title, TITLE_REQUIRED);
    var e := Required(e, "content", v.content, CONTENT_REQUIRED);
    var e := if v.source.None? then e["source" := SOURCE_REQUIRED] else e;
    Required(e, "sourceIdentifier", v.sourceIdentifier, SOURCE_IDENTIFIER_REQUIRED)
  }

  /** `validationSchema` applied to the form's values. */
  function Validate(v: Advertisement): FormErrors {
    FormErrors(RecordErrors(v), EachRule(v.geoTargets, GeoErrors), EachRule(v.bioTargets, BioErrors),
               EachRule(v.moodTargets, MoodErrors))
  }

  /** The form validates exactly when every required text is filled in, a source is chosen and every rule passes. */
  lemma ValidIff(v: Advertisement)
    ensures NoErrors(Validate(v)) <==>
      v.title != "" && v.content != "" && v.source.Some? && v.sourceIdentifier != ""
      && (forall g :: g in Rules(v.geoTargets) ==> g.countryCode != "")
      && (forall b :: b in Rules(v.bioTargets) ==> !BelowMin(b.minAge, 0) && !BelowMin(b.maxAge, 0) && !OrderViolated(b.maxAge, b.minAge))
      && (forall m :: m in Rules(v.moodTargets) ==>
            m.mood.Some? && !OutsideOneToTen(m.intensityMin) && !OutsideOneToTen(m.intensityMax)
            && !OrderViolated(m.intensityMax, m.intensityMin))
  {
    var e := Validate(v);
    if NoErrors(e) {
      forall g | g in Rules(v.geoTargets) ensures g.countryCode != "" {
        var i :| 0 <= i < |Rules(v.geoTargets)| && Rules(v.geoTargets)[i] == g;
        assert e.geoTargets[i] == map[];
      }
      forall b | b in Rules(v.bioTargets)
        ensures !BelowMin(b.minAge, 0) && !BelowMin(b.maxAge, 0) && !OrderViolated(b.maxAge, b.minAge)
      {
        var i :| 0 <= i < |Rules(v.bioTargets)| && Rules(v.bioTargets)[i] == b;
        assert e.bioTargets[i] == map[];
      }
      forall m | m in Rules(v.moodTargets)
        ensures m.mood.Some? && !OutsideOneToTen(m.intensityMin) && !OutsideOneToTen(m.intensityMax)
                && !OrderViolated(m.intensityMax, m.intensityMin)
      {
        var i :| 0 <= i < |Rules(v.moodTargets)| && Rules(v.moodTargets)[i] == m;
        assert e.moodTargets[i] == map[];
      }
    }
  }

  /**
   * Submitting the untouched empty form reports exactly three "is required" errors: title,
   * content and source identifier. The source already defaults to STORAGE, and the rule lists are empty.
   */
  lemma EmptyFormHasThreeRequiredErrors()
    ensures Validate(EMPTY_ADVERTISEMENT) == FormErrors(
      map["title" := TITLE_REQUIRED, "content" := CONTENT_REQUIRED, "sourceIdentifier" := SOURCE_IDENTIFIER_REQUIRED],
      [], [], [])
  {
    var r := RecordErrors(EMPTY_ADVERTISEMENT);
    assert r.Keys == {"title", "content", "sourceIdentifier"};
  }

  /** A new geo rule needs its country code filled in; new bio and mood rules are valid as they come. */
  lemma TemplateErrors()
    ensures GeoErrors(GEO_TEMPLATE) == map["countryCode" := COUNTRY_CODE_REQUIRED]
    ensures BioErrors(BIO_TEMPLATE) == map[]
    ensures MoodErrors(MOOD_TEMPLATE) == map[]
  {
  }

  /** A maximum age of 0 is falsy, so the order test skips it even when the minimum is larger. */
  lemma ZeroMaxAgeSkipsOrderTest(minAge: int)
    requires minAge > 0
    ensures BioErrors(BIO_TEMPLATE.(minAge := Some(minAge), maxAge := Some(0))) == map[]
  {
  }

  /** A bio rule that passes with both ages non-zero describes a range from a non-negative minimum up. */
  lemma AcceptedAgesAreOrdered(b: BioTarget)
    requires BioErrors(b) == map[]
    requires TruthyNumber(b.minAge) && TruthyNumber(b.maxAge)
    ensures 0 < b.minAge.value <= b.maxAge.value
  {
    assert "minAge" !in BioErrors(b) && "maxAge" !in BioErrors(b);
  }

  /** A mood rule that passes with both intensities given has 1 <= min <= max <= 10. */
  lemma AcceptedIntensitiesAreOrdered(m: MoodTarget)
    requires MoodErrors(m) == map[]
    requires m.intensityMin.Some? && m.intensityMax.Some?
    ensures 1 <= m.intensityMin.value <= m.intensityMax.value <= 10
  {
    assert "intensityMin" !in MoodErrors(m) && "intensityMax" !in MoodErrors(m);
  }

  /** The list after `push(x)`: a missing list counts as empty. */
  function Pushed<T>(rules: Option<seq<T>>, x: T): (r: Option<seq<T>>)
    ensures r.Some? && Rules(r) == Rules(rules) + [x]
  {
    Some(Rules(rules) + [x])
  }

  /** The list after `remove(index)`: the rule at `index` goes, and an index past the end changes nothing. */
  function Removed<T>(rules: Option<seq<T>>, index: nat): (r: Option<seq<T>>)
    ensures r.Some?
    ensures index < |Rules(rules)| ==> |Rules(r)| == |Rules(rules)| - 1
    ensures index < |Rules(rules)| ==> forall i :: 0 <= i < index ==> Rules(r)[i] == Rules(rules)[i]
    ensures index < |Rules(rules)| ==> forall i :: index <= i < |Rules(r)| ==> Rules(r)[i] == Rules(rules)[i + 1]
    ensures index >= |Rules(rules)| ==> Rules(r) == Rules(rules)
  {
    var s := Rules(rules);
    if index < |s| then Some(s[..index] + s[index + 1..]) else Some(s)
  }

  /** Appending a rule appends its own errors and leaves the other rules' errors as they were. */
  lemma {:induction false} PushedErrors<T>(rules: Option<seq<T>>, x: T, check: T -> FieldErrors)
    ensures EachRule(Pushed(rules, x), check) == EachRule(rules, check) + [check(x)]
  {
    var a := EachRule(Pushed(rules, x), check);
    var b := EachRule(rules, check) + [check(x)];
    assert |a| == |b|;
    forall i | 0 <= i < |a| ensures a[i] == b[i] {
      if i < |Rules(rules)| {
        assert Rules(Pushed(rules, x))[i] == Rules(rules)[i];
      }
    }
  }

  /** Adding a bio or mood rule keeps a valid form valid; adding a geo rule makes it invalid until its country is filled in. */
  lemma AddingRules(v: Advertisement)
    requires NoErrors(Validate(v))
    ensures NoErrors(Validate(v.(bioTargets := Pushed(v.bioTargets, BIO_TEMPLATE))))
    ensures NoErrors(Validate(v.(moodTargets := Pushed(v.moodTargets, MOOD_TEMPLATE))))
    ensures !NoErrors(Validate(v.(geoTargets := Pushed(v.geoTargets, GEO_TEMPLATE))))
  {
    PushedErrors(v.bioTargets, BIO_TEMPLATE, BioErrors);
    PushedErrors(v.moodTargets, MOOD_TEMPLATE, MoodErrors);
    PushedErrors(v.geoTargets, GEO_TEMPLATE, GeoErrors);
    var g := Validate(v.(geoTargets := Pushed(v.geoTargets, GEO_TEMPLATE)));
    assert g.geoTargets[|g.geoTargets| - 1] == GeoErrors(GEO_TEMPLATE);
  }

  /** The request the submit handler sends: create for a new record, update otherwise. */
  function SaveRequest(values: Advertisement, isNew: bool): (r: Result<HttpRequest, string>)
    ensures isNew ==> r.Ok? && r.value.Post? && r.value.url == API_URL && r.value.body == AdvertisementBody(values)
    ensures !isNew ==> (r.Ok? <==> TruthyNumber(values.id))
    ensures !isNew && r.Ok? ==>
      r.value.Put? && r.value.url == AdvertisementUrl(values.id.value) && r.value.body == AdvertisementBody(values)
  {
    if isNew then Ok(CreateAdvertisement(values)) else UpdateAdvertisement(values)
  }

  /** The message shown when saving fails. */
  function SaveFailed(isNew: bool): string {
    if isNew then "Failed to create advertisement. Please try again later."
    else "Failed to update advertisement. Please try again later."
  }

  /** The form component: its props, Formik's values, and its own loading and error state. */
  class AdvertisementForm {
    /** The `advertisement` prop, `EMPTY_ADVERTISEMENT` when none is given. */
    const advertisement: Advertisement
    /** Whether an `onSuccess` callback was given. */
    const hasOnSuccess: bool
    var values: Advertisement
    var loading: bool
    var error: Option<string>
    /** The records handed to `onSuccess`, oldest first. */
    var delivered: seq<Advertisement>

    constructor (advertisement: Option<Advertisement>, hasOnSuccess: bool)
      ensures this.advertisement == advertisement.GetOr(EMPTY_ADVERTISEMENT) && this.hasOnSuccess == hasOnSuccess
      ensures values == this.advertisement && !loading && error.None? && delivered == []
    {
      this.advertisement := advertisement.GetOr(EMPTY_ADVERTISEMENT);
      this.hasOnSuccess := hasOnSuccess;
      values := advertisement.GetOr(EMPTY_ADVERTISEMENT);
      loading, error, delivered := false, None, [];
    }

    /** `isNewAdvertisement`: decided by the prop's id, not by the edited values. */
    predicate IsNewAdvertisement() {
      !TruthyNumber(advertisement.id)
    }

    /** The geo "Add" button. */
    method PushGeoTarget()
      modifies this
      ensures values == old(values).(geoTargets := Pushed(old(values).geoTargets, GEO_TEMPLATE))
      ensures loading == old(loading) && error == old(error) && delivered == old(delivered)
    {
      values := values.(geoTargets := Pushed(values.geoTargets, GEO_TEMPLATE));
    }

    /** The bio "Add" button. */
    method PushBioTarget()
      modifies this
      ensures values == old(values).(bioTargets := Pushed(old(values).bioTargets, BIO_TEMPLATE))
      ensures loading == old(loading) && error == old(error) && delivered == old(delivered)
    {
      values := values.(bioTargets := Pushed(values.bioTargets, BIO_TEMPLATE));
    }

    /** The mood "Add" button. */
    method PushMoodTarget()
      modifies this
      ensures values == old(values).(moodTargets := Pushed(old(values).moodTargets, MOOD_TEMPLATE))
      ensures loading == old(loading) && error == old(error) && delivered == old(delivered)
    {
      values := values.(moodTargets := Pushed(values.moodTargets, MOOD_TEMPLATE));
    }

    /** The delete icon of geo rule `index`. */
    method RemoveGeoTarget(index: nat)
      modifies this
      ensures values == old(values).(geoTargets := Removed(old(values).geoTargets, index))
      ensures loading == old(loading) && error == old(error) && delivered == old(delivered)
    {
      values := values.(geoTargets := Removed(values.geoTargets, index));
    }

    /** The delete icon of bio rule `index`. */
    method RemoveBioTarget(index: nat)
      modifies this
      ensures values == old(values).(bioTargets := Removed(old(values).bioTargets, index))
      ensures loading == old(loading) && error == old(error) && delivered == old(delivered)
    {
      values := values.(bioTargets := Removed(values.bioTargets, index));
    }

    /** The delete icon of mood rule `index`. */
    method RemoveMoodTarget(index: nat)
      modifies this
      ensures values == old(values).(moodTargets := Removed(old(values).moodTargets, index))
      ensures loading == old(loading) && error == old(error) && delivered == old(delivered)
    {
      values := values.(moodTargets := Removed(values.moodTargets, index));
    }

    /**
     * The submit button: Formik validates first and calls `handleSubmit` only on a valid form.
     * `handleSubmit` clears the error, sends the create or update request, gets `reply` (the
     * saved record, or a failure) and hands the record to `onSuccess`; a refused update or a
     * failed request sets the error instead. Loading is off again at the end.
     */
    method Submit(reply: Result<Advertisement, string>) returns (request: Option<HttpRequest>)
      modifies this
      ensures values == old(values)
      ensures !NoErrors(Validate(values)) ==>
        request.None? && loading == old(loading) && error == old(error) && delivered == old(delivered)
      ensures NoErrors(Validate(values)) ==>
        var save := SaveRequest(values, IsNewAdvertisement());
        && request == (if save.Ok? then Some(save.value) else None)
        && !loading
        && (save.Ok? && reply.Ok? ==>
              error.None? && delivered == old(delivered) + (if hasOnSuccess then [reply.value] else []))
        && (save.Err? || reply.Err? ==>
              error == Some(SaveFailed(IsNewAdvertisement())) && delivered == old(delivered))
    {
      if !NoErrors(Validate(values)) {
        return None;
      }
      loading := true;
      error := None;
      var save := SaveRequest(values, IsNewAdvertisement());
      if save.Err? {
        request := None;
        error := Some(SaveFailed(IsNewAdvertisement()));
      } else {
        request := Some(save.value);
        if reply.Ok? {
          if hasOnSuccess {
            delivered := delivered + [reply.value];
          }
        } else {
          error := Some(SaveFailed(IsNewAdvertisement()));
        }
      }
      loading := false;
    }
  }
}
