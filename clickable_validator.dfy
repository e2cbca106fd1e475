/**
 * The class-level constraint on advertisement DTOs that a clickable ad carries an
 * http or https target link (infrastructure/web/validation/ClickableAdvertisementValidator.java).
 */
module ClickableValidation {
  import opened Wrappers
  import opened JavaStrings
  import WebMapper

  const URL_REQUIRED := "Target URL is required for clickable advertisements"
  const URL_SCHEME := "Target URL must start with http:// or https://"

  /** The verdict of `isValid`, with the violation it attaches to the property node. */
  datatype Verdict = Valid | Invalid(property: string, message: string)

  /** The link starts with one of the two accepted schemes, in any letter case. */
  predicate HasWebScheme(url: string) {
    StartsWith(ToLower(url), "http://") || StartsWith(ToLower(url), "https://")
  }

  /** `isValid`. */
  function IsValid(dto: Option<WebMapper.AdvertisementDto>): (r: Verdict)
    ensures r.Valid? <==>
      dto.None? || !dto.value.clickable || (dto.value.targetUrl.Some? && Trim(dto.value.targetUrl.value) != [] &&
                                            HasWebScheme(dto.value.targetUrl.value))
    ensures r.Invalid? ==> r.property == "targetUrl"
    ensures r.Invalid? ==> (r.message == URL_REQUIRED <==> dto.value.targetUrl.None? || Trim(dto.value.targetUrl.value) == [])
    ensures r.Invalid? ==> (r.message == URL_SCHEME <==> dto.value.targetUrl.Some? && Trim(dto.value.targetUrl.value) != [])
  {
    if dto.None? then Valid
    else if !dto.value.clickable then Valid
    else
      var url := dto.value.targetUrl;
      if url.None? || Trim(url.value) == [] then Invalid("targetUrl", URL_REQUIRED)
      else if !HasWebScheme(url.value) then Invalid("targetUrl", URL_SCHEME)
      else Valid
  }

  /** Lower-casing only rewrites 'A'..'Z', so the scheme test ignores letter case. */
  lemma SchemeIgnoresCase(a: string, b: string)
    requires EqualsIgnoreCase(a, b)
    ensures HasWebScheme(a) <==> HasWebScheme(b)
  {
    assert ToLower(a) == ToLower(b) by {
      EqualsIgnoreCaseIffSameUpper(a, b);
      LowerOfSameUpper(a, b);
    }
  }

  /** Two strings with the same upper-case form have the same lower-case form. */
  lemma LowerOfSameUpper(a: string, b: string)
    requires ToUpper(a) == ToUpper(b)
    ensures ToLower(a) == ToLower(b)
  {
    assert |a| == |ToUpper(a)| == |ToUpper(b)| == |b|;
    forall i | 0 <= i < |a| ensures ToLower(a)[i] == ToLower(b)[i] {
      assert UpperChar(a[i]) == ToUpper(a)[i] == ToUpper(b)[i] == UpperChar(b[i]);
    }
  }

  /** A link that begins with a blank has neither scheme. */
  lemma BlankStartHasNoScheme(url: string)
    requires |url| > 0 && url[0] == ' '
    ensures !HasWebScheme(url)
  {
    assert ToLower(url)[0] == ' ';
  }

  /** Prefixing blanks does not make a link blank. */
  lemma PrefixedNotBlank(rest: string)
    requires Trim(rest) != []
    ensures Trim(" " + rest) != []
  {
    var url := " " + rest;
    TrimWithEmptyIff(rest, IsTrimmable);
    TrimWithEmptyIff(url, IsTrimmable);
    var i :| 0 <= i < |rest| && !IsTrimmable(rest[i]);
    assert url[i + 1] == rest[i];
  }

  /** The scheme is tested on the untrimmed link: a leading blank makes a clickable ad invalid. */
  lemma LeadingBlankRejected(dto: WebMapper.AdvertisementDto, rest: string)
    requires dto.clickable && dto.targetUrl == Some(" " + rest) && Trim(rest) != []
    ensures IsValid(Some(dto)) == Invalid("targetUrl", URL_SCHEME)
  {
    BlankStartHasNoScheme(" " + rest);
    PrefixedNotBlank(rest);
  }
}
