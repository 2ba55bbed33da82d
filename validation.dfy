/** `ValidationService.validateUrl`: protocol prefixing, the URL-schema check with
    its length bound, and the TLD blacklist. Every failure is a returned value. */
module Validation {
  import opened Wrappers
  import opened Strings
  import opened Url

  const MAX_URL_LENGTH := 2048
  const INVALID_TLDS: seq<string> := [".xyz", ".tk", ".ml"]
  const INVALID_URL_MESSAGE := "Please enter a valid URL"
  const UNSUPPORTED_TLD_MESSAGE := "Domain TLD not supported"

  /** `{ isValid, error? }`; the source's result type has no `normalizedUrl` field. */
  datatype ValidationResult = ValidationResult(isValid: bool, error: Option<string>)

  /** An input starting with `http` is kept, any other gets `https://` in front. */
  function WithProtocol(url: string): (r: string)
    ensures StartsWith(url, "http") ==> r == url
    ensures !StartsWith(url, "http") ==> r == "https://" + url
    ensures StartsWith(r, "http")
  {
    if StartsWith(url, "http") then url
    else
      assert ("https://" + url)[..4] == "http";
      "https://" + url
  }

  /** The zod schema `z.string().url().max(2048)`. */
  predicate PassesSchema(s: string) {
    ParseUrl(s).Some? && |s| <= MAX_URL_LENGTH
  }

  predicate HasBlockedTld(hostname: string) {
    exists i :: 0 <= i < |INVALID_TLDS| && EndsWith(hostname, INVALID_TLDS[i])
  }

  function ValidateUrl(url: string): (r: ValidationResult)
    ensures r.isValid <==> r.error.None?
    ensures r.isValid ==> r == ValidationResult(true, None)
    ensures r.error == Some(INVALID_URL_MESSAGE) <==> !PassesSchema(WithProtocol(url))
    ensures r.error == Some(UNSUPPORTED_TLD_MESSAGE) <==>
              PassesSchema(WithProtocol(url)) && HasBlockedTld(ParseUrl(WithProtocol(url)).value.hostname)
    ensures r.error.Some? ==> r.error == Some(INVALID_URL_MESSAGE) || r.error == Some(UNSUPPORTED_TLD_MESSAGE)
  {
    var candidate := WithProtocol(url);
    if !PassesSchema(candidate) then ValidationResult(false, Some(INVALID_URL_MESSAGE))
    else if HasBlockedTld(ParseUrl(candidate).value.hostname) then ValidationResult(false, Some(UNSUPPORTED_TLD_MESSAGE))
    else ValidationResult(true, None)
  }

  /** Prefixing is idempotent: writing the `https://` yourself changes nothing. */
  lemma PrefixingIsTransparent(url: string)
    requires !StartsWith(url, "http")
    ensures ValidateUrl(url) == ValidateUrl("https://" + url)
  {
    assert WithProtocol("https://" + url) == "https://" + url;
  }

  /** A bare host name is accepted once prefixed, unless its TLD is blacklisted. */
  lemma BareHostIsPrefixedAndChecked(host: string)
    requires PlainHost(host) && !StartsWith(host, "http")
    requires |host| + 8 <= MAX_URL_LENGTH
    ensures !HasBlockedTld(ToLower(host)) ==> ValidateUrl(host) == ValidationResult(true, None)
    ensures HasBlockedTld(ToLower(host)) ==> ValidateUrl(host) == ValidationResult(false, Some(UNSUPPORTED_TLD_MESSAGE))
  {
    assert ValidScheme("https");
    PlainHostParses("https", host);
    assert "https://" + host == "https" + "://" + host;
  }

  /** An input longer than the bound is refused as not a valid URL. */
  lemma OverlongIsRefused(url: string)
    requires |url| > MAX_URL_LENGTH
    ensures ValidateUrl(url) == ValidationResult(false, Some(INVALID_URL_MESSAGE))
  {
  }
}
