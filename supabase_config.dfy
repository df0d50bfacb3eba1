/**
 * The checks applied to the database client's configuration before the
 * client is created: the project URL is trimmed, stripped of trailing
 * slashes and given a scheme when it has none; the anonymous key is trimmed
 * and must consist of token characters only.
 *
 * The `URL` constructor's verdict is a parameter (`isValidUrl`).
 */
module SupabaseConfig {
  import opened Wrappers
  import opened Text

  const MissingUrlMessage: string := "Missing Supabase URL environment variable"
  const InvalidUrlPrefix: string := "Invalid Supabase URL format: "
  const MissingKeyMessage: string := "Missing Supabase anon key environment variable"
  const InvalidKeyMessage: string := "Invalid Supabase anon key format"

  /** `url.trim().replace(/\/+$/, '')`. */
  function CleanUrl(url: string): (r: string)
    ensures |r| <= |Trim(url)| && r == Trim(url)[..|r|]
    ensures r == [] || r[|r| - 1] != '/'
    ensures forall k :: |r| <= k < |Trim(url)| ==> Trim(url)[k] == '/'
  {
    StripTrailingSlashes(Trim(url))
  }

  /** `cleanUrl.startsWith('http') ? cleanUrl : `https://${cleanUrl}``. */
  function WithProtocol(clean: string): (r: string)
    ensures StartsWith(r, "http")
    ensures StartsWith(clean, "http") ==> r == clean
    ensures !StartsWith(clean, "http") ==> r == "https://" + clean
  {
    if StartsWith(clean, "http") then clean else "https://" + clean
  }

  /** `validateSupabaseUrl`: the normalised URL, or the message of the error it throws. */
  function ValidateUrl(url: Option<string>, isValidUrl: string -> bool): (r: Result<string, string>)
    ensures url.None? || url.value == "" ==> r == Failure(MissingUrlMessage)
    ensures url.Some? && url.value != "" ==>
              var candidate := WithProtocol(CleanUrl(url.value));
              && (r.Success? <==> isValidUrl(candidate))
              && (r.Success? ==> r.value == candidate)
              && (r.Failure? ==> r.error == InvalidUrlPrefix + url.value)
  {
    if url.None? || url.value == "" then Failure(MissingUrlMessage)
    else
      var candidate := WithProtocol(CleanUrl(url.value));
      if isValidUrl(candidate) then Success(candidate) else Failure(InvalidUrlPrefix + url.value)
  }

  /** An accepted URL always has a scheme and never ends in `/` unless it is the bare added scheme. */
  lemma AcceptedUrlShape(url: Option<string>, isValidUrl: string -> bool)
    requires ValidateUrl(url, isValidUrl).Success?
    ensures StartsWith(ValidateUrl(url, isValidUrl).value, "http")
    ensures var u := ValidateUrl(url, isValidUrl).value;
            u[|u| - 1] != '/' || u == "https://"
  {
    var clean := CleanUrl(url.value);
    var u := ValidateUrl(url, isValidUrl).value;
    if !StartsWith(clean, "http") && clean != [] {
      assert u[|u| - 1] == clean[|clean| - 1];
    }
  }

  /**
   * A normalised URL is a fixed point: when an accepted URL does not end in
   * whitespace or `/`, validating it again returns it unchanged.
   */
  lemma ValidateUrlIdempotent(url: Option<string>, isValidUrl: string -> bool)
    requires ValidateUrl(url, isValidUrl).Success?
    requires var u := ValidateUrl(url, isValidUrl).value;
             !IsWhitespace(u[|u| - 1]) && u[|u| - 1] != '/'
    ensures ValidateUrl(Some(ValidateUrl(url, isValidUrl).value), isValidUrl) == ValidateUrl(url, isValidUrl)
  {
    var u := ValidateUrl(url, isValidUrl).value;
    assert StartsWith(u, "http");
    assert !IsWhitespace(u[0]);
    TrimOfTrimmed(u);
    assert CleanUrl(u) == u;
  }

  /** A character of the key pattern `[a-zA-Z0-9._-]`. */
  predicate KeyChar(c: char) {
    ('a' <= c <= 'z') || ('A' <= c <= 'Z') || ('0' <= c <= '9') || c == '.' || c == '_' || c == '-'
  }

  /** `/^[a-zA-Z0-9._-]+$/.test(s)`, matched one character at a time. */
  function MatchesKeyPattern(s: string): (r: bool)
    ensures r <==> s != [] && forall k :: 0 <= k < |s| ==> KeyChar(s[k])
  {
    if s == [] then false
    else if !KeyChar(s[0]) then false
    else
      var rest := s[1..];
      assert forall k :: 1 <= k < |s| ==> s[k] == rest[k - 1];
      rest == [] || MatchesKeyPattern(rest)
  }

  /** `validateSupabaseKey`: the trimmed key, or the message of the error it throws. */
  function ValidateKey(key: Option<string>): (r: Result<string, string>)
    ensures key.None? || key.value == "" ==> r == Failure(MissingKeyMessage)
    ensures key.Some? && key.value != "" ==>
              && (r.Success? <==> MatchesKeyPattern(Trim(key.value)))
              && (r.Success? ==> r.value == Trim(key.value))
              && (r.Failure? ==> r.error == InvalidKeyMessage)
  {
    if key.None? || key.value == "" then Failure(MissingKeyMessage)
    else
      var trimmed := Trim(key.value);
      if MatchesKeyPattern(trimmed) then Success(trimmed) else Failure(InvalidKeyMessage)
  }

  /** A blank key is rejected as malformed, not as missing. */
  lemma BlankKeyIsInvalid(key: string)
    requires key != "" && AllWhitespace(key)
    ensures ValidateKey(Some(key)) == Failure(InvalidKeyMessage)
  {
    TrimEmptyIff(key);
  }

  /** An accepted key contains no whitespace, so it is accepted again unchanged. */
  lemma ValidateKeyIdempotent(key: Option<string>)
    requires ValidateKey(key).Success?
    ensures ValidateKey(Some(ValidateKey(key).value)) == ValidateKey(key)
  {
    var k := ValidateKey(key).value;
    assert KeyChar(k[0]) && KeyChar(k[|k| - 1]);
    TrimOfTrimmed(k);
  }
}
