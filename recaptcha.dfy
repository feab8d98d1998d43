/** The reCAPTCHA client: it builds the two challenge URLs and the markup that
    shows a challenge, and it asks the verification service whether a solution
    is correct and turns the answer into a boolean or a typed error. */
module Recaptcha {
  import opened Wrappers
  import opened Strings
  import opened Urls
  import opened FormEncoding

  // ---------------------------------------------------------------- constants

  /** The root of the service's API. */
  const ApiUrl: string := "http://www.google.com/recaptcha/api/"
  const ApiHost: string := "www.google.com"
  const ApiBasePath: string := "/recaptcha/api/"

  const VerificationRelativePath: string := "verify"
  const JavascriptChallengeRelativePath: string := "challenge"
  const NoscriptChallengeRelativePath: string := "noscript"

  const ClientUserAgent: string :=
    "2degrees reCAPTCHA Client (https://github.com/2degrees/python-recaptcha)"

  /** The error code the service gives for a wrong answer; the challenge query
      repeats it after one. */
  const IncorrectSolutionCode: Text := "incorrect-captcha-sol"
  const InvalidChallengeCode: string := "invalid-request-cookie"
  const InvalidPrivateKeyCode: string := "invalid-site-private-key"

  // ------------------------------------------------------------- API call URL

  /** `ApiUrl` as `urlsplit` reads it. */
  function ApiUrlComponents(): (u: Url)
    ensures Split(ApiUrl) == Some(u)
  {
    var u := Url("http", ApiHost, ApiBasePath, "", "");
    ApiUrlUnsplit();
    SplitUnsplit(u);
    u
  }

  lemma ApiUrlUnsplit()
    ensures WellFormed(Url("http", ApiHost, ApiBasePath, "", ""))
    ensures Unsplit(Url("http", ApiHost, ApiBasePath, "", "")) == ApiUrl
  {
    ApiUrlWellFormed();
    ApiUrlText();
  }

  lemma ApiUrlWellFormed()
    ensures WellFormed(Url("http", ApiHost, ApiBasePath, "", ""))
  {
  }

  lemma ApiUrlText()
    ensures Unsplit(Url("http", ApiHost, ApiBasePath, "", "")) == ApiUrl
  {
    var u := Url("http", ApiHost, ApiBasePath, "", "");
    assert Tail(u) == ApiBasePath;
    SchemeAuthorityJoin("http", ApiHost, ApiBasePath);
    HttpApiPrefix();
  }

  lemma SchemeAuthorityJoin(scheme: string, netloc: string, tail: string)
    ensures scheme + ":" + ("//" + (netloc + tail)) == scheme + "://" + netloc + tail
  {
  }

  function Scheme(useSsl: bool): string {
    if useSsl then "https" else "http"
  }

  /** A relative path that `urljoin` puts after the base path, and that the
      URL reader gives back as a path. */
  predicate IsRelativeSegment(relativePath: string) {
    (relativePath == "" || relativePath[0] != '/') && NoneOf(relativePath, {'?', '#'})
  }

  /** The URL of an API call: the scheme chosen by `useSsl`, the API host, the
      API base path joined with `relativePath`, the given encoded query and no
      fragment. */
  function ApiCallUrl(useSsl: bool, relativePath: string, encodedQuery: string): (url: string)
    ensures relativePath == "" || relativePath[0] != '/' ==>
              Scheme(useSsl) + "://" + ApiHost + ApiBasePath <= url
    ensures IsRelativeSegment(relativePath) && NoneOf(encodedQuery, {'#'}) ==>
              Split(url) == Some(Url(Scheme(useSsl), ApiHost, ApiBasePath + relativePath, encodedQuery, ""))
  {
    var root := ApiUrlComponents();
    ApiUrlRoot(root);
    ApiCallUrlFacts(useSsl, relativePath, encodedQuery);
    Unsplit(Url(Scheme(useSsl), root.netloc, JoinPath(root.path, relativePath), encodedQuery, ""))
  }

  /** The only components `ApiUrl` reads back as. */
  lemma ApiUrlRoot(root: Url)
    requires Split(ApiUrl) == Some(root)
    ensures root == Url("http", ApiHost, ApiBasePath, "", "")
  {
    ApiUrlUnsplit();
    SplitUnsplit(Url("http", ApiHost, ApiBasePath, "", ""));
  }

  lemma ApiCallUrlFacts(useSsl: bool, relativePath: string, encodedQuery: string)
    ensures var url := Unsplit(Url(Scheme(useSsl), ApiHost, JoinPath(ApiBasePath, relativePath), encodedQuery, ""));
            && (relativePath == "" || relativePath[0] != '/' ==>
                  Scheme(useSsl) + "://" + ApiHost + ApiBasePath <= url)
            && (IsRelativeSegment(relativePath) && NoneOf(encodedQuery, {'#'}) ==>
                  Split(url) == Some(Url(Scheme(useSsl), ApiHost, ApiBasePath + relativePath, encodedQuery, "")))
  {
    if relativePath == "" || relativePath[0] != '/' {
      var parts := Url(Scheme(useSsl), ApiHost, ApiBasePath + relativePath, encodedQuery, "");
      JoinUnderDirectory(ApiBasePath, relativePath);
      ApiCallUrlShape(parts);
      ApiCallUrlSplits(parts, relativePath);
    }
  }

  /** A URL on the API host under the API base path starts with scheme, host and base path. */
  lemma ApiCallUrlShape(parts: Url)
    requires parts.netloc == ApiHost && ApiBasePath <= parts.path
    ensures parts.scheme + "://" + ApiHost + ApiBasePath <= Unsplit(parts)
  {
    var prefix := parts.scheme + "://" + ApiHost;
    assert Unsplit(parts) == prefix + Tail(parts);
    assert parts.path <= Tail(parts);
  }

  lemma ApiCallUrlSplits(parts: Url, relativePath: string)
    requires parts.scheme != "" && NoneOf(parts.scheme, {':'}) && parts.netloc == ApiHost
    requires parts.path == ApiBasePath + relativePath
    ensures IsRelativeSegment(relativePath) && NoneOf(parts.query, {'#'}) ==> Split(Unsplit(parts)) == Some(parts)
  {
    if IsRelativeSegment(relativePath) && NoneOf(parts.query, {'#'}) {
      ApiCallPathWellFormed(relativePath);
      SplitUnsplit(parts);
    }
  }

  lemma ApiCallPathWellFormed(relativePath: string)
    requires IsRelativeSegment(relativePath)
    ensures NoneOf(ApiBasePath + relativePath, {'?', '#'})
  {
    var path := ApiBasePath + relativePath;
    forall n | 0 <= n < |path| ensures path[n] !in {'?', '#'} {
      if n >= |ApiBasePath| { assert path[n] == relativePath[n - |ApiBasePath|]; }
    }
  }

  // ------------------------------------------------------------------- client

  /** A client's configuration, set once when it is created and never changed. */
  datatype Client = Client(
    privateKey: Text,
    publicKey: Text,
    optionsJson: string,
    verificationTimeout: Option<real>)

  /** Creates a client. `serializedOptions` is the JSON text of the rendering
      options when a non-empty mapping is given; without one the options are
      the empty JSON object. */
  function NewClient(
    privateKey: Text, publicKey: Text, serializedOptions: Option<string>, verificationTimeout: Option<real>
  ): (c: Client)
    ensures c.privateKey == privateKey && c.publicKey == publicKey
    ensures c.verificationTimeout == verificationTimeout
    ensures serializedOptions.None? ==> c.optionsJson == "{}"
    ensures serializedOptions.Some? ==> c.optionsJson == serializedOptions.value
  {
    Client(privateKey, publicKey, if serializedOptions.Some? then serializedOptions.value else "{}", verificationTimeout)
  }

  // ----------------------------------------------------------- challenge URLs

  /** The query both challenge URLs carry: the public key as `k`, and after a
      wrong answer `error=incorrect-captcha-sol`. */
  function ChallengeQuery(publicKey: Text, wasPreviousSolutionIncorrect: bool): (q: string)
    ensures NoneOf(q, {'#'})
  {
    UrlEncode(ChallengeQueryPairs(publicKey, wasPreviousSolutionIncorrect))
  }

  function ChallengeQueryPairs(publicKey: Text, wasPreviousSolutionIncorrect: bool): seq<(Text, Text)>
  {
    if wasPreviousSolutionIncorrect then [("k", publicKey), ("error", IncorrectSolutionCode)]
    else [("k", publicKey)]
  }

  /** Read back with `parse_qs`, the challenge query holds the public key under
      `k` (when it is not empty, since blank values are dropped) and holds
      `error` exactly when the previous solution was incorrect. */
  lemma ChallengeQueryValues(publicKey: Text, wasPreviousSolutionIncorrect: bool)
    ensures var q := ChallengeQuery(publicKey, wasPreviousSolutionIncorrect);
            && QueryValues(q, "k") == (if publicKey == [] then [] else [AsString(publicKey)])
            && QueryValues(q, "error") == (if wasPreviousSolutionIncorrect then [AsString(IncorrectSolutionCode)] else [])
  {
    if wasPreviousSolutionIncorrect {
      QueryValuesAfterWrongAnswer(publicKey);
    } else {
      QueryValuesFirstAttempt(publicKey);
    }
  }

  lemma QueryValuesAfterWrongAnswer(publicKey: Text)
    ensures var q := ChallengeQuery(publicKey, true);
            && QueryValues(q, "k") == (if publicKey == [] then [] else [AsString(publicKey)])
            && QueryValues(q, "error") == [AsString(IncorrectSolutionCode)]
  {
    var pairs := ChallengeQueryPairs(publicKey, true);
    assert |pairs[0].0| != |pairs[1].0|;
    EncodedValue(pairs, 0);
    EncodedValue(pairs, 1);
  }

  lemma QueryValuesFirstAttempt(publicKey: Text)
    ensures var q := ChallengeQuery(publicKey, false);
            && QueryValues(q, "k") == (if publicKey == [] then [] else [AsString(publicKey)])
            && QueryValues(q, "error") == []
  {
    var pairs := ChallengeQueryPairs(publicKey, false);
    EncodedValue(pairs, 0);
    ParseUrlEncode(pairs);
    assert |pairs[0].0| != |"error"|;
    LookupAbsent(pairs, "error");
  }

  lemma LookupAppend(a: seq<(string, string)>, b: seq<(string, string)>, name: string)
    ensures Lookup(a + b, name) == Lookup(a, name) + Lookup(b, name)
  {
    if a != [] {
      assert (a + b)[1..] == a[1..] + b;
      LookupAppend(a[1..], b, name);
    } else {
      assert a + b == b;
    }
  }

  datatype ChallengeUrls = ChallengeUrls(javascriptChallengeUrl: string, noscriptChallengeUrl: string)

  /** The script and no-script challenge URLs: same scheme, host and query,
      paths "challenge" and "noscript" under the API base path. */
  function GetChallengeUrls(c: Client, wasPreviousSolutionIncorrect: bool, useSsl: bool): (urls: ChallengeUrls)
    ensures var q := ChallengeQuery(c.publicKey, wasPreviousSolutionIncorrect);
            && Split(urls.javascriptChallengeUrl)
               == Some(Url(Scheme(useSsl), ApiHost, "/recaptcha/api/challenge", q, ""))
            && Split(urls.noscriptChallengeUrl)
               == Some(Url(Scheme(useSsl), ApiHost, "/recaptcha/api/noscript", q, ""))
    ensures var prefix := if useSsl then "https://www.google.com/recaptcha/api/" else ApiUrl;
            prefix <= urls.javascriptChallengeUrl && prefix <= urls.noscriptChallengeUrl
  {
    var query := ChallengeQuery(c.publicKey, wasPreviousSolutionIncorrect);
    ChallengePathsAreSegments();
    ChallengeUrlPrefixes();
    ChallengeUrls(
      ApiCallUrl(useSsl, JavascriptChallengeRelativePath, query),
      ApiCallUrl(useSsl, NoscriptChallengeRelativePath, query))
  }

  lemma ChallengePathsAreSegments()
    ensures IsRelativeSegment(JavascriptChallengeRelativePath) && IsRelativeSegment(NoscriptChallengeRelativePath)
    ensures ApiBasePath + JavascriptChallengeRelativePath == "/recaptcha/api/challenge"
    ensures ApiBasePath + NoscriptChallengeRelativePath == "/recaptcha/api/noscript"
  {
  }

  lemma ChallengeUrlPrefixes()
    ensures Scheme(false) + "://" + ApiHost + ApiBasePath == ApiUrl
    ensures Scheme(true) + "://" + ApiHost + ApiBasePath == "https://www.google.com/recaptcha/api/"
  {
    HttpApiPrefix();
    HttpsApiPrefix();
  }

  lemma HttpApiPrefix()
    ensures "http" + "://" + ApiHost + ApiBasePath == ApiUrl
  {
  }

  lemma HttpsApiPrefix()
    ensures "https" + "://" + ApiHost + ApiBasePath == "https://www.google.com/recaptcha/api/"
  {
  }

  /** What a reader of the two challenge URLs finds: the same scheme, host and
      query, different paths, the public key under `k`, and `error` only after
      a wrong answer. */
  lemma ChallengeUrlsAgree(c: Client, wasPreviousSolutionIncorrect: bool, useSsl: bool)
    ensures var urls := GetChallengeUrls(c, wasPreviousSolutionIncorrect, useSsl);
            var js := Split(urls.javascriptChallengeUrl);
            var ns := Split(urls.noscriptChallengeUrl);
            && js.Some? && ns.Some?
            && js.value.scheme == ns.value.scheme == Scheme(useSsl)
            && js.value.netloc == ns.value.netloc == ApiHost
            && js.value.query == ns.value.query
            && js.value.path != ns.value.path
            && QueryValues(js.value.query, "k") == (if c.publicKey == [] then [] else [AsString(c.publicKey)])
            && (QueryValues(js.value.query, "error") != [] <==> wasPreviousSolutionIncorrect)
  {
    assert |"/recaptcha/api/challenge"| != |"/recaptcha/api/noscript"|;
    ChallengeQueryValues(c.publicKey, wasPreviousSolutionIncorrect);
  }

  // ------------------------------------------------------------------- markup

  /** A piece of a `str.format` template: literal text or a named field. */
  datatype Piece = Literal(text: string) | Field(name: string)

  /** `template.format(**vars)`: each field is replaced by its value; the first
      field without a value raises `KeyError` with its name. */
  function Format(template: seq<Piece>, vars: map<string, string>): (r: Result<string, string>)
    ensures r.Success? <==> forall i :: 0 <= i < |template| && template[i].Field? ==> template[i].name in vars
    ensures r.Failure? ==> r.error !in vars
  {
    if template == [] then Success("")
    else
      var first := Render(template[0], vars);
      if first.Failure? then first
      else
        var rest := Format(template[1..], vars);
        if rest.Failure? then rest else Success(first.value + rest.value)
  }

  /** One piece of a template, formatted: its text, or the value of its field. */
  function Render(piece: Piece, vars: map<string, string>): Result<string, string>
  {
    match piece
    case Literal(text) => Success(text)
    case Field(name) => if name in vars then Success(vars[name]) else Failure(name)
  }

  const MarkupOpening: string :=
    "\n<script type=\"text/javascript\">\n    var RecaptchaOptions = "
  const MarkupBeforeScriptUrl: string :=
    ";\n</script>\n<script\n    type=\"text/javascript\"\n    src=\""
  const MarkupBeforeNoscriptUrl: string :=
    "\"\n    >\n</script>\n<noscript>\n   <iframe\n       src=\""
  const MarkupClosing: string :=
    "\"\n       height=\"300\"\n       width=\"500\"\n       frameborder=\"0\"\n       >\n"
    + "   </iframe>\n   <br />\n"
    + "   <textarea name=\"recaptcha_challenge_field\" rows=\"3\" cols=\"40\"></textarea>\n"
    + "   <input\n       type=\"hidden\"\n       name=\"recaptcha_response_field\"\n"
    + "       value=\"manual_challenge\"\n       />\n</noscript>\n"

  /** The challenge markup template: an options script, a script loading the
      challenge, and a no-script fallback with an iframe and the two form fields. */
  const ChallengeMarkupTemplate: seq<Piece> := [
    Literal(MarkupOpening), Field("recaptcha_options_json"),
    Literal(MarkupBeforeScriptUrl), Field("javascript_challenge_url"),
    Literal(MarkupBeforeNoscriptUrl), Field("noscript_challenge_url"),
    Literal(MarkupClosing)]

  /** `markup` is the template's text with `json`, `js` and `ns` in its three slots. */
  predicate FillsTemplate(markup: string, json: string, js: string, ns: string) {
    var a := |MarkupOpening|;
    var b := a + |json| + |MarkupBeforeScriptUrl|;
    var d := b + |js| + |MarkupBeforeNoscriptUrl|;
    var e := d + |ns|;
    && |markup| == e + |MarkupClosing|
    && markup[..a] == MarkupOpening
    && markup[a..a + |json|] == json
    && markup[a + |json|..b] == MarkupBeforeScriptUrl
    && markup[b..b + |js|] == js
    && markup[b + |js|..d] == MarkupBeforeNoscriptUrl
    && markup[d..e] == ns
    && markup[e..] == MarkupClosing
  }

  /** The markup showing a challenge: the options JSON and the two challenge
      URLs, each in its slot of the template. */
  function GetChallengeMarkup(c: Client, wasPreviousSolutionIncorrect: bool, useSsl: bool): (markup: string)
    ensures var urls := GetChallengeUrls(c, wasPreviousSolutionIncorrect, useSsl);
            FillsTemplate(markup, c.optionsJson, urls.javascriptChallengeUrl, urls.noscriptChallengeUrl)
  {
    var urls := GetChallengeUrls(c, wasPreviousSolutionIncorrect, useSsl);
    var vars := map[
      "recaptcha_options_json" := c.optionsJson,
      "javascript_challenge_url" := urls.javascriptChallengeUrl,
      "noscript_challenge_url" := urls.noscriptChallengeUrl];
    FillChallengeTemplate(c.optionsJson, urls.javascriptChallengeUrl, urls.noscriptChallengeUrl);
    Format(ChallengeMarkupTemplate, vars).value
  }

  lemma FillChallengeTemplate(json: string, js: string, ns: string)
    ensures Format(ChallengeMarkupTemplate, map[
              "recaptcha_options_json" := json,
              "javascript_challenge_url" := js,
              "noscript_challenge_url" := ns])
            == Success(MarkupOpening + json + MarkupBeforeScriptUrl + js + MarkupBeforeNoscriptUrl + ns + MarkupClosing)
    ensures FillsTemplate(MarkupOpening + json + MarkupBeforeScriptUrl + js + MarkupBeforeNoscriptUrl + ns + MarkupClosing,
                          json, js, ns)
  {
    SlotsOfSeven(MarkupOpening, json, MarkupBeforeScriptUrl, js, MarkupBeforeNoscriptUrl, ns, MarkupClosing);
    var vars := map[
      "recaptcha_options_json" := json,
      "javascript_challenge_url" := js,
      "noscript_challenge_url" := ns];
    assert vars["recaptcha_options_json"] == json;
    assert vars["javascript_challenge_url"] == js;
    assert vars["noscript_challenge_url"] == ns;
    FormatChallengeTemplate(vars);
  }

  lemma FormatChallengeTemplate(vars: map<string, string>)
    requires "recaptcha_options_json" in vars
    requires "javascript_challenge_url" in vars && "noscript_challenge_url" in vars
    ensures Format(ChallengeMarkupTemplate, vars)
            == Success(MarkupOpening + vars["recaptcha_options_json"] + MarkupBeforeScriptUrl
                       + vars["javascript_challenge_url"] + MarkupBeforeNoscriptUrl
                       + vars["noscript_challenge_url"] + MarkupClosing)
  {
    var t := ChallengeMarkupTemplate;
    var json, js, ns := vars["recaptcha_options_json"], vars["javascript_challenge_url"], vars["noscript_challenge_url"];
    FormatStep(t[6..], vars);
    assert |t[6..][1..]| == 0;
    assert Format(t[6..], vars).value == MarkupClosing;
    FormatStep(t[5..], vars);
    assert t[5..][1..] == t[6..];
    FormatStep(t[4..], vars);
    assert t[4..][1..] == t[5..];
    FormatStep(t[3..], vars);
    assert t[3..][1..] == t[4..];
    FormatStep(t[2..], vars);
    assert t[2..][1..] == t[3..];
    FormatStep(t[1..], vars);
    assert t[1..][1..] == t[2..];
    FormatStep(t, vars);
    assert Format(t, vars).value
           == MarkupOpening + (json + (MarkupBeforeScriptUrl + (js + (MarkupBeforeNoscriptUrl + (ns + MarkupClosing)))));
    ConcatSeven(MarkupOpening, json, MarkupBeforeScriptUrl, js, MarkupBeforeNoscriptUrl, ns, MarkupClosing);
  }

  lemma ConcatSeven(a: string, b: string, c: string, d: string, e: string, f: string, g: string)
    ensures a + (b + (c + (d + (e + (f + g))))) == a + b + c + d + e + f + g
  {
  }

  /** One step of `Format`: the first piece's text, then the rest. */
  lemma FormatStep(t: seq<Piece>, vars: map<string, string>)
    requires t != []
    requires forall i :: 0 <= i < |t| && t[i].Field? ==> t[i].name in vars
    ensures Format(t, vars).Success? && Format(t[1..], vars).Success?
    ensures Format(t, vars).value == Render(t[0], vars).value + Format(t[1..], vars).value
  {
  }

  /** Where each of seven concatenated strings sits in the result. */
  lemma SlotsOfSeven(a: string, b: string, c: string, d: string, e: string, f: string, g: string)
    ensures var m := a + b + c + d + e + f + g;
            var i := |a| + |b| + |c|;
            var j := i + |d| + |e|;
            && |m| == j + |f| + |g|
            && m[..|a|] == a
            && m[|a|..|a| + |b|] == b
            && m[|a| + |b|..i] == c
            && m[i..i + |d|] == d
            && m[i + |d|..j] == e
            && m[j..j + |f|] == f
            && m[j + |f|..] == g
  {
  }

  /** The options JSON follows the opening of the markup. */
  lemma MarkupOptionsSlot(c: Client, wasPreviousSolutionIncorrect: bool, useSsl: bool)
    ensures var markup := GetChallengeMarkup(c, wasPreviousSolutionIncorrect, useSsl);
            |MarkupOpening| + |c.optionsJson| <= |markup|
            && markup[|MarkupOpening|..|MarkupOpening| + |c.optionsJson|] == c.optionsJson
  {
    var urls := GetChallengeUrls(c, wasPreviousSolutionIncorrect, useSsl);
    OptionsSlot(GetChallengeMarkup(c, wasPreviousSolutionIncorrect, useSsl),
                c.optionsJson, urls.javascriptChallengeUrl, urls.noscriptChallengeUrl);
  }

  lemma OptionsSlot(markup: string, json: string, js: string, ns: string)
    requires FillsTemplate(markup, json, js, ns)
    ensures |MarkupOpening| + |json| <= |markup| && markup[|MarkupOpening|..|MarkupOpening| + |json|] == json
  {
  }

  /** A client created without options renders the empty JSON object as its options. */
  lemma NoOptionsRenderEmptyObject(privateKey: Text, publicKey: Text, timeout: Option<real>,
                                   wasPreviousSolutionIncorrect: bool, useSsl: bool)
    ensures var markup := GetChallengeMarkup(NewClient(privateKey, publicKey, None, timeout),
                                             wasPreviousSolutionIncorrect, useSsl);
            |MarkupOpening| + 2 <= |markup| && markup[|MarkupOpening|..|MarkupOpening| + 2] == "{}"
  {
    EmptyOptionsSlot(NewClient(privateKey, publicKey, None, timeout), wasPreviousSolutionIncorrect, useSsl);
  }

  lemma EmptyOptionsSlot(c: Client, wasPreviousSolutionIncorrect: bool, useSsl: bool)
    requires c.optionsJson == "{}"
    ensures var markup := GetChallengeMarkup(c, wasPreviousSolutionIncorrect, useSsl);
            |MarkupOpening| + 2 <= |markup| && markup[|MarkupOpening|..|MarkupOpening| + 2] == "{}"
  {
    MarkupOptionsSlot(c, wasPreviousSolutionIncorrect, useSsl);
  }

  // ----------------------------------------------------------------- errors

  /** The exceptions `is_solution_correct` can raise. The first three are the
      client's own (subclasses of `RecaptchaException`); the last is the
      `IndexError` the response parsing raises on a reply it cannot read. */
  datatype ClientError =
    | InvalidPrivateKeyError(privateKey: Text)
    | InvalidChallengeError(challengeId: Text)
    | UnreachableError(reason: string)
    | ResponseIndexError

  predicate IsRecaptchaException(f: ClientError) {
    !f.ResponseIndexError?
  }

  // ------------------------------------------------------------ verification

  /** The service's judgement of a solution. */
  datatype VerificationResult = Correct | Incorrect(errorCode: string)

  /** How `is_solution_correct` turns the service's judgement into its answer:
      true for a correct solution; an invalid challenge or private key is raised
      as its own error, carrying the challenge id or the private key; any
      other error code means a wrong answer. */
  function DecideSolution(c: Client, challengeId: Text, result: VerificationResult): (r: Result<bool, ClientError>)
    ensures r == Success(true) <==> result == Correct
    ensures r == Success(false)
            <==> result.Incorrect? && result.errorCode != InvalidChallengeCode && result.errorCode != InvalidPrivateKeyCode
    ensures r == Failure(InvalidChallengeError(challengeId)) <==> result == Incorrect(InvalidChallengeCode)
    ensures r == Failure(InvalidPrivateKeyError(c.privateKey)) <==> result == Incorrect(InvalidPrivateKeyCode)
    ensures r.Failure? ==> IsRecaptchaException(r.error)
  {
    match result
    case Correct => Success(true)
    case Incorrect(code) =>
      if code == InvalidChallengeCode then Failure(InvalidChallengeError(challengeId))
      else if code == InvalidPrivateKeyCode then Failure(InvalidPrivateKeyError(c.privateKey))
      else Success(false)
  }

  /** What the client asks the service: (solution, challenge id, remote IP) to
      a judgement, or to the error the asking raised. */
  type Verifier = (Text, Text, Text) -> Result<VerificationResult, ClientError>

  /** `is_solution_correct`: an empty solution or challenge id is a wrong
      answer given without asking the service; otherwise the service's
      judgement decides, and an error in asking it is raised unchanged. */
  function IsSolutionCorrect(c: Client, solutionText: Text, challengeId: Text, remoteIp: Text, verify: Verifier)
    : (r: Result<bool, ClientError>)
    ensures solutionText == [] || challengeId == [] ==> r == Success(false)
    ensures r == Success(true) <==>
              solutionText != [] && challengeId != [] && verify(solutionText, challengeId, remoteIp) == Success(Correct)
    ensures solutionText != [] && challengeId != [] ==>
              match verify(solutionText, challengeId, remoteIp)
              case Failure(e) => r == Failure(e)
              case Success(result) => r == DecideSolution(c, challengeId, result)
  {
    if solutionText == [] || challengeId == [] then Success(false)
    else
      match verify(solutionText, challengeId, remoteIp)
      case Failure(e) => Failure(e)
      case Success(result) => DecideSolution(c, challengeId, result)
  }

  /** With an empty solution or challenge id the answer is false whatever the
      service would have said: the service is not consulted. */
  lemma EmptyInputIgnoresVerifier(c: Client, solutionText: Text, challengeId: Text, remoteIp: Text,
                                  verify: Verifier, other: Verifier)
    requires solutionText == [] || challengeId == []
    ensures IsSolutionCorrect(c, solutionText, challengeId, remoteIp, verify)
            == IsSolutionCorrect(c, solutionText, challengeId, remoteIp, other)
            == Success(false)
  {
  }

  // ------------------------------------------------------- response parsing

  /** Reads the service's reply: a first line "true" means correct; any other
      first line means incorrect, with the error code on the second line.
      Indexing a line the reply does not have raises `IndexError`. */
  function ParseVerificationResponse(body: string): (r: Result<VerificationResult, ClientError>)
    ensures r.Failure? ==> r.error == ResponseIndexError
  {
    var lines := SplitLines(body);
    if |lines| == 0 then Failure(ResponseIndexError)
    else if lines[0] == "true" then Success(Correct)
    else if |lines| < 2 then Failure(ResponseIndexError)
    else Success(Incorrect(lines[1]))
  }

  /** The reply the service sends for a judgement: "true", or "false" and the
      error code on the next line; no line break follows the last line. */
  function ServiceReply(result: VerificationResult): string
  {
    match result
    case Correct => "true"
    case Incorrect(code) => "false\n" + code
  }

  /** Reading a reply recovers the judgement it was sent for (an empty error
      code would leave the second line missing). */
  lemma ParseServiceReply(result: VerificationResult)
    requires result.Incorrect? ==> result.errorCode != "" && NoneOf(result.errorCode, LineBreaks)
    ensures ParseVerificationResponse(ServiceReply(result)) == Success(result)
  {
    match result
    case Correct =>
      SplitSingleLine("true");
    case Incorrect(code) =>
      assert JoinLines(["false"]) + code == "false\n" + code;
      SplitJoinLast(["false"], code);
  }

  /** How a reply whose lines are `lines` reads: correct exactly when the first
      line is "true"; an `IndexError` exactly when there is no line, or a
      single line other than "true"; otherwise incorrect, with the second line
      as the error code. */
  predicate ReadFromLines(r: Result<VerificationResult, ClientError>, lines: seq<string>) {
    && (r == Success(Correct) <==> |lines| > 0 && lines[0] == "true")
    && (r.Failure? <==> lines == [] || (lines[0] != "true" && |lines| == 1))
    && (|lines| >= 2 && lines[0] != "true" ==> r == Success(Incorrect(lines[1])))
  }

  lemma ParseSplitResponse(body: string)
    ensures ReadFromLines(ParseVerificationResponse(body), SplitLines(body))
  {
  }

  /** A reply whose every line ends in a line break reads as its lines say. */
  lemma ParseResponseLines(lines: seq<string>)
    requires forall k :: 0 <= k < |lines| ==> NoneOf(lines[k], LineBreaks)
    ensures ReadFromLines(ParseVerificationResponse(JoinLines(lines)), lines)
  {
    SplitJoinLines(lines);
    ParseSplitResponse(JoinLines(lines));
  }

  /** A reply whose last line has no line break after it reads as its lines say. */
  lemma ParseUnterminatedResponseLines(init: seq<string>, last: string)
    requires forall k :: 0 <= k < |init| ==> NoneOf(init[k], LineBreaks)
    requires NoneOf(last, LineBreaks) && last != ""
    ensures ReadFromLines(ParseVerificationResponse(JoinLines(init) + last), init + [last])
  {
    SplitJoinLast(init, last);
    ParseSplitResponse(JoinLines(init) + last);
  }

  // ------------------------------------------------- the verification request

  /** The verification URL as the call was evidently meant: always over https,
      path "verify" under the API base path, no query. */
  function VerificationUrl(): (url: string)
    ensures Split(url) == Some(Url("https", ApiHost, "/recaptcha/api/verify", "", ""))
  {
    VerificationPathIsSegment();
    ApiCallUrl(true, VerificationRelativePath, "")
  }

  lemma VerificationPathIsSegment()
    ensures IsRelativeSegment(VerificationRelativePath)
    ensures ApiBasePath + VerificationRelativePath == "/recaptcha/api/verify"
  {
  }

  /** The form-encoded body of the verification request. Read back with
      `parse_qs`, it carries the private key, the remote IP, the challenge id
      and the solution under their field names (each one that is not empty,
      as blank values are dropped). */
  function VerificationRequestData(c: Client, solutionText: Text, challengeId: Text, remoteIp: Text): (data: string)
    ensures QueryValues(data, "privatekey") == (if c.privateKey == [] then [] else [AsString(c.privateKey)])
    ensures QueryValues(data, "remoteip") == (if remoteIp == [] then [] else [AsString(remoteIp)])
    ensures QueryValues(data, "challenge") == (if challengeId == [] then [] else [AsString(challengeId)])
    ensures QueryValues(data, "response") == (if solutionText == [] then [] else [AsString(solutionText)])
  {
    var pairs := VerificationRequestPairs(c, solutionText, challengeId, remoteIp);
    RequestFieldNamesDistinct(pairs);
    EncodedValue(pairs, 0);
    EncodedValue(pairs, 1);
    EncodedValue(pairs, 2);
    EncodedValue(pairs, 3);
    UrlEncode(pairs)
  }

  function VerificationRequestPairs(c: Client, solutionText: Text, challengeId: Text, remoteIp: Text)
    : seq<(Text, Text)>
  {
    [("privatekey", c.privateKey), ("remoteip", remoteIp), ("challenge", challengeId), ("response", solutionText)]
  }

  lemma RequestFieldNamesDistinct(pairs: seq<(Text, Text)>)
    requires |pairs| == 4
    requires pairs[0].0 == "privatekey" && pairs[1].0 == "remoteip"
    requires pairs[2].0 == "challenge" && pairs[3].0 == "response"
    ensures forall i, j :: 0 <= i < 4 && 0 <= j < 4 && i != j ==> pairs[i].0 != pairs[j].0
  {
  }

  /** A value form-encoded among pairs with distinct names reads back under its name. */
  lemma EncodedValue(pairs: seq<(Text, Text)>, i: nat)
    requires i < |pairs|
    requires forall j, k :: 0 <= j < |pairs| && 0 <= k < |pairs| && j != k ==> pairs[j].0 != pairs[k].0
    ensures QueryValues(UrlEncode(pairs), pairs[i].0) == if pairs[i].1 == [] then [] else [AsString(pairs[i].1)]
  {
    ParseUrlEncode(pairs);
    LookupDistinct(pairs, i);
  }

  /** In pairs with distinct names, `parse_qs` finds a name's own value, when
      that value is not empty, and nothing else. */
  lemma {:induction false} LookupDistinct(pairs: seq<(Text, Text)>, i: nat)
    requires i < |pairs|
    requires forall j :: 0 <= j < |pairs| && j != i ==> pairs[j].0 != pairs[i].0
    ensures Lookup(NonBlank(pairs), pairs[i].0) == if pairs[i].1 == [] then [] else [AsString(pairs[i].1)]
  {
    var rest := pairs[1..];
    var kept: seq<(string, string)> := if pairs[0].1 == [] then [] else [(AsString(pairs[0].0), AsString(pairs[0].1))];
    assert NonBlank(pairs) == kept + NonBlank(rest);
    LookupAppend(kept, NonBlank(rest), pairs[i].0);
    if i == 0 {
      LookupAbsent(rest, pairs[0].0);
    } else {
      assert rest[i - 1] == pairs[i];
      LookupDistinct(rest, i - 1);
    }
  }

  /** A name no pair carries is not found. */
  lemma {:induction false} LookupAbsent(pairs: seq<(Text, Text)>, name: Text)
    requires forall j :: 0 <= j < |pairs| ==> pairs[j].0 != name
    ensures Lookup(NonBlank(pairs), name) == []
  {
    if pairs != [] {
      var rest := pairs[1..];
      var kept: seq<(string, string)> := if pairs[0].1 == [] then [] else [(AsString(pairs[0].0), AsString(pairs[0].1))];
      assert NonBlank(pairs) == kept + NonBlank(rest);
      LookupAppend(kept, NonBlank(rest), name);
      LookupAbsent(rest, name);
    }
  }

  /** An HTTP POST as the client hands it to the transport. */
  datatype HttpPost = HttpPost(url: string, data: string, userAgent: string, timeout: Option<real>)

  /** What the transport gives back: the reply's text, or the reason it could
      not reach the service (`URLError`). */
  datatype TransportOutcome = Body(text: string) | Unreachable(reason: string)

  /** The request `_get_recaptcha_response_for_solution` is meant to send: a
      POST to the https verification URL (the corrected call; see
      `VerificationCallAsWritten` for the call as written), carrying the
      form-encoded fields, the client's user agent and, when one was given,
      the client's timeout. */
  function VerificationPost(c: Client, solutionText: Text, challengeId: Text, remoteIp: Text): (request: HttpPost)
    ensures Split(request.url) == Some(Url("https", ApiHost, "/recaptcha/api/verify", "", ""))
    ensures request.data == VerificationRequestData(c, solutionText, challengeId, remoteIp)
    ensures request.userAgent == ClientUserAgent && request.timeout == c.verificationTimeout
  {
    HttpPost(VerificationUrl(), VerificationRequestData(c, solutionText, challengeId, remoteIp),
             ClientUserAgent, c.verificationTimeout)
  }

  /** `_get_recaptcha_response_for_solution` as intended, over a transport
      `post`: the request is `VerificationPost`; a transport failure is raised
      as `UnreachableError` with its reason, and a reply is read with
      `ParseVerificationResponse`. */
  function ResponseForSolution(c: Client, post: HttpPost -> TransportOutcome,
                               solutionText: Text, challengeId: Text, remoteIp: Text)
    : (r: Result<VerificationResult, ClientError>)
    ensures var outcome := post(VerificationPost(c, solutionText, challengeId, remoteIp));
            && (r.Failure? && r.error.UnreachableError? <==> outcome.Unreachable?)
            && (outcome.Unreachable? ==> r == Failure(UnreachableError(outcome.reason)))
            && (outcome.Body? ==> r == ParseVerificationResponse(outcome.text))
  {
    match post(VerificationPost(c, solutionText, challengeId, remoteIp))
    case Unreachable(reason) => Failure(UnreachableError(reason))
    case Body(text) => ParseVerificationResponse(text)
  }

  /** End to end, with the service reached through `post`: when it replies for
      a judgement, a non-empty solution is judged as `DecideSolution` says. */
  lemma SolutionJudgedByReply(c: Client, post: HttpPost -> TransportOutcome,
                              solutionText: Text, challengeId: Text, remoteIp: Text, result: VerificationResult)
    requires solutionText != [] && challengeId != []
    requires result.Incorrect? ==> result.errorCode != "" && NoneOf(result.errorCode, LineBreaks)
    requires post(VerificationPost(c, solutionText, challengeId, remoteIp)) == Body(ServiceReply(result))
    ensures IsSolutionCorrect(c, solutionText, challengeId, remoteIp,
                              (s: Text, i: Text, p: Text) => ResponseForSolution(c, post, s, i, p))
            == DecideSolution(c, challengeId, result)
  {
    var response := ResponseForSolution(c, post, solutionText, challengeId, remoteIp);
    ParseServiceReply(result);
    assert response == Success(result);
    JudgedByResponse(c, post, solutionText, challengeId, remoteIp);
  }

  /** With a non-empty solution and challenge id, the answer is what the
      service's response decides. */
  lemma JudgedByResponse(c: Client, post: HttpPost -> TransportOutcome,
                         solutionText: Text, challengeId: Text, remoteIp: Text)
    requires solutionText != [] && challengeId != []
    ensures var response := ResponseForSolution(c, post, solutionText, challengeId, remoteIp);
            IsSolutionCorrect(c, solutionText, challengeId, remoteIp,
                              (s: Text, i: Text, p: Text) => ResponseForSolution(c, post, s, i, p))
            == match response
               case Failure(e) => Failure(e)
               case Success(result) => DecideSolution(c, challengeId, result)
  {
  }

  /** End to end: when the service cannot be reached, a non-empty solution
      raises `UnreachableError` with the transport's reason. */
  lemma SolutionUnreachable(c: Client, post: HttpPost -> TransportOutcome,
                            solutionText: Text, challengeId: Text, remoteIp: Text, reason: string)
    requires solutionText != [] && challengeId != []
    requires post(VerificationPost(c, solutionText, challengeId, remoteIp)) == Unreachable(reason)
    ensures IsSolutionCorrect(c, solutionText, challengeId, remoteIp,
                              (s: Text, i: Text, p: Text) => ResponseForSolution(c, post, s, i, p))
            == Failure(UnreachableError(reason))
  {
    JudgedByResponse(c, post, solutionText, challengeId, remoteIp);
  }

  // ------------------------------------- binding the arguments of an API call

  /** The Python values passed to `_get_recaptcha_api_call_url`. */
  datatype PyValue = PyBool(flag: bool) | PyStr(text: string)

  /** The `TypeError`s Python raises when a call's arguments do not fit the
      signature. */
  datatype CallError =
    | TooManyPositional
    | UnexpectedKeyword
    | MultipleValues(parameter: string)
    | MissingArgument(parameter: string)
    | StringOperationOnTrue(parameter: string)

  /** The parameters of `_get_recaptcha_api_call_url`, in order; the last one
      defaults to the empty string. */
  const ApiCallParameters: seq<string> := ["use_ssl", "relative_url_path", "encoded_query"]

  /** The value the `i`th parameter receives: its positional argument (which a
      keyword argument for it contradicts), else its keyword argument, else its
      default. */
  function BindParameter(positional: seq<PyValue>, keywords: map<string, PyValue>, i: nat): Result<PyValue, CallError>
    requires i < |ApiCallParameters|
  {
    var name := ApiCallParameters[i];
    if i < |positional| then
      if name in keywords then Failure(MultipleValues(name)) else Success(positional[i])
    else if name in keywords then Success(keywords[name])
    else if i == 2 then Success(PyStr(""))
    else Failure(MissingArgument(name))
  }

  /** Python's binding of a call's arguments to the signature
      `(use_ssl, relative_url_path, encoded_query='')`: it fails exactly when
      there are too many positional arguments, a keyword the signature does not
      have, a parameter given both positionally and by keyword, or a parameter
      without a default given neither way. */
  function BindApiCallArguments(positional: seq<PyValue>, keywords: map<string, PyValue>)
    : (r: Result<seq<PyValue>, CallError>)
    ensures r.Failure? <==>
              || |positional| > |ApiCallParameters|
              || (exists name :: name in keywords && name !in ApiCallParameters)
              || (exists i :: 0 <= i < |positional| && i < |ApiCallParameters| && ApiCallParameters[i] in keywords)
              || (exists i :: |positional| <= i < 2 && ApiCallParameters[i] !in keywords)
    ensures r.Success? ==>
              |r.value| == |ApiCallParameters|
              && forall i :: 0 <= i < |ApiCallParameters| ==> BindParameter(positional, keywords, i) == Success(r.value[i])
  {
    if |positional| > |ApiCallParameters| then Failure(TooManyPositional)
    else if exists name :: name in keywords && name !in ApiCallParameters then Failure(UnexpectedKeyword)
    else
      var first := BindParameter(positional, keywords, 0);
      var second := BindParameter(positional, keywords, 1);
      var third := BindParameter(positional, keywords, 2);
      if first.Failure? then Failure(first.error)
      else if second.Failure? then Failure(second.error)
      else if third.Failure? then Failure(third.error)
      else Success([first.value, second.value, third.value])
  }

  /** A path or query argument as the URL functions use it: a string as it is;
      `False`, which `urljoin` and `urlunsplit` treat as an empty path or
      query; `True` makes them fail, `urljoin` calling a string method on it
      (`AttributeError`) and `urlunsplit` adding it to a string (`TypeError`),
      both written `StringOperationOnTrue`. */
  function StringArgument(v: PyValue): Option<string>
  {
    match v
    case PyStr(text) => Some(text)
    case PyBool(flag) => if flag then None else Some("")
  }

  /** Calling `_get_recaptcha_api_call_url` with Python arguments: bind them,
      then build the URL, with the scheme chosen by the truth of `use_ssl`. */
  function CallApiCallUrl(positional: seq<PyValue>, keywords: map<string, PyValue>): (r: Result<string, CallError>)
    ensures var bound := BindApiCallArguments(positional, keywords);
            && (bound.Failure? ==> r == Failure(bound.error))
            && (bound.Success? ==>
                  (r.Success? <==> bound.value[1] != PyBool(true) && bound.value[2] != PyBool(true)))
    ensures r.Success? ==>
              var args := BindApiCallArguments(positional, keywords).value;
              r.value == ApiCallUrl(Truthy(args[0]), StringArgument(args[1]).value, StringArgument(args[2]).value)
  {
    match BindApiCallArguments(positional, keywords)
    case Failure(e) => Failure(e)
    case Success(args) =>
      match (StringArgument(args[1]), StringArgument(args[2]))
      case (None, _) => Failure(StringOperationOnTrue("relative_url_path"))
      case (_, None) => Failure(StringOperationOnTrue("encoded_query"))
      case (Some(path), Some(query)) => Success(ApiCallUrl(Truthy(args[0]), path, query))
  }

  /** Python truthiness of the values passed here. */
  function Truthy(v: PyValue): bool {
    match v
    case PyBool(flag) => flag
    case PyStr(text) => text != ""
  }

  /** The challenge URLs are built by a call whose arguments bind as intended. */
  lemma ChallengeCallsBind(useSsl: bool, relativePath: string, encodedQuery: string)
    ensures CallApiCallUrl([PyBool(useSsl), PyStr(relativePath), PyStr(encodedQuery)], map[])
            == Success(ApiCallUrl(useSsl, relativePath, encodedQuery))
  {
    var args := [PyBool(useSsl), PyStr(relativePath), PyStr(encodedQuery)];
    assert BindParameter(args, map[], 0) == Success(args[0]);
    assert BindParameter(args, map[], 1) == Success(args[1]);
    assert BindParameter(args, map[], 2) == Success(args[2]);
    assert BindApiCallArguments(args, map[]) == Success(args);
  }

  /** The verification URL as the call is written: "verify" lands in `use_ssl`,
      which the keyword `use_ssl=True` then gives a second value, so the call
      raises `TypeError` and no verification request is ever made. */
  lemma VerificationCallAsWritten()
    ensures CallApiCallUrl([PyStr(VerificationRelativePath)], map["use_ssl" := PyBool(true)])
            == Failure(MultipleValues("use_ssl"))
  {
  }

  /** The call as evidently intended, with the path passed by its own name,
      builds `VerificationUrl`. */
  lemma VerificationCallIntended()
    ensures CallApiCallUrl([], map["relative_url_path" := PyStr(VerificationRelativePath), "use_ssl" := PyBool(true)])
            == Success(VerificationUrl())
  {
    var keywords := map["relative_url_path" := PyStr(VerificationRelativePath), "use_ssl" := PyBool(true)];
    var args := [PyBool(true), PyStr(VerificationRelativePath), PyStr("")];
    KeywordCallBinds(keywords, args);
    assert StringArgument(args[1]) == Some(VerificationRelativePath) && StringArgument(args[2]) == Some("");
    assert VerificationUrl() == ApiCallUrl(true, VerificationRelativePath, "");
  }

  lemma KeywordCallBinds(keywords: map<string, PyValue>, args: seq<PyValue>)
    requires keywords == map["relative_url_path" := PyStr(VerificationRelativePath), "use_ssl" := PyBool(true)]
    requires args == [PyBool(true), PyStr(VerificationRelativePath), PyStr("")]
    ensures BindApiCallArguments([], keywords) == Success(args)
  {
    assert ApiCallParameters[0] in keywords && ApiCallParameters[1] in keywords;
    assert forall name :: name in keywords ==> name in ApiCallParameters;
    assert BindParameter([], keywords, 0) == Success(args[0]);
    assert BindParameter([], keywords, 1) == Success(args[1]);
    assert BindParameter([], keywords, 2) == Success(args[2]);
  }
}
