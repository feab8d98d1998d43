# python-recaptcha client, modelled in Dafny

This project models `RecaptchaClient`, the Python 2 reCAPTCHA client. The client does two things:

- It renders the challenge markup for a page: a script block with the reCAPTCHA options, a script
  tag loading the JavaScript challenge, and a no-script iframe.
- It asks the reCAPTCHA service whether a user's solution to a challenge is correct.

The model is pure: datatypes, functions and lemmas over values. The one exception is
`OfflineClient.OfflineVerificationClient`, the test suite's stand-in for the service. It is a
class, because it updates a counter of communication attempts in place.

Python 2 `str` values are byte strings. They are modelled as `Text`, a sequence of characters
below 256. The library functions the client relies on are modelled as far as the client uses them:

- `urlsplit` / `urlunsplit`: `Urls.Split` / `Urls.Unsplit`, with a round-trip lemma.
- `urljoin` on a path: `Urls.JoinPath`.
- `urlencode` and `parse_qs`: `FormEncoding.UrlEncode` and `FormEncoding.QueryValues`, with a
  round-trip lemma.
- `str.splitlines`: `Strings.SplitLines`. `Strings.JoinLines` is a one-sided inverse: lines
  without line breaks, joined, split back into the same lines, whether or not a line break follows
  the last line.
- `str.format` with named fields: `Recaptcha.Format`.

The service is an input. `IsSolutionCorrect` takes the verifier as a function argument. The HTTP
transport is a function from the request (`HttpPost`) to a `TransportOutcome`.

## Model

| member | source | states |
|---|---|---|
| Urls.SplitUnsplit | recaptcha.py:236-242 | splitting a URL assembled from well-formed components gives back those components |
| Urls.Directory | recaptcha.py:231-234 | the directory of a base path is its longest prefix ending in `/` (or empty), which `urljoin` keeps |
| Urls.JoinPath | recaptcha.py:231-234 | `urljoin` on paths: an empty reference keeps the base; a reference starting with `/` replaces it; any other ends the result and follows the base's directory (its longest prefix ending in `/`) |
| Urls.JoinUnderDirectory | recaptcha.py:231-234 | joining a relative segment onto a base path ending in `/` appends the segment |
| Recaptcha.ApiUrlComponents | recaptcha.py:36 | `_RECAPTCHA_API_URL` splits into scheme `http`, host `www.google.com` and path `/recaptcha/api/`, with no query or fragment |
| Recaptcha.ApiCallUrl | recaptcha.py:227-243 | an API call URL starts with the chosen scheme (`https` exactly when `use_ssl`), the API host and base path; read back, it has the base path joined with the relative path, the given query and no fragment |
| Recaptcha.NewClient | recaptcha.py:78-92 | the keys and the timeout are stored; with no options the serialized options are `{}` |
| Recaptcha.ChallengeQuery | recaptcha.py:139-142 | the challenge query never contains a fragment marker |
| Recaptcha.ChallengeQueryValues | recaptcha.py:139-142 | read back with `parse_qs`, the query has the public key under `k`, and `error` = `incorrect-captcha-sol` exactly when the previous solution was incorrect |
| Recaptcha.GetChallengeUrls | recaptcha.py:135-161 | both URLs have the chosen scheme, the API host and the challenge query; their paths are `/recaptcha/api/challenge` and `/recaptcha/api/noscript`; they start with the https or the http API URL |
| Recaptcha.ChallengeUrlsAgree | recaptcha.py:144-154 | the two challenge URLs share scheme, host and query, differ in path, carry the public key, and carry an error exactly when the previous solution was incorrect |
| Recaptcha.Format | recaptcha.py:109-111 | formatting succeeds exactly when every field of the template is bound; a failure names an unbound field (`KeyError`) |
| Recaptcha.GetChallengeMarkup | recaptcha.py:94-112 | the markup is the template text with the options JSON, the JavaScript challenge URL and the no-script challenge URL in their three slots |
| Recaptcha.FillChallengeTemplate | recaptcha.py:44-69 | formatting the template with the three variables succeeds and places each value in its slot between the template's literal parts |
| Recaptcha.MarkupOptionsSlot | recaptcha.py:44-46 | the options slot of the markup holds the client's serialized options |
| Recaptcha.NoOptionsRenderEmptyObject | recaptcha.py:90 | a client built without options renders `RecaptchaOptions = {}` |
| Recaptcha.DecideSolution | recaptcha.py:124-133 | the answer is true exactly for a correct judgement; `invalid-request-cookie` raises the invalid-challenge error with the challenge id; `invalid-site-private-key` raises the invalid-private-key error with the private key; any other code gives false; every raised error is a `RecaptchaException` |
| Recaptcha.IsSolutionCorrect | recaptcha.py:114-133 | an empty solution or challenge id gives false; the answer is true exactly when both are non-empty and the service judges the solution correct; an error from asking the service is raised unchanged; otherwise the judgement decides |
| Recaptcha.EmptyInputIgnoresVerifier | recaptcha.py:115-116 | with an empty solution or challenge id, the answer is false whatever the service would say |
| Recaptcha.ParseVerificationResponse | recaptcha.py:193-199 | reading a reply fails only with the `IndexError` of a missing line |
| Recaptcha.ParseServiceReply | recaptcha.py:193-199 | reading the service's reply (`true`, or `false` and a non-empty error code on a second line, with no final line break) gives back the judgement it was sent for |
| Recaptcha.ParseResponseLines | recaptcha.py:193-199 | for a reply whose every line ends in a line break: correct exactly when the first line is `true`; `IndexError` exactly when there is no line, or one line that is not `true`; otherwise incorrect with the second line as error code |
| Recaptcha.ParseUnterminatedResponseLines | recaptcha.py:193-199 | the same reading for a reply whose last line has no line break after it |
| Recaptcha.ParseSplitResponse | recaptcha.py:193-199 | any reply reads as the lines `splitlines` gives: correct, `IndexError` or incorrect with the second line, as above |
| Recaptcha.VerificationUrl | recaptcha.py:169-172 | the verification URL as intended: `https`, the API host, path `/recaptcha/api/verify`, no query |
| Recaptcha.VerificationRequestData | recaptcha.py:173-178 | read back with `parse_qs`, the request body has the private key, remote IP, challenge id and solution under `privatekey`, `remoteip`, `challenge` and `response` |
| Recaptcha.EncodedValue | recaptcha.py:173-178 | a form-encoded value among distinctly named fields reads back under its name |
| Recaptcha.VerificationPost | recaptcha.py:179-189 | as intended (see Findings): the request goes to the https `/recaptcha/api/verify` URL with the form-encoded fields, the client's user agent and the client's timeout |
| Recaptcha.ResponseForSolution | recaptcha.py:185-201 | as intended (see Findings), over the request `VerificationPost`: a transport failure becomes `UnreachableError` with its reason, and only a transport failure does; a reply is read as `ParseVerificationResponse` reads it |
| Recaptcha.JudgedByResponse | recaptcha.py:118-133 | as intended (see Findings): for a non-empty solution and challenge id, an error from the request is raised unchanged and a response is judged by `DecideSolution` |
| Recaptcha.SolutionJudgedByReply | recaptcha.py:114-201 | as intended (see Findings): when the service replies for a judgement, a non-empty solution is judged as `DecideSolution` says |
| Recaptcha.SolutionUnreachable | recaptcha.py:114-201 | as intended (see Findings): when the service cannot be reached, a non-empty solution raises `UnreachableError` with the transport's reason |
| Recaptcha.BindApiCallArguments | recaptcha.py:227 | binding arguments to `(use_ssl, relative_url_path, encoded_query='')` fails exactly on too many positional arguments, an unknown keyword, a parameter given twice, or a missing parameter without a default |
| Recaptcha.CallApiCallUrl | recaptcha.py:227-243 | a call fails exactly when binding fails (with the binding error) or `True` is passed as path or query; otherwise it builds `ApiCallUrl` with the scheme chosen by the truth of `use_ssl`, `False` acting as an empty path or query |
| Recaptcha.ChallengeCallsBind | recaptcha.py:146-156 | the challenge URL calls bind their arguments as intended and build `ApiCallUrl` |
| Recaptcha.VerificationCallAsWritten | recaptcha.py:169-172 | as written, the verification URL call gives `use_ssl` two values and raises `TypeError` |
| Recaptcha.VerificationCallIntended | recaptcha.py:169-172 | with the path passed by keyword, the call builds `VerificationUrl` |
| FormEncoding.QuotePlus | recaptcha.py:18 | quoting gives only unreserved characters, `+` and `%`, and is empty exactly for the empty string |
| FormEncoding.UnquoteQuote | recaptcha.py:18 | unquoting a quoted byte string gives it back |
| FormEncoding.ParseEncodedField | recaptcha.py:18 | an encoded field reads back as its name and value, and is dropped when its value is empty |
| FormEncoding.ParseUrlEncode | recaptcha.py:173-178 | parsing a `urlencode`d query gives back its pairs, without those whose value is empty |
| Strings.SplitLines | recaptcha.py:193 | no line contains a line break, and there are no lines exactly for the empty text |
| Strings.SplitJoinLines | recaptcha.py:193 | splitting lines that were joined, each ended by a newline, gives back the lines |
| Strings.SplitJoinLast | recaptcha.py:193 | lines joined by line breaks, the last one without a line break after it, split back into the same lines |
| Strings.SplitLinesLf | recaptcha.py:193 | `\n` ends a line |
| Strings.SplitLinesCrLf | recaptcha.py:193 | `\r\n` ends a single line |
| Strings.SplitLinesCr | recaptcha.py:193 | a `\r` not followed by `\n` ends a line |
| Strings.SplitSingleLine | recaptcha.py:193 | a text without line breaks is one line |
| OfflineClient.OfflineVerificationClient.constructor | tests.py:318-327 | the stand-in has the fake keys, no options, the fixed judgement and no communication attempts |
| OfflineClient.OfflineVerificationClient.ResponseForSolution | tests.py:329-338 | the stand-in counts one attempt and answers with the fixed judgement |
| OfflineClient.OfflineVerificationClient.IsSolutionCorrect | tests.py:193-217 | the stand-in answers as `Recaptcha.IsSolutionCorrect` does with the fixed judgement, and counts an attempt exactly when the solution and the challenge id are both non-empty |

## Left out

- The HTTP transport (`Request`, `urlopen`, the `User-agent` header and the timeout). It is a
  function argument that receives an `HttpPost` value and returns a reply or the reason for a
  `URLError`. Closing the response is not modelled.
- JSON serialisation of the options. The client stores the serialized text, which is an input
  here. Only "no options gives `{}`" is modelled.
- `Urls.JoinPath`: models `urljoin` only for the relative paths the client joins onto a path.
  It does not remove `.` and `..` segments and does not handle absolute URLs with a scheme.
- `Urls.Split`: reads only the `scheme://netloc…` form that the client builds. It is a reader for
  those URLs, not all of `urlsplit`.
- `FormEncoding.UrlEncode`: takes its pairs in a fixed order. `urlencode` of a Python 2 dict uses
  the dict's hash order. For that reason every property is stated on values looked up by name,
  never on the order of the fields.
- `Recaptcha.ParseVerificationResponse`: the response body is taken as already-read text.
  Reading the body of the socket is not modelled.
- Recaptcha.ResponseForSolution: models `_get_recaptcha_response_for_solution` with the corrected
  verification URL, `VerificationUrl`. As written, the method raises `TypeError` at
  recaptcha.py:169-172 before a request exists (see Findings), so the transport and the parsing
  of the reply are never reached. `VerificationPost`, `JudgedByResponse`, `SolutionJudgedByReply`
  and `SolutionUnreachable` are stated for the intended behaviour too.
- Recaptcha.CallApiCallUrl: `True` as path or query is one error, `StringOperationOnTrue`. Python
  raises `AttributeError` inside `urljoin` for the path and `TypeError` inside `urlunsplit` for the
  query.
- Decoding of non-ASCII solutions, and the `UnicodeDecodeError` the test suite expects for
  Latin-1 input (tests.py:274-312). The client in recaptcha.py does not decode, so this is not
  part of this model.
- A verification result without an `error_code` entry. Only the test stub can produce one (a
  `KeyError` at recaptcha.py:127). The model's judgement always carries a code when incorrect.
- `None` as a solution or challenge id. The model takes byte strings, where Python's falsiness
  check reduces to emptiness.
- setup.py, packaging, and the `__all__` export list.

## Findings

| source | as written | input that shows it | evidently intended | confidence | as-written member | corrected member |
|---|---|---|---|---|---|---|
| recaptcha.py:169-172 | `_get_recaptcha_api_call_url('verify', use_ssl=True)` passes `'verify'` positionally into `use_ssl` and also gives `use_ssl` by keyword, which raises `TypeError` | any call of `is_solution_correct` with a non-empty solution and challenge id | the https URL of the `verify` API call, `https://www.google.com/recaptcha/api/verify` | not executed | Recaptcha.VerificationCallAsWritten | Recaptcha.VerificationUrl |
