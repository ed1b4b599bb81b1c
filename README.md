# SynaqCurlBundle request builder, in Dafny

This project models `Curl/Wrapper.php`, a small cURL client façade. A
`Wrapper` object holds default settings: user agent, cookie file, redirect
flag, referrer, custom cURL options and default headers. Each call to
`get`/`head`/`post`/`put`/`delete`/`request` opens a fresh cURL handle. It
writes the verb, the URL, the body, the default options, the custom options
and the header list into that handle, in that order. It then performs the
transfer. A truthy raw response is wrapped in a `Response`. Anything else
records `"<errno> - <message>"` as the client's error and raises a
`CurlException` carrying the same string.

Files:

- `php.dfy` (module `Php`): the PHP semantics the code relies on. It covers
  values and truthiness (`empty()`), `strtoupper`, `str_replace` with an
  empty replacement, and integer-to-string conversion.
- `handle.dfy` (module `CurlHandle`): the cURL handle. The handle is an
  append-only log of `curl_setopt` writes. The value of an option is the value
  of its last write (`Lookup`). The option table it stands for is
  `Apply(map[], writes)`.
- `wrapper.dfy` (module `Curl`): the `Wrapper` class and its methods. Beside it
  are the pure functions that say what each method writes into the handle.
  `WithMethod`, `WithDefaults`, `WithCustom` and `WithHeaders` each map the
  handle's log to the log after that step. `RequestLog` gives all writes of
  one request, and `FinalOption` gives the value an option ends up with. The
  class is the PHP object: each method updates the `error` and `request`
  fields, and the handle is updated by `SetOpt` one write at a time. The loops
  over custom options and default headers are `for` loops with invariants.
- `properties.dfy` (module `CurlProperties`): the lemmas about those
  functions.

Environment and foreign calls are parameters:

- `curl_exec`, `curl_errno` and `curl_error` are a `Transfer` value, which is
  any outcome the transport may report.
- The encoding `http_build_query` gives a non-empty array is a `QueryEncoder`
  function. The empty array encodes to `""`.
- `$_SERVER['HTTP_USER_AGENT']` and `PHP_VERSION` are constructor
  parameters.

The code has these quirks, and the model keeps them:

- HEAD parameters become a request body (`CURLOPT_POSTFIELDS`). They are
  not appended to the URL.
- A user agent given to the constructor is not used (see Findings).
- A custom option cannot override the header list. `CURLOPT_HTTPHEADER` is
  written after the custom options.
- The failure path raises before `curl_close`, so the handle is not released
  on failure.

## Model

| member | source | states |
|---|---|---|
| `Curl.Wrapper.constructor` | Curl/Wrapper.php:66-76 | The user agent field is the ambient default when the argument is null and stays null otherwise. The `followRedirects = true` initialiser is always overwritten by the argument (default false). The other settings are the arguments, and the error starts empty. |
| `Curl.Wrapper.GetError` | Curl/Wrapper.php:83-86 | Returns the error recorded by the last request. |
| `Curl.Wrapper.Delete` | Curl/Wrapper.php:98-101 | Performs a request with verb `DELETE` and the given params, with no call headers. |
| `Curl.Wrapper.Get` | Curl/Wrapper.php:113-121 | The handle holds the writes of a `GET` to `GetUrl(url, params)` with empty encoded vars and no call headers. The settings are unchanged, and the outcome and error follow the transfer. |
| `Curl.Wrapper.Head` | Curl/Wrapper.php:133-136 | Performs a request with verb `HEAD`, passing the params on as vars. |
| `Curl.Wrapper.Post` | Curl/Wrapper.php:146-149 | Performs a request with verb `POST`, the params and the call headers. |
| `Curl.Wrapper.Put` | Curl/Wrapper.php:161-164 | Performs a request with verb `PUT` and the params. |
| `Curl.Wrapper.Request` | Curl/Wrapper.php:178-205 | The new handle (fresh) holds exactly `RequestLog` of the settings, the verb, the URL, the encoded params and the call headers. The settings are unchanged. A truthy raw response gives `Success` with an empty error. Otherwise the error is `"<errno> - <message>"` and the outcome is a `CurlException` with that same string. |
| `Curl.Wrapper.SetRequestMethod` | Curl/Wrapper.php:214-229 | Appends the one write `WithMethod` gives for the verb. |
| `Curl.Wrapper.SetRequestOptions` | Curl/Wrapper.php:239-265 | Appends the default writes, then one write per custom option in map order, each under the constant its key names (loop invariant over the options done so far). |
| `Curl.Wrapper.SetRequestHeaders` | Curl/Wrapper.php:274-279 | Appends one `HTTPHEADER` write: the call headers followed by the formatted default headers (loop invariant over the headers done so far). |
| `CurlHandle.Handle.constructor` | Curl/Wrapper.php:185 | `curl_init`: a handle with no options written. |
| `CurlHandle.Handle.SetOpt` | Curl/Wrapper.php:218 | `curl_setopt`: appends exactly one write to the handle's log. |
| `CurlHandle.LookupSetOption` | Curl/Wrapper.php:241-258 | A later write to an option wins, and a write changes no other option. |
| `CurlHandle.ApplyIsLastWrite` | Curl/Wrapper.php:262-263 | The handle's option table holds an option exactly when some write names it. It then holds the value of the last such write. |
| `Php.Truthy` | Curl/Wrapper.php:250-258 | A value is false exactly when it is null, false, 0, `""`, `"0"` or the empty array. These are the conditions `if ($this->cookieFile)` and the others test. |
| `Php.Upper` | Curl/Wrapper.php:263 | `strtoupper` keeps the length of the key; `Php.UpperLetters` gives its effect on each character. |
| `Php.UpperLetters` | Curl/Wrapper.php:263 | `strtoupper` leaves no lower-case ASCII letter. Each letter becomes its upper-case form, and every other character is kept. |
| `Php.RemoveAll` | Curl/Wrapper.php:263 | `str_replace('CURLOPT_', '', k)` never lengthens the key and only keeps characters of the key. A key shorter than the needle is unchanged. |
| `Curl.ParamsEmpty` | Curl/Wrapper.php:115 | `empty($params)` holds exactly for the empty array, `""` and `"0"`. |
| `Curl.EncodeParams` | Curl/Wrapper.php:180-182 | A string parameter is used unchanged. The empty array gives `""`, and a non-empty array is passed to `http_build_query`. So empty parameters give a string that is itself empty in PHP's sense. |
| `Curl.GetUrl` | Curl/Wrapper.php:115-117 | The URL is unchanged exactly when the params are empty. Otherwise the URL is a prefix of the result, and the result has a query. |
| `Curl.OptionName` | Curl/Wrapper.php:263 | The constant a custom key names starts with `CURLOPT_`, contains no lower-case ASCII letter, and is at most the key's length longer than `CURLOPT_`. |
| `Curl.WithMethod` | Curl/Wrapper.php:214-229 | `setRequestMethod` adds exactly one write. That write is to one of NOBODY, HTTPGET, POST and CUSTOMREQUEST. It goes to CUSTOMREQUEST exactly when the verb is not HEAD, GET or POST. |
| `Curl.WithDefaults` | Curl/Wrapper.php:241-259 | The first part of `setRequestOptions` adds between 4 and 9 writes after the earlier ones. Each write is to one of the nine default options. |
| `Curl.WithTarget` | Curl/Wrapper.php:241-244 | The URL and possibly the body: one or two writes, each to a default option. |
| `Curl.WithBasics` | Curl/Wrapper.php:247-249 | Exactly three writes, each to a default option. |
| `Curl.WithCookies` | Curl/Wrapper.php:250-253 | At most two writes, each to a default option. |
| `Curl.WithRedirects` | Curl/Wrapper.php:254-259 | At most two writes, each to a default option. |
| `Curl.WithCustom` | Curl/Wrapper.php:261-264 | The custom options add exactly one write each, in map order. The k-th new write is the k-th option's value under the constant its key names. |
| `Curl.WithCustomStep` | Curl/Wrapper.php:262-263 | One more custom option extends the writes by that option's write; this is the loop step of `SetRequestOptions`. |
| `Curl.WithHeaders` | Curl/Wrapper.php:278 | `setRequestHeaders` adds one write, after which HTTPHEADER holds the assembled header list. |
| `Curl.RequestLog` | Curl/Wrapper.php:188-190 | A request makes between 6 and 11 writes plus one per custom option. The first write is a verb option, and the last write is HTTPHEADER with the header list. |
| `Curl.ErrorString` | Curl/Wrapper.php:198 | The error string starts with a non-empty run of digits that reads back as the error number. That run has no leading zero unless it is `0`, so it is the number's own decimal form. The rest is `" - "` followed by the message. |
| `Curl.AmbientUserAgent` | Curl/Wrapper.php:69 | The server's `HTTP_USER_AGENT` when set. Otherwise a string starting `"Curl/PHP "` with the PHP version right after it. |
| `Curl.StoredUserAgent` | Curl/Wrapper.php:68-70 | As written, a null argument stores the ambient default as a string. The stored agent is null exactly when the argument is not null. |
| `Curl.IntendedUserAgent` | Curl/Wrapper.php:68-70 | With the evident intent, a non-null argument is stored as given, and a null argument stores the ambient default. The stored agent is never null. |
| `CurlProperties.TargetLookup` | Curl/Wrapper.php:241-244 | After the target writes, URL is the URL and POSTFIELDS is the vars when they are non-empty. Every other option is as before. |
| `CurlProperties.BasicsLookup` | Curl/Wrapper.php:247-249 | After the basic writes, HEADER and RETURNTRANSFER are true and USERAGENT is the stored agent. Every other option is as before. |
| `CurlProperties.CookiesLookup` | Curl/Wrapper.php:250-253 | After the cookie writes, COOKIEFILE and COOKIEJAR are the cookie file when it is truthy. Every other option is as before. |
| `CurlProperties.RedirectsLookup` | Curl/Wrapper.php:254-259 | After the redirect writes, FOLLOWLOCATION is true when redirects are truthy and REFERER is the referrer when it is truthy. Every other option is as before. |
| `CurlProperties.MethodOptionSurvives` | Curl/Wrapper.php:214-229 | A verb option no custom key resolves to ends the request with the value `setRequestMethod` wrote. |
| `Php.Decimal` | Curl/Wrapper.php:198 | The string form of the error number is non-empty and made of decimal digits. It has no leading zero unless the number is 0. |
| `Php.DecimalRoundTrip` | Curl/Wrapper.php:198 | Reading the decimal string of an error number back gives that number. |
| `Php.RemoveAllWithoutOccurrence` | Curl/Wrapper.php:263 | `str_replace('CURLOPT_', '', k)` leaves a key without that substring unchanged. |
| `Php.RemoveAllLeading` | Curl/Wrapper.php:263 | `str_replace` deletes a leading occurrence of the needle. |
| `CurlProperties.OptionNameIgnoresPrefix` | Curl/Wrapper.php:263 | `"CURLOPT_"+k`, `"curlopt_"+k` and `k` name the same constant. |
| `CurlProperties.OptionNameOfPlainKey` | Curl/Wrapper.php:263 | A key without an embedded `CURLOPT_` names `"CURLOPT_"` followed by the key upper-cased. |
| `CurlProperties.UrlKeySpellings` | Curl/Wrapper.php:263 | `url`, `URL`, `curlopt_url` and `CURLOPT_URL` all resolve to `CURLOPT_URL`. |
| `CurlProperties.LastCustomIsLastMatch` | Curl/Wrapper.php:262-263 | The custom value that applies to an option is the one of the last key in map order that resolves to it. There is none exactly when no key resolves to it. |
| `CurlProperties.CustomOptionsOverride` | Curl/Wrapper.php:261-264 | After the custom options, an option some key resolves to holds the last such key's value. Every other option keeps its earlier value. |
| `CurlProperties.MethodStep` | Curl/Wrapper.php:214-229 | On a fresh handle, HEAD sets only `NOBODY`, GET only `HTTPGET` and POST only `POST`. Any other verb sets only `CUSTOMREQUEST`, to itself. |
| `CurlProperties.DefaultStep` | Curl/Wrapper.php:241-259 | The value of each option after the default writes. URL, HEADER, RETURNTRANSFER and USERAGENT are always set. POSTFIELDS is set when the vars are non-empty. COOKIEFILE and COOKIEJAR are set to the cookie file when it is truthy. FOLLOWLOCATION is set when redirects are truthy, and REFERER when the referrer is truthy. Every other option is as before. |
| `CurlProperties.FinalOptionLayers` | Curl/Wrapper.php:188-190 | The final value of an option has three layers. HTTPHEADER is always the header list. Otherwise the last custom option that resolves to it wins. Otherwise it is what the verb and the defaults wrote. |
| `CurlProperties.BuiltInOption` | Curl/Wrapper.php:239-264 | An option no custom key resolves to (other than HTTPHEADER) ends with what the verb and the defaults wrote. |
| `CurlProperties.VerbOptions` | Curl/Wrapper.php:214-229 | In a whole request, NOBODY is set iff the verb is HEAD, HTTPGET iff GET and POST iff POST. CUSTOMREQUEST equals the verb iff it is none of the three. |
| `CurlProperties.BodyOption` | Curl/Wrapper.php:242-244 | POSTFIELDS is set iff the encoded vars are non-empty (not `""`, not `"0"`), and then it equals the vars. |
| `CurlProperties.GetSendsNoBody` | Curl/Wrapper.php:113-120 | A GET never sets POSTFIELDS. It fetches `GetUrl(url, params)` with HTTPGET set. |
| `CurlProperties.VerbOptionHttpGet` | Curl/Wrapper.php:219-220 | A GET request ends with HTTPGET true. |
| `CurlProperties.HeadSendsParamsAsBody` | Curl/Wrapper.php:135 | A HEAD with non-empty params keeps the URL as given. It sends the params as POSTFIELDS, with NOBODY set. |
| `CurlProperties.AlwaysWrittenOptions` | Curl/Wrapper.php:241-249 | URL equals the URL, HEADER and RETURNTRANSFER are true, and USERAGENT equals the stored user agent. |
| `CurlProperties.CookieOptions` | Curl/Wrapper.php:250-253 | COOKIEFILE and COOKIEJAR are equal, and set to the cookie file exactly when it is truthy. |
| `CurlProperties.RedirectAndRefererOptions` | Curl/Wrapper.php:254-259 | FOLLOWLOCATION is true exactly when followRedirects is truthy. REFERER is the referrer exactly when it is truthy. |
| `CurlProperties.CustomOptionWins` | Curl/Wrapper.php:261-264 | The last custom option in map order whose key resolves to an option (other than HTTPHEADER) gives that option's final value, overriding any default. |
| `CurlProperties.HeaderOptionIsAssembled` | Curl/Wrapper.php:188-190 | HTTPHEADER always ends as the assembled header list, whatever the custom options say. |
| `CurlProperties.HeaderLinesAt` | Curl/Wrapper.php:275-277 | One line per default header, in map order, each `key . ': ' . value`. |
| `CurlProperties.HeaderListShape` | Curl/Wrapper.php:274-279 | The header list is the call headers unchanged and in order, then the default header lines. Its length is the sum of both. |
| `CurlProperties.GetUrlQuery` | Curl/Wrapper.php:115-117 | The URL is a prefix of the GET URL, and empty params leave it unchanged. Otherwise the path is unchanged. The query is the URL's query, `&` and the params, or just the params when the URL has no `?`. |
| `Curl.QueryMark` | Curl/Wrapper.php:116 | Finds the first `?` of a URL, and is None exactly when there is none. This is the test that picks `&` or `?`. |
| `CurlProperties.GetUrlExample` | Curl/Wrapper.php:115-117 | `get("http://example.com/a?x=1", ["y" => "2"])` requests `http://example.com/a?x=1&y=2`. |
| `CurlProperties.ErrorStringRoundTrip` | Curl/Wrapper.php:198 | The recorded error `errno . ' - ' . message` parses back into the same number and message. |
| `CurlProperties.UserAgentArgumentDropped` | Curl/Wrapper.php:68-70 | As written, a non-null user agent given to the constructor leads to a null USERAGENT on every request. |
| `CurlProperties.IntendedUserAgentIsSent` | Curl/Wrapper.php:68-70 | With the evident intent, the given user agent is sent, and the ambient default only when the argument is null. |

## Left out

- The cURL library itself (`curl_init`, `curl_setopt`, `curl_exec`, `curl_errno`, `curl_error`, `curl_close`) is foreign code. The handle is modelled as its log of option writes. The transfer outcome is a parameter, so any raw value, error number and message is possible.
- Releasing the handle: `curl_close`, and the fact that the failure path skips it, are not modelled.
- `constant()`: options are identified by their constant's name, not by the numeric value. A key that names no constant is not rejected; in PHP that fails when the option is set.
- The percent-encoding inside `http_build_query` is not modelled. It is a parameter for non-empty arrays.
- Parsing the raw response inside `Response` is not modelled; that class is not part of this model. A `Response` only holds the raw value.
- `$_SERVER['HTTP_USER_AGENT']` and `PHP_VERSION` are parameters, not ambient state.
- PHP types beyond these are not modelled. Parameters and default headers are string-keyed arrays of strings, or a string. Custom option keys are strings. The verb is a string. Integer keys, nested arrays, and non-string verbs (which PHP's loose `switch` would compare differently) are not covered.
- `Php.Upper`: models the ASCII-only `strtoupper` of PHP 8.2 and later, not the `LC_CTYPE`-dependent one of earlier versions.
- The exception is modelled as the `CurlException` case of an `Outcome` value, not as control flow.
- The option lemmas each require that no custom option resolves to the options they speak about. `CustomOptionWins` and `FinalOptionLayers` cover the case where one does.

## Findings

| source | as written | input that shows it | evidently intended | confidence | as-written member | corrected member |
|---|---|---|---|---|---|---|
| Curl/Wrapper.php:68-70 | The user agent field is assigned only when the argument is null. Any other argument is dropped, and the field stays null. | `new Wrapper('MyAgent/1.0')`: every request sets `CURLOPT_USERAGENT` to null | Store the given user agent, and fall back to the ambient default only when it is null | high; not executed | `CurlProperties.UserAgentArgumentDropped` | `CurlProperties.IntendedUserAgentIsSent` |
