/** The request builder of Curl/Wrapper.php: a client object holding default
    settings that, for each request, opens a fresh cURL handle, writes the verb,
    URL, body, default and custom options and the header list into it, performs
    the transfer and either wraps the raw response or records and raises an
    error.

    The transfer itself (curl_exec, curl_errno, curl_error) is a parameter of the
    request, and so is http_build_query's encoding of a non-empty array. */
module Curl {
  import opened Php
  import opened CurlHandle

  /** Request parameters: a PHP array of key/value pairs, or a ready-made string. */
  datatype Params = Fields(pairs: seq<(string, string)>) | Raw(text: string)

  /** http_build_query($pairs, '', '&') for a non-empty array. Its percent-encoding
      is outside this model, so each request receives it as a parameter. */
  type QueryEncoder = seq<(string, string)> -> string

  function HttpBuildQuery(enc: QueryEncoder, pairs: seq<(string, string)>): string
  {
    if pairs == [] then "" else enc(pairs)
  }

  /** PHP's empty() on the parameters: an empty array, "" or "0". */
  predicate ParamsEmpty(params: Params): (r: bool)
    ensures r <==> params in {Fields([]), Raw(""), Raw("0")}
  {
    match params
    case Fields(pairs) => pairs == []
    case Raw(text) => Empty(Str(text))
  }

  /** Arrays are encoded, strings are used as they are. */
  function EncodeParams(params: Params, enc: QueryEncoder): (r: string)
    ensures ParamsEmpty(params) ==> Empty(Str(r))
    ensures params == Fields([]) ==> r == ""
    ensures params.Fields? && params.pairs != [] ==> r == enc(params.pairs)
    ensures params.Raw? ==> r == params.text
  {
    match params
    case Fields(pairs) => HttpBuildQuery(enc, pairs)
    case Raw(text) => text
  }

  /** The URL that `get` requests: non-empty parameters are appended after `&`
      when the URL already has a `?`, after `?` otherwise. */
  function GetUrl(url: string, params: Params, enc: QueryEncoder): (r: string)
    ensures ParamsEmpty(params) <==> r == url
    ensures |url| <= |r| && r[..|url|] == url
    ensures !ParamsEmpty(params) ==> QueryMark(r).Some?
  {
    if ParamsEmpty(params) then url
    else url + [if '?' in url then '&' else '?'] + EncodeParams(params, enc)
  }

  /** The position of the first `?` of a URL, where its query begins. */
  function QueryMark(s: string): (r: Option<nat>)
    ensures r.None? <==> '?' !in s
    ensures r.Some? ==> r.value < |s| && s[r.value] == '?' && '?' !in s[..r.value]
  {
    if s == [] then None
    else if s[0] == '?' then Some(0)
    else
      match QueryMark(s[1..])
      case None => None
      case Some(k) =>
        assert s[1..][..k] == s[1..k + 1];
        Some(k + 1)
  }

  /** The part of a URL before its query. */
  function PathOf(s: string): string
  {
    match QueryMark(s)
    case None => s
    case Some(k) => s[..k]
  }

  /** The query of a URL: everything after the first `?`, if there is one. */
  function QueryOf(s: string): Option<string>
  {
    match QueryMark(s)
    case None => None
    case Some(k) => Some(s[k + 1..])
  }

  /** The cURL constant a custom option key names: the key is upper-cased, every
      "CURLOPT_" in it is deleted, and "CURLOPT_" is put in front. */
  function OptionName(key: string): (r: string)
    ensures |CURLOPT_PREFIX| <= |r| <= |CURLOPT_PREFIX| + |key|
    ensures r[..|CURLOPT_PREFIX|] == CURLOPT_PREFIX
    ensures forall k :: 0 <= k < |r| ==> !('a' <= r[k] <= 'z')
  {
    UpperLetters(key);
    var rest := RemoveAll(CURLOPT_PREFIX, Upper(key));
    assert forall k :: 0 <= k < |rest| ==> rest[k] in Upper(key);
    CURLOPT_PREFIX + rest
  }

  function HeaderLine(header: (string, string)): string
  {
    header.0 + ": " + header.1
  }

  /** The default headers formatted as "Name: Value", in map order. */
  function HeaderLines(headers: seq<(string, string)>): seq<string>
  {
    if headers == [] then []
    else HeaderLines(headers[..|headers| - 1]) + [HeaderLine(headers[|headers| - 1])]
  }

  /** The header list handed to cURL: the call's own headers, then the defaults. */
  function HeaderList(callHeaders: seq<string>, headers: seq<(string, string)>): seq<string>
  {
    callHeaders + HeaderLines(headers)
  }

  /** The client's settings that a request reads. */
  datatype Settings = Settings(
    userAgent: Value,
    cookieFile: Value,
    followRedirects: Value,
    referrer: Value,
    options: seq<(string, Value)>,
    headers: seq<(string, string)>)

  /** setRequestMethod: the one option a verb sets. */
  function WithMethod(writes: seq<Write>, verb: string): (r: seq<Write>)
    ensures |r| == |writes| + 1 && r[..|writes|] == writes
    ensures r[|writes|].option in {CURLOPT_NOBODY, CURLOPT_HTTPGET, CURLOPT_POST, CURLOPT_CUSTOMREQUEST}
    ensures r[|writes|].option == CURLOPT_CUSTOMREQUEST <==> verb !in {"HEAD", "GET", "POST"}
  {
    if verb == "HEAD" then SetOption(writes, CURLOPT_NOBODY, Bool(true))
    else if verb == "GET" then SetOption(writes, CURLOPT_HTTPGET, Bool(true))
    else if verb == "POST" then SetOption(writes, CURLOPT_POST, Bool(true))
    else SetOption(writes, CURLOPT_CUSTOMREQUEST, Str(verb))
  }

  /** The first part of setRequestOptions: the URL, the body when the encoded
      parameters are not empty, then the default options. */
  function WithDefaults(writes: seq<Write>, s: Settings, url: string, vars: string): (r: seq<Write>)
    ensures |writes| + 4 <= |r| <= |writes| + 9 && r[..|writes|] == writes
    ensures forall k :: |writes| <= k < |r| ==> r[k].option in DefaultOptions
  {
    WithRedirects(WithCookies(WithBasics(WithTarget(writes, url, vars), s.userAgent), s.cookieFile),
                  s.followRedirects, s.referrer)
  }

  /** The URL, and the body unless the encoded parameters are empty. */
  function WithTarget(writes: seq<Write>, url: string, vars: string): (r: seq<Write>)
    ensures |writes| + 1 <= |r| <= |writes| + 2 && r[..|writes|] == writes
    ensures forall k :: |writes| <= k < |r| ==> r[k].option in DefaultOptions
  {
    var w := SetOption(writes, CURLOPT_URL, Str(url));
    if !Empty(Str(vars)) then SetOption(w, CURLOPT_POSTFIELDS, Str(vars)) else w
  }

  /** The options written on every request. */
  function WithBasics(writes: seq<Write>, userAgent: Value): (r: seq<Write>)
    ensures |r| == |writes| + 3 && r[..|writes|] == writes
    ensures forall k :: |writes| <= k < |r| ==> r[k].option in DefaultOptions
  {
    var w := SetOption(writes, CURLOPT_HEADER, Bool(true));
    var w := SetOption(w, CURLOPT_RETURNTRANSFER, Bool(true));
    SetOption(w, CURLOPT_USERAGENT, userAgent)
  }

  /** The cookie file, used to read and to store cookies, when it is set. */
  function WithCookies(writes: seq<Write>, cookieFile: Value): (r: seq<Write>)
    ensures |writes| <= |r| <= |writes| + 2 && r[..|writes|] == writes
    ensures forall k :: |writes| <= k < |r| ==> r[k].option in DefaultOptions
  {
    if Truthy(cookieFile)
    then SetOption(SetOption(writes, CURLOPT_COOKIEFILE, cookieFile), CURLOPT_COOKIEJAR, cookieFile)
    else writes
  }

  /** Redirect following and the referrer, each when it is set. */
  function WithRedirects(writes: seq<Write>, followRedirects: Value, referrer: Value): (r: seq<Write>)
    ensures |writes| <= |r| <= |writes| + 2 && r[..|writes|] == writes
    ensures forall k :: |writes| <= k < |r| ==> r[k].option in DefaultOptions
  {
    var w := if Truthy(followRedirects) then SetOption(writes, CURLOPT_FOLLOWLOCATION, Bool(true)) else writes;
    if Truthy(referrer) then SetOption(w, CURLOPT_REFERER, referrer) else w
  }

  /** The options the first part of setRequestOptions may write. */
  const DefaultOptions: set<string> := {
    CURLOPT_URL, CURLOPT_POSTFIELDS, CURLOPT_HEADER, CURLOPT_RETURNTRANSFER, CURLOPT_USERAGENT,
    CURLOPT_COOKIEFILE, CURLOPT_COOKIEJAR, CURLOPT_FOLLOWLOCATION, CURLOPT_REFERER}

  /** The second part of setRequestOptions: each custom option, in map order,
      under the constant its key names. */
  function WithCustom(writes: seq<Write>, options: seq<(string, Value)>): (r: seq<Write>)
    ensures |r| == |writes| + |options| && r[..|writes|] == writes
    ensures forall k :: 0 <= k < |options| ==> r[|writes| + k] == Write(OptionName(options[k].0), options[k].1)
  {
    if options == [] then writes
    else
      var last := options[|options| - 1];
      SetOption(WithCustom(writes, options[..|options| - 1]), OptionName(last.0), last.1)
  }

  /** One more custom option extends the writes by that option's write. */
  lemma WithCustomStep(writes: seq<Write>, options: seq<(string, Value)>, i: nat)
    requires i < |options|
    ensures WithCustom(writes, options[..i + 1])
         == SetOption(WithCustom(writes, options[..i]), OptionName(options[i].0), options[i].1)
  {
    assert options[..i + 1][..i] == options[..i];
  }

  function WithOptions(writes: seq<Write>, s: Settings, url: string, vars: string): seq<Write>
  {
    WithCustom(WithDefaults(writes, s, url, vars), s.options)
  }

  /** setRequestHeaders: the assembled header list. */
  function WithHeaders(writes: seq<Write>, callHeaders: seq<string>, headers: seq<(string, string)>): (r: seq<Write>)
    ensures |r| == |writes| + 1 && r[..|writes|] == writes
    ensures Lookup(r, CURLOPT_HTTPHEADER) == Some(List(HeaderList(callHeaders, headers)))
  {
    SetOption(writes, CURLOPT_HTTPHEADER, List(HeaderList(callHeaders, headers)))
  }

  /** Every curl_setopt of one request on a fresh handle, in order. */
  function RequestLog(s: Settings, verb: string, url: string, vars: string, callHeaders: seq<string>): (r: seq<Write>)
    ensures 6 + |s.options| <= |r| <= 11 + |s.options|
    ensures r[0].option in {CURLOPT_NOBODY, CURLOPT_HTTPGET, CURLOPT_POST, CURLOPT_CUSTOMREQUEST}
    ensures r[|r| - 1] == Write(CURLOPT_HTTPHEADER, List(HeaderList(callHeaders, s.headers)))
  {
    WithHeaders(WithOptions(WithMethod([], verb), s, url, vars), callHeaders, s.headers)
  }

  /** The value an option ends up with after one request. */
  function FinalOption(s: Settings, verb: string, url: string, vars: string, callHeaders: seq<string>,
                       option: string): Option<Value>
  {
    Lookup(RequestLog(s, verb, url, vars, callHeaders), option)
  }

  /** What curl_exec, curl_errno and curl_error report for one transfer. */
  datatype Transfer = Transfer(raw: Value, errno: nat, message: string)

  /** A parsed response; its parsing is not part of this model. */
  datatype Response = Response(raw: Value)

  /** A request either returns a Response or raises a CurlException. */
  datatype Outcome = Success(response: Response) | CurlException(message: string)

  /** The error recorded for a failed transfer: "<errno> - <message>". */
  function ErrorString(errno: nat, message: string): (r: string)
    ensures var n := DigitRun(r); 0 < n && ParseDecimal(r[..n]) == errno && r[n..] == " - " + message
    ensures DigitRun(r) == 1 || r[0] != '0'
  {
    var digits := Decimal(errno);
    DigitRunOfDigits(digits, " - " + message);
    DecimalRoundTrip(errno);
    assert (digits + (" - " + message))[..|digits|] == digits;
    digits + (" - " + message)
  }

  /** The user agent used when the constructor receives none: the ambient
      HTTP_USER_AGENT server variable when set, else a library identifier. */
  function AmbientUserAgent(server: Option<string>, phpVersion: string): (r: string)
    ensures server.Some? ==> r == server.value
    ensures server.None? ==> 9 <= |r| && r[..9] == "Curl/PHP " && OccursAt(phpVersion, r, 9)
  {
    match server
    case Some(agent) => agent
    case None => "Curl/PHP " + phpVersion + " (http://github.com/shuber/curl)"
  }

  /** The user agent the constructor stores, as written: only a null argument
      leads to an assignment, so any other argument leaves the field null. */
  function StoredUserAgent(arg: Value, server: Option<string>, phpVersion: string): (r: Value)
    ensures r.Null? <==> !arg.Null?
    ensures arg.Null? ==> r == Str(AmbientUserAgent(server, phpVersion))
  {
    if arg.Null? then Str(AmbientUserAgent(server, phpVersion)) else Null
  }

  /** The user agent the constructor evidently means to store: the argument,
      or the ambient default when the argument is null. */
  function IntendedUserAgent(arg: Value, server: Option<string>, phpVersion: string): (r: Value)
    ensures !arg.Null? ==> r == arg
    ensures arg.Null? ==> r == Str(AmbientUserAgent(server, phpVersion))
    ensures !r.Null?
  {
    if arg.Null? then Str(AmbientUserAgent(server, phpVersion)) else arg
  }

  class Wrapper {
    var userAgent: Value
    var cookieFile: Value
    var followRedirects: Value
    var referrer: Value
    var options: seq<(string, Value)>
    var headers: seq<(string, string)>
    var error: string
    var request: Handle?

    function CurrentSettings(): Settings
      reads this
    {
      Settings(userAgent, cookieFile, followRedirects, referrer, options, headers)
    }

    /** The current handle holds exactly the writes of one request. */
    ghost predicate Configured(verb: string, url: string, vars: string, callHeaders: seq<string>)
      reads this, request
    {
      && request != null
      && request.writes == RequestLog(CurrentSettings(), verb, url, vars, callHeaders)
    }

    /** A truthy raw response is wrapped and leaves the error empty; anything
        else records "<errno> - <message>" and raises it. */
    predicate Concluded(transfer: Transfer, outcome: Outcome)
      reads this
    {
      if Truthy(transfer.raw) then
        outcome == Success(Response(transfer.raw)) && error == ""
      else
        outcome == CurlException(ErrorString(transfer.errno, transfer.message))
        && error == outcome.message
    }

    /** `server` is the HTTP_USER_AGENT server variable (None when unset) and
        `phpVersion` the running PHP version; the rest are the PHP arguments
        with their PHP defaults. */
    constructor (server: Option<string>, phpVersion: string,
                 userAgent: Value := Null, cookieFile: Value := Bool(false),
                 followRedirects: Value := Bool(false), referrer: Value := Bool(false),
                 options: seq<(string, Value)> := [], headers: seq<(string, string)> := [])
      ensures this.userAgent == StoredUserAgent(userAgent, server, phpVersion)
      ensures this.cookieFile == cookieFile && this.followRedirects == followRedirects
      ensures this.referrer == referrer && this.options == options && this.headers == headers
      ensures error == "" && request == null
    {
      // field initialisers, then the constructor body
      this.userAgent := Null;
      this.followRedirects := Bool(true);
      this.error := "";
      this.request := null;
      if userAgent.Null? {
        this.userAgent := Str(AmbientUserAgent(server, phpVersion));
      }
      this.cookieFile := cookieFile;
      this.followRedirects := followRedirects;
      this.referrer := referrer;
      this.options := options;
      this.headers := headers;
    }

    method GetError() returns (e: string)
      ensures e == error
    {
      e := error;
    }

    method Delete(url: string, params: Params := Fields([]), enc: QueryEncoder, transfer: Transfer) returns (outcome: Outcome)
      modifies this
      ensures CurrentSettings() == old(CurrentSettings())
      ensures fresh(request) && Configured("DELETE", url, EncodeParams(params, enc), [])
      ensures Concluded(transfer, outcome)
    {
      outcome := Request("DELETE", url, params, [], enc, transfer);
    }

    /** GET puts the parameters into the URL and passes none to `Request`. */
    method Get(url: string, params: Params := Fields([]), enc: QueryEncoder, transfer: Transfer) returns (outcome: Outcome)
      modifies this
      ensures CurrentSettings() == old(CurrentSettings())
      ensures fresh(request) && Configured("GET", GetUrl(url, params, enc), "", [])
      ensures Concluded(transfer, outcome)
    {
      var target := url;
      if !ParamsEmpty(params) {
        target := target + [if '?' in target then '&' else '?'];
        target := target + EncodeParams(params, enc);
      }
      outcome := Request("GET", target, Fields([]), [], enc, transfer);
    }

    method Head(url: string, params: Params := Fields([]), enc: QueryEncoder, transfer: Transfer) returns (outcome: Outcome)
      modifies this
      ensures CurrentSettings() == old(CurrentSettings())
      ensures fresh(request) && Configured("HEAD", url, EncodeParams(params, enc), [])
      ensures Concluded(transfer, outcome)
    {
      outcome := Request("HEAD", url, params, [], enc, transfer);
    }

    method Post(url: string, params: Params := Fields([]), callHeaders: seq<string> := [], enc: QueryEncoder, transfer: Transfer)
      returns (outcome: Outcome)
      modifies this
      ensures CurrentSettings() == old(CurrentSettings())
      ensures fresh(request) && Configured("POST", url, EncodeParams(params, enc), callHeaders)
      ensures Concluded(transfer, outcome)
    {
      outcome := Request("POST", url, params, callHeaders, enc, transfer);
    }

    method Put(url: string, params: Params := Fields([]), enc: QueryEncoder, transfer: Transfer) returns (outcome: Outcome)
      modifies this
      ensures CurrentSettings() == old(CurrentSettings())
      ensures fresh(request) && Configured("PUT", url, EncodeParams(params, enc), [])
      ensures Concluded(transfer, outcome)
    {
      outcome := Request("PUT", url, params, [], enc, transfer);
    }

    method Request(verb: string, url: string, params: Params := Fields([]), callHeaders: seq<string> := [],
                   enc: QueryEncoder, transfer: Transfer) returns (outcome: Outcome)
      modifies this
      ensures CurrentSettings() == old(CurrentSettings())
      ensures fresh(request) && Configured(verb, url, EncodeParams(params, enc), callHeaders)
      ensures Concluded(transfer, outcome)
    {
      var vars := EncodeParams(params, enc);
      error := "";
      request := new Handle();
      SetRequestMethod(verb);
      SetRequestOptions(url, vars);
      SetRequestHeaders(callHeaders);
      if Truthy(transfer.raw) {
        outcome := Success(Response(transfer.raw));
      } else {
        error := ErrorString(transfer.errno, transfer.message);
        outcome := CurlException(error);
      }
    }

    method SetRequestMethod(verb: string)
      requires request != null
      modifies request
      ensures request.writes == WithMethod(old(request.writes), verb)
    {
      if verb == "HEAD" {
        request.SetOpt(CURLOPT_NOBODY, Bool(true));
      } else if verb == "GET" {
        request.SetOpt(CURLOPT_HTTPGET, Bool(true));
      } else if verb == "POST" {
        request.SetOpt(CURLOPT_POST, Bool(true));
      } else {
        request.SetOpt(CURLOPT_CUSTOMREQUEST, Str(verb));
      }
    }

    method SetRequestOptions(url: string, vars: string)
      requires request != null
      modifies request
      ensures request.writes == WithOptions(old(request.writes), CurrentSettings(), url, vars)
    {
      ghost var start := request.writes;
      request.SetOpt(CURLOPT_URL, Str(url));
      if !Empty(Str(vars)) {
        request.SetOpt(CURLOPT_POSTFIELDS, Str(vars));
      }
      ghost var target := request.writes;
      assert target == WithTarget(start, url, vars);
      // default options
      request.SetOpt(CURLOPT_HEADER, Bool(true));
      request.SetOpt(CURLOPT_RETURNTRANSFER, Bool(true));
      request.SetOpt(CURLOPT_USERAGENT, userAgent);
      ghost var basics := request.writes;
      assert basics == WithBasics(target, userAgent);
      if Truthy(cookieFile) {
        request.SetOpt(CURLOPT_COOKIEFILE, cookieFile);
        request.SetOpt(CURLOPT_COOKIEJAR, cookieFile);
      }
      ghost var cookies := request.writes;
      assert cookies == WithCookies(basics, cookieFile);
      if Truthy(followRedirects) {
        request.SetOpt(CURLOPT_FOLLOWLOCATION, Bool(true));
      }
      if Truthy(referrer) {
        request.SetOpt(CURLOPT_REFERER, referrer);
      }
      assert request.writes == WithDefaults(start, CurrentSettings(), url, vars);
      // custom options
      var handle, custom := request, options;
      ghost var defaults := handle.writes;
      for i := 0 to |custom|
        invariant handle.writes == WithCustom(defaults, custom[..i])
      {
        WithCustomStep(defaults, custom, i);
        handle.SetOpt(OptionName(custom[i].0), custom[i].1);
      }
      assert custom[..|custom|] == custom;
    }

    method SetRequestHeaders(callHeaders: seq<string>)
      requires request != null
      modifies request
      ensures request.writes == WithHeaders(old(request.writes), callHeaders, headers)
    {
      var lines := callHeaders;
      for i := 0 to |headers|
        invariant lines == callHeaders + HeaderLines(headers[..i])
      {
        lines := lines + [HeaderLine(headers[i])];
        assert headers[..i + 1][..i] == headers[..i];
      }
      assert headers[..|headers|] == headers;
      request.SetOpt(CURLOPT_HTTPHEADER, List(lines));
    }
  }
}
