/** What one request built by Curl/Wrapper.php leaves in the cURL handle, the
    URL that `get` requests, the header list, option-name resolution and the
    recorded error string. */
module CurlProperties {
  import opened Php
  import opened CurlHandle
  import opened Curl

  // ---------------------------------------------------------------------------
  // Option names
  // ---------------------------------------------------------------------------

  lemma {:induction false} UpperAppend(a: string, b: string)
    ensures Upper(a + b) == Upper(a) + Upper(b)
  {
    assert forall k :: 0 <= k < |a + b| ==> Upper(a + b)[k] == (Upper(a) + Upper(b))[k];
  }

  /** The redundant prefix is tolerated, in either case: "CURLOPT_X",
      "curlopt_x" and "x" name the same constant. */
  lemma OptionNameIgnoresPrefix(key: string)
    ensures OptionName("CURLOPT_" + key) == OptionName(key)
    ensures OptionName("curlopt_" + key) == OptionName(key)
  {
    UpperAppend("CURLOPT_", key);
    UpperAppend("curlopt_", key);
    assert Upper("CURLOPT_") == CURLOPT_PREFIX;
    assert Upper("curlopt_") == CURLOPT_PREFIX;
    RemoveAllLeading(CURLOPT_PREFIX, Upper(key));
  }

  /** A key without an embedded "CURLOPT_" names the constant spelled by its
      upper-cased form behind the prefix. */
  lemma OptionNameOfPlainKey(key: string)
    requires !Occurs(CURLOPT_PREFIX, Upper(key))
    ensures OptionName(key) == CURLOPT_PREFIX + Upper(key)
  {
    RemoveAllWithoutOccurrence(CURLOPT_PREFIX, Upper(key));
  }

  /** "url", "URL", "curlopt_url" and "CURLOPT_URL" all resolve to CURLOPT_URL. */
  lemma UrlKeySpellings()
    ensures OptionName("url") == CURLOPT_URL
    ensures OptionName("URL") == CURLOPT_URL
    ensures OptionName("curlopt_url") == CURLOPT_URL
    ensures OptionName("CURLOPT_URL") == CURLOPT_URL
  {
    assert Upper("url") == "URL";
    assert Upper("URL") == "URL";
    OptionNameOfPlainKey("url");
    OptionNameOfPlainKey("URL");
    OptionNameIgnoresPrefix("url");
    OptionNameIgnoresPrefix("URL");
    assert "curlopt_" + "url" == "curlopt_url";
    assert "CURLOPT_" + "URL" == "CURLOPT_URL";
  }

  // ---------------------------------------------------------------------------
  // Custom options: applied last, in map order
  // ---------------------------------------------------------------------------

  /** Some custom option's key resolves to `option`. */
  predicate Customises(options: seq<(string, Value)>, option: string)
  {
    exists k | 0 <= k < |options| :: OptionName(options[k].0) == option
  }

  /** The value of the last custom option (in map order) whose key resolves
      to `option`. */
  function LastCustom(options: seq<(string, Value)>, option: string): Option<Value>
  {
    if options == [] then None
    else if OptionName(options[|options| - 1].0) == option then Some(options[|options| - 1].1)
    else LastCustom(options[..|options| - 1], option)
  }

  /** LastCustom picks the value of the last key that resolves to `option`,
      and is None exactly when no key does. */
  lemma {:induction false} LastCustomIsLastMatch(options: seq<(string, Value)>, option: string)
    ensures LastCustom(options, option).None? <==> !Customises(options, option)
    ensures LastCustom(options, option).Some? ==>
      exists k | 0 <= k < |options| ::
        && OptionName(options[k].0) == option
        && LastCustom(options, option) == Some(options[k].1)
        && forall j | k < j < |options| :: OptionName(options[j].0) != option
  {
    if options != [] {
      var n := |options| - 1;
      var prefix := options[..n];
      LastCustomIsLastMatch(prefix, option);
      if OptionName(options[n].0) != option {
        assert forall k | 0 <= k < n :: prefix[k] == options[k];
        if Customises(options, option) {
          var k :| 0 <= k < |options| && OptionName(options[k].0) == option;
          assert OptionName(prefix[k].0) == option;
        }
      }
    }
  }

  /** Custom options override whatever was written before them: an option a
      custom key resolves to holds the last such key's value, any other option
      keeps its earlier value. */
  lemma {:induction false} CustomOptionsOverride(writes: seq<Write>, options: seq<(string, Value)>, option: string)
    ensures Lookup(WithCustom(writes, options), option)
         == if LastCustom(options, option).Some? then LastCustom(options, option) else Lookup(writes, option)
  {
    if options != [] {
      var n := |options| - 1;
      CustomOptionsOverride(writes, options[..n], option);
      LookupSetOption(WithCustom(writes, options[..n]), OptionName(options[n].0), options[n].1, option);
    }
  }

  // ---------------------------------------------------------------------------
  // The steps of one request
  // ---------------------------------------------------------------------------

  /** What setRequestMethod leaves on a fresh handle. */
  lemma MethodStep(verb: string, option: string)
    ensures Lookup(WithMethod([], verb), option)
         == if verb == "HEAD" then (if option == CURLOPT_NOBODY then Some(Bool(true)) else None)
            else if verb == "GET" then (if option == CURLOPT_HTTPGET then Some(Bool(true)) else None)
            else if verb == "POST" then (if option == CURLOPT_POST then Some(Bool(true)) else None)
            else if option == CURLOPT_CUSTOMREQUEST then Some(Str(verb)) else None
  {
    if verb == "HEAD" {
      LookupSetOption([], CURLOPT_NOBODY, Bool(true), option);
    } else if verb == "GET" {
      LookupSetOption([], CURLOPT_HTTPGET, Bool(true), option);
    } else if verb == "POST" {
      LookupSetOption([], CURLOPT_POST, Bool(true), option);
    } else {
      LookupSetOption([], CURLOPT_CUSTOMREQUEST, Str(verb), option);
    }
  }

  /** What the first part of setRequestOptions leaves, option by option. */
  lemma DefaultStep(writes: seq<Write>, s: Settings, url: string, vars: string, option: string)
    ensures Lookup(WithDefaults(writes, s, url, vars), option)
         == if option == CURLOPT_URL then Some(Str(url))
            else if option == CURLOPT_POSTFIELDS && !Empty(Str(vars)) then Some(Str(vars))
            else if option == CURLOPT_HEADER || option == CURLOPT_RETURNTRANSFER then Some(Bool(true))
            else if option == CURLOPT_USERAGENT then Some(s.userAgent)
            else if (option == CURLOPT_COOKIEFILE || option == CURLOPT_COOKIEJAR) && Truthy(s.cookieFile)
            then Some(s.cookieFile)
            else if option == CURLOPT_FOLLOWLOCATION && Truthy(s.followRedirects) then Some(Bool(true))
            else if option == CURLOPT_REFERER && Truthy(s.referrer) then Some(s.referrer)
            else Lookup(writes, option)
  {
    var t := WithTarget(writes, url, vars);
    var b := WithBasics(t, s.userAgent);
    var c := WithCookies(b, s.cookieFile);
    TargetLookup(writes, url, vars, option);
    BasicsLookup(t, s.userAgent, option);
    CookiesLookup(b, s.cookieFile, option);
    RedirectsLookup(c, s.followRedirects, s.referrer, option);
  }

  lemma TargetLookup(writes: seq<Write>, url: string, vars: string, option: string)
    ensures Lookup(WithTarget(writes, url, vars), option)
         == if option == CURLOPT_URL then Some(Str(url))
            else if option == CURLOPT_POSTFIELDS && !Empty(Str(vars)) then Some(Str(vars))
            else Lookup(writes, option)
  {
    var w := SetOption(writes, CURLOPT_URL, Str(url));
    LookupSetOption(writes, CURLOPT_URL, Str(url), option);
    LookupSetOption(w, CURLOPT_POSTFIELDS, Str(vars), option);
  }

  lemma BasicsLookup(writes: seq<Write>, userAgent: Value, option: string)
    ensures Lookup(WithBasics(writes, userAgent), option)
         == if option == CURLOPT_HEADER || option == CURLOPT_RETURNTRANSFER then Some(Bool(true))
            else if option == CURLOPT_USERAGENT then Some(userAgent)
            else Lookup(writes, option)
  {
    var w1 := SetOption(writes, CURLOPT_HEADER, Bool(true));
    var w2 := SetOption(w1, CURLOPT_RETURNTRANSFER, Bool(true));
    LookupSetOption(writes, CURLOPT_HEADER, Bool(true), option);
    LookupSetOption(w1, CURLOPT_RETURNTRANSFER, Bool(true), option);
    LookupSetOption(w2, CURLOPT_USERAGENT, userAgent, option);
  }

  lemma CookiesLookup(writes: seq<Write>, cookieFile: Value, option: string)
    ensures Lookup(WithCookies(writes, cookieFile), option)
         == if (option == CURLOPT_COOKIEFILE || option == CURLOPT_COOKIEJAR) && Truthy(cookieFile)
            then Some(cookieFile)
            else Lookup(writes, option)
  {
    var w := SetOption(writes, CURLOPT_COOKIEFILE, cookieFile);
    LookupSetOption(writes, CURLOPT_COOKIEFILE, cookieFile, option);
    LookupSetOption(w, CURLOPT_COOKIEJAR, cookieFile, option);
  }

  lemma RedirectsLookup(writes: seq<Write>, followRedirects: Value, referrer: Value, option: string)
    ensures Lookup(WithRedirects(writes, followRedirects, referrer), option)
         == if option == CURLOPT_FOLLOWLOCATION && Truthy(followRedirects) then Some(Bool(true))
            else if option == CURLOPT_REFERER && Truthy(referrer) then Some(referrer)
            else Lookup(writes, option)
  {
    var w := if Truthy(followRedirects) then SetOption(writes, CURLOPT_FOLLOWLOCATION, Bool(true)) else writes;
    LookupSetOption(writes, CURLOPT_FOLLOWLOCATION, Bool(true), option);
    LookupSetOption(w, CURLOPT_REFERER, referrer, option);
  }

  /** The value an option ends up with: the header list for HTTPHEADER (it is
      written after the custom options), else the last custom option that
      resolves to it, else what the verb and the defaults wrote. */
  lemma FinalOptionLayers(s: Settings, verb: string, url: string, vars: string, callHeaders: seq<string>,
                          option: string)
    ensures FinalOption(s, verb, url, vars, callHeaders, option)
         == if option == CURLOPT_HTTPHEADER then Some(List(HeaderList(callHeaders, s.headers)))
            else if LastCustom(s.options, option).Some? then LastCustom(s.options, option)
            else Lookup(WithDefaults(WithMethod([], verb), s, url, vars), option)
  {
    var custom := WithOptions(WithMethod([], verb), s, url, vars);
    LookupSetOption(custom, CURLOPT_HTTPHEADER, List(HeaderList(callHeaders, s.headers)), option);
    CustomOptionsOverride(WithDefaults(WithMethod([], verb), s, url, vars), s.options, option);
  }

  /** An option that no custom key resolves to ends up with what the verb and
      the defaults wrote. */
  lemma BuiltInOption(s: Settings, verb: string, url: string, vars: string, callHeaders: seq<string>,
                      option: string)
    requires option != CURLOPT_HTTPHEADER && !Customises(s.options, option)
    ensures FinalOption(s, verb, url, vars, callHeaders, option)
         == Lookup(WithDefaults(WithMethod([], verb), s, url, vars), option)
  {
    FinalOptionLayers(s, verb, url, vars, callHeaders, option);
    LastCustomIsLastMatch(s.options, option);
  }

  // ---------------------------------------------------------------------------
  // The options of a request
  // ---------------------------------------------------------------------------

  /** HEAD sets only NOBODY, GET only HTTPGET, POST only POST; every other verb
      sets CUSTOMREQUEST to itself and none of the three flags. */
  lemma VerbOptions(s: Settings, verb: string, url: string, vars: string, callHeaders: seq<string>)
    requires !Customises(s.options, CURLOPT_NOBODY) && !Customises(s.options, CURLOPT_HTTPGET)
    requires !Customises(s.options, CURLOPT_POST) && !Customises(s.options, CURLOPT_CUSTOMREQUEST)
    ensures FinalOption(s, verb, url, vars, callHeaders, CURLOPT_NOBODY)
         == if verb == "HEAD" then Some(Bool(true)) else None
    ensures FinalOption(s, verb, url, vars, callHeaders, CURLOPT_HTTPGET)
         == if verb == "GET" then Some(Bool(true)) else None
    ensures FinalOption(s, verb, url, vars, callHeaders, CURLOPT_POST)
         == if verb == "POST" then Some(Bool(true)) else None
    ensures FinalOption(s, verb, url, vars, callHeaders, CURLOPT_CUSTOMREQUEST)
         == if verb != "HEAD" && verb != "GET" && verb != "POST" then Some(Str(verb)) else None
  {
    MethodOptionSurvives(s, verb, url, vars, callHeaders, CURLOPT_NOBODY);
    MethodOptionSurvives(s, verb, url, vars, callHeaders, CURLOPT_HTTPGET);
    MethodOptionSurvives(s, verb, url, vars, callHeaders, CURLOPT_POST);
    MethodOptionSurvives(s, verb, url, vars, callHeaders, CURLOPT_CUSTOMREQUEST);
    MethodStep(verb, CURLOPT_NOBODY);
    MethodStep(verb, CURLOPT_HTTPGET);
    MethodStep(verb, CURLOPT_POST);
    MethodStep(verb, CURLOPT_CUSTOMREQUEST);
  }

  /** A verb option no custom key resolves to keeps what the verb wrote. */
  lemma MethodOptionSurvives(s: Settings, verb: string, url: string, vars: string, callHeaders: seq<string>,
                             option: string)
    requires option in {CURLOPT_NOBODY, CURLOPT_HTTPGET, CURLOPT_POST, CURLOPT_CUSTOMREQUEST}
    requires !Customises(s.options, option)
    ensures FinalOption(s, verb, url, vars, callHeaders, option) == Lookup(WithMethod([], verb), option)
  {
    BuiltInOption(s, verb, url, vars, callHeaders, option);
    DefaultStep(WithMethod([], verb), s, url, vars, option);
  }

  /** The body is set exactly when the encoded parameters are not empty, and
      then it is those parameters. */
  lemma BodyOption(s: Settings, verb: string, url: string, vars: string, callHeaders: seq<string>)
    requires !Customises(s.options, CURLOPT_POSTFIELDS)
    ensures FinalOption(s, verb, url, vars, callHeaders, CURLOPT_POSTFIELDS)
         == if !Empty(Str(vars)) then Some(Str(vars)) else None
  {
    BuiltInOption(s, verb, url, vars, callHeaders, CURLOPT_POSTFIELDS);
    DefaultStep(WithMethod([], verb), s, url, vars, CURLOPT_POSTFIELDS);
    MethodStep(verb, CURLOPT_POSTFIELDS);
  }

  /** GET passes no parameters to `request`, so it never sends a body; it
      fetches the URL built by GetUrl with HTTPGET set. */
  lemma GetSendsNoBody(s: Settings, url: string, params: Params, enc: QueryEncoder)
    requires !Customises(s.options, CURLOPT_POSTFIELDS)
    requires !Customises(s.options, CURLOPT_URL) && !Customises(s.options, CURLOPT_HTTPGET)
    ensures FinalOption(s, "GET", GetUrl(url, params, enc), EncodeParams(Fields([]), enc), [], CURLOPT_POSTFIELDS)
         == None
    ensures FinalOption(s, "GET", GetUrl(url, params, enc), EncodeParams(Fields([]), enc), [], CURLOPT_URL)
         == Some(Str(GetUrl(url, params, enc)))
    ensures FinalOption(s, "GET", GetUrl(url, params, enc), EncodeParams(Fields([]), enc), [], CURLOPT_HTTPGET)
         == Some(Bool(true))
  {
    var target, vars := GetUrl(url, params, enc), EncodeParams(Fields([]), enc);
    BodyOption(s, "GET", target, vars, []);
    BuiltInOption(s, "GET", target, vars, [], CURLOPT_URL);
    DefaultStep(WithMethod([], "GET"), s, target, vars, CURLOPT_URL);
    VerbOptionHttpGet(s, target, vars);
  }

  lemma VerbOptionHttpGet(s: Settings, url: string, vars: string)
    requires !Customises(s.options, CURLOPT_HTTPGET)
    ensures FinalOption(s, "GET", url, vars, [], CURLOPT_HTTPGET) == Some(Bool(true))
  {
    BuiltInOption(s, "GET", url, vars, [], CURLOPT_HTTPGET);
    DefaultStep(WithMethod([], "GET"), s, url, vars, CURLOPT_HTTPGET);
    MethodStep("GET", CURLOPT_HTTPGET);
  }

  /** HEAD leaves the URL alone and sends non-empty parameters as a body,
      alongside NOBODY. */
  lemma HeadSendsParamsAsBody(s: Settings, url: string, params: Params, enc: QueryEncoder)
    requires !Empty(Str(EncodeParams(params, enc)))
    requires !Customises(s.options, CURLOPT_POSTFIELDS) && !Customises(s.options, CURLOPT_URL)
    requires !Customises(s.options, CURLOPT_NOBODY)
    ensures FinalOption(s, "HEAD", url, EncodeParams(params, enc), [], CURLOPT_POSTFIELDS)
         == Some(Str(EncodeParams(params, enc)))
    ensures FinalOption(s, "HEAD", url, EncodeParams(params, enc), [], CURLOPT_URL) == Some(Str(url))
    ensures FinalOption(s, "HEAD", url, EncodeParams(params, enc), [], CURLOPT_NOBODY) == Some(Bool(true))
  {
    var vars := EncodeParams(params, enc);
    BodyOption(s, "HEAD", url, vars, []);
    BuiltInOption(s, "HEAD", url, vars, [], CURLOPT_URL);
    DefaultStep(WithMethod([], "HEAD"), s, url, vars, CURLOPT_URL);
    BuiltInOption(s, "HEAD", url, vars, [], CURLOPT_NOBODY);
    DefaultStep(WithMethod([], "HEAD"), s, url, vars, CURLOPT_NOBODY);
    MethodStep("HEAD", CURLOPT_NOBODY);
  }

  /** Raw headers in the output, output returned as a value, the URL and the
      user agent are always written. */
  lemma AlwaysWrittenOptions(s: Settings, verb: string, url: string, vars: string, callHeaders: seq<string>)
    requires !Customises(s.options, CURLOPT_URL) && !Customises(s.options, CURLOPT_HEADER)
    requires !Customises(s.options, CURLOPT_RETURNTRANSFER) && !Customises(s.options, CURLOPT_USERAGENT)
    ensures FinalOption(s, verb, url, vars, callHeaders, CURLOPT_URL) == Some(Str(url))
    ensures FinalOption(s, verb, url, vars, callHeaders, CURLOPT_HEADER) == Some(Bool(true))
    ensures FinalOption(s, verb, url, vars, callHeaders, CURLOPT_RETURNTRANSFER) == Some(Bool(true))
    ensures FinalOption(s, verb, url, vars, callHeaders, CURLOPT_USERAGENT) == Some(s.userAgent)
  {
    var start := WithMethod([], verb);
    BuiltInOption(s, verb, url, vars, callHeaders, CURLOPT_URL);
    DefaultStep(start, s, url, vars, CURLOPT_URL);
    BuiltInOption(s, verb, url, vars, callHeaders, CURLOPT_HEADER);
    DefaultStep(start, s, url, vars, CURLOPT_HEADER);
    BuiltInOption(s, verb, url, vars, callHeaders, CURLOPT_RETURNTRANSFER);
    DefaultStep(start, s, url, vars, CURLOPT_RETURNTRANSFER);
    BuiltInOption(s, verb, url, vars, callHeaders, CURLOPT_USERAGENT);
    DefaultStep(start, s, url, vars, CURLOPT_USERAGENT);
  }

  /** One cookie file is both read and written, exactly when it is truthy. */
  lemma CookieOptions(s: Settings, verb: string, url: string, vars: string, callHeaders: seq<string>)
    requires !Customises(s.options, CURLOPT_COOKIEFILE) && !Customises(s.options, CURLOPT_COOKIEJAR)
    ensures FinalOption(s, verb, url, vars, callHeaders, CURLOPT_COOKIEFILE)
         == if Truthy(s.cookieFile) then Some(s.cookieFile) else None
    ensures FinalOption(s, verb, url, vars, callHeaders, CURLOPT_COOKIEJAR)
         == FinalOption(s, verb, url, vars, callHeaders, CURLOPT_COOKIEFILE)
  {
    var start := WithMethod([], verb);
    BuiltInOption(s, verb, url, vars, callHeaders, CURLOPT_COOKIEFILE);
    DefaultStep(start, s, url, vars, CURLOPT_COOKIEFILE);
    MethodStep(verb, CURLOPT_COOKIEFILE);
    BuiltInOption(s, verb, url, vars, callHeaders, CURLOPT_COOKIEJAR);
    DefaultStep(start, s, url, vars, CURLOPT_COOKIEJAR);
    MethodStep(verb, CURLOPT_COOKIEJAR);
  }

  /** FOLLOWLOCATION is set (to true) only when followRedirects is truthy, and
      REFERER (to the referrer) only when the referrer is truthy. */
  lemma RedirectAndRefererOptions(s: Settings, verb: string, url: string, vars: string, callHeaders: seq<string>)
    requires !Customises(s.options, CURLOPT_FOLLOWLOCATION) && !Customises(s.options, CURLOPT_REFERER)
    ensures FinalOption(s, verb, url, vars, callHeaders, CURLOPT_FOLLOWLOCATION)
         == if Truthy(s.followRedirects) then Some(Bool(true)) else None
    ensures FinalOption(s, verb, url, vars, callHeaders, CURLOPT_REFERER)
         == if Truthy(s.referrer) then Some(s.referrer) else None
  {
    var start := WithMethod([], verb);
    BuiltInOption(s, verb, url, vars, callHeaders, CURLOPT_FOLLOWLOCATION);
    DefaultStep(start, s, url, vars, CURLOPT_FOLLOWLOCATION);
    MethodStep(verb, CURLOPT_FOLLOWLOCATION);
    BuiltInOption(s, verb, url, vars, callHeaders, CURLOPT_REFERER);
    DefaultStep(start, s, url, vars, CURLOPT_REFERER);
    MethodStep(verb, CURLOPT_REFERER);
  }

  /** A custom option overrides any default it resolves to: the option holds
      the value of the last key in map order that resolves to it. HTTPHEADER
      is the exception (see HeaderOptionIsAssembled). */
  lemma CustomOptionWins(s: Settings, verb: string, url: string, vars: string, callHeaders: seq<string>,
                         option: string, k: nat)
    requires k < |s.options| && OptionName(s.options[k].0) == option && option != CURLOPT_HTTPHEADER
    requires forall j | k < j < |s.options| :: OptionName(s.options[j].0) != option
    ensures FinalOption(s, verb, url, vars, callHeaders, option) == Some(s.options[k].1)
  {
    FinalOptionLayers(s, verb, url, vars, callHeaders, option);
    LastCustomIsLastMatch(s.options, option);
    if LastCustom(s.options, option).Some? {
      var i :| 0 <= i < |s.options| && OptionName(s.options[i].0) == option
        && LastCustom(s.options, option) == Some(s.options[i].1)
        && forall j | i < j < |s.options| :: OptionName(s.options[j].0) != option;
      assert i == k;
    }
  }

  /** The header list is written after the custom options, so the request
      always carries the assembled list, whatever the custom options say. */
  lemma HeaderOptionIsAssembled(s: Settings, verb: string, url: string, vars: string, callHeaders: seq<string>)
    ensures FinalOption(s, verb, url, vars, callHeaders, CURLOPT_HTTPHEADER)
         == Some(List(HeaderList(callHeaders, s.headers)))
  {
    FinalOptionLayers(s, verb, url, vars, callHeaders, CURLOPT_HTTPHEADER);
  }

  // ---------------------------------------------------------------------------
  // The header list
  // ---------------------------------------------------------------------------

  lemma {:induction false} HeaderLinesAt(headers: seq<(string, string)>)
    ensures |HeaderLines(headers)| == |headers|
    ensures forall i | 0 <= i < |headers| :: HeaderLines(headers)[i] == headers[i].0 + ": " + headers[i].1
  {
    if headers != [] {
      HeaderLinesAt(headers[..|headers| - 1]);
    }
  }

  /** The call's headers come first, unchanged and in order, then one
      "Name: Value" line per default header in map order. */
  lemma HeaderListShape(callHeaders: seq<string>, headers: seq<(string, string)>)
    ensures |HeaderList(callHeaders, headers)| == |callHeaders| + |headers|
    ensures HeaderList(callHeaders, headers)[..|callHeaders|] == callHeaders
    ensures forall i | 0 <= i < |headers| ::
      HeaderList(callHeaders, headers)[|callHeaders| + i] == headers[i].0 + ": " + headers[i].1
  {
    HeaderLinesAt(headers);
  }

  // ---------------------------------------------------------------------------
  // The URL of a GET request
  // ---------------------------------------------------------------------------

  /** The first `?` is the one QueryMark finds. */
  lemma QueryMarkAt(s: string, k: nat)
    requires k < |s| && s[k] == '?' && '?' !in s[..k]
    ensures QueryMark(s) == Some(k)
  {
  }

  /** `get` keeps the URL as a prefix and leaves it alone when the parameters
      are empty; otherwise the path is unchanged and the query is the URL's own
      query, then `&`, then the parameters, or just the parameters when the URL
      had none. */
  lemma GetUrlQuery(url: string, params: Params, enc: QueryEncoder)
    ensures |url| <= |GetUrl(url, params, enc)| && GetUrl(url, params, enc)[..|url|] == url
    ensures ParamsEmpty(params) ==> GetUrl(url, params, enc) == url
    ensures !ParamsEmpty(params) ==> PathOf(GetUrl(url, params, enc)) == PathOf(url)
    ensures !ParamsEmpty(params) ==>
              QueryOf(GetUrl(url, params, enc))
              == Some(match QueryOf(url)
                      case None => EncodeParams(params, enc)
                      case Some(query) => query + "&" + EncodeParams(params, enc))
  {
    var r := GetUrl(url, params, enc);
    if !ParamsEmpty(params) {
      var q := EncodeParams(params, enc);
      assert r[..|url|] == url;
      match QueryMark(url)
      case None =>
        assert r == url + "?" + q;
        QueryMarkAt(r, |url|);
        assert r[|url| + 1..] == q;
      case Some(k) =>
        assert r == url + "&" + q;
        assert r[..k] == url[..k];
        QueryMarkAt(r, k);
        assert r[k + 1..] == url[k + 1..] + "&" + q;
    }
  }

  /** With an encoder that turns [("y", "2")] into "y=2", a GET of
      "http://example.com/a?x=1" requests "http://example.com/a?x=1&y=2". */
  lemma GetUrlExample(enc: QueryEncoder)
    requires enc([("y", "2")]) == "y=2"
    ensures GetUrl("http://example.com/a?x=1", Fields([("y", "2")]), enc) == "http://example.com/a?x=1&y=2"
  {
    assert '?' in "http://example.com/a?x=1" by {
      assert "http://example.com/a?x=1"[20] == '?';
    }
  }

  // ---------------------------------------------------------------------------
  // The error string
  // ---------------------------------------------------------------------------

  /** Reads "<errno> - <message>" back into its two parts. */
  function ParseError(e: string): Option<(nat, string)>
  {
    var n := DigitRun(e);
    if 0 < n && n + 3 <= |e| && e[n..n + 3] == " - " then Some((ParseDecimal(e[..n]), e[n + 3..]))
    else None
  }

  /** The error string records both the error number and the message. */
  lemma ErrorStringRoundTrip(errno: nat, message: string)
    ensures ParseError(ErrorString(errno, message)) == Some((errno, message))
  {
    var d := Decimal(errno);
    var e := ErrorString(errno, message);
    assert e == d + (" - " + message);
    DigitRunOfDigits(d, " - " + message);
    assert e[..|d|] == d;
    assert e[|d|..|d| + 3] == " - ";
    assert e[|d| + 3..] == message;
    DecimalRoundTrip(errno);
  }

  // ---------------------------------------------------------------------------
  // The user agent given to the constructor
  // ---------------------------------------------------------------------------

  /** As written, a non-null user agent given to the constructor is dropped:
      the field stays null and requests send a null USERAGENT. */
  lemma UserAgentArgumentDropped(s: Settings, arg: Value, server: Option<string>, phpVersion: string,
                                 verb: string, url: string, vars: string, callHeaders: seq<string>)
    requires !arg.Null? && s.userAgent == StoredUserAgent(arg, server, phpVersion)
    requires !Customises(s.options, CURLOPT_USERAGENT)
    ensures FinalOption(s, verb, url, vars, callHeaders, CURLOPT_USERAGENT) == Some(Null)
  {
    BuiltInOption(s, verb, url, vars, callHeaders, CURLOPT_USERAGENT);
    DefaultStep(WithMethod([], verb), s, url, vars, CURLOPT_USERAGENT);
  }

  /** With the evident intent, the given user agent is sent, and the ambient
      default only when none is given. */
  lemma IntendedUserAgentIsSent(s: Settings, arg: Value, server: Option<string>, phpVersion: string,
                                verb: string, url: string, vars: string, callHeaders: seq<string>)
    requires s.userAgent == IntendedUserAgent(arg, server, phpVersion)
    requires !Customises(s.options, CURLOPT_USERAGENT)
    ensures FinalOption(s, verb, url, vars, callHeaders, CURLOPT_USERAGENT)
         == Some(if arg.Null? then Str(AmbientUserAgent(server, phpVersion)) else arg)
  {
    BuiltInOption(s, verb, url, vars, callHeaders, CURLOPT_USERAGENT);
    DefaultStep(WithMethod([], verb), s, url, vars, CURLOPT_USERAGENT);
  }
}
