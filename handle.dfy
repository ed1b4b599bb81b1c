/** A cURL easy handle as the wrapper sees it: the option state that each
    curl_setopt call updates, and the sequence of writes that produced it.
    Options are identified by their constant's name ("CURLOPT_URL"); the
    numeric values that `constant()` would look up are not modelled. */
module CurlHandle {
  import opened Php

  const CURLOPT_PREFIX := "CURLOPT_"

  const CURLOPT_URL := "CURLOPT_URL"
  const CURLOPT_POSTFIELDS := "CURLOPT_POSTFIELDS"
  const CURLOPT_HEADER := "CURLOPT_HEADER"
  const CURLOPT_RETURNTRANSFER := "CURLOPT_RETURNTRANSFER"
  const CURLOPT_USERAGENT := "CURLOPT_USERAGENT"
  const CURLOPT_COOKIEFILE := "CURLOPT_COOKIEFILE"
  const CURLOPT_COOKIEJAR := "CURLOPT_COOKIEJAR"
  const CURLOPT_FOLLOWLOCATION := "CURLOPT_FOLLOWLOCATION"
  const CURLOPT_REFERER := "CURLOPT_REFERER"
  const CURLOPT_HTTPHEADER := "CURLOPT_HTTPHEADER"
  const CURLOPT_NOBODY := "CURLOPT_NOBODY"
  const CURLOPT_HTTPGET := "CURLOPT_HTTPGET"
  const CURLOPT_POST := "CURLOPT_POST"
  const CURLOPT_CUSTOMREQUEST := "CURLOPT_CUSTOMREQUEST"

  /** One curl_setopt call. */
  datatype Write = Write(option: string, value: Value)

  /** The write log after one more curl_setopt call. */
  function SetOption(writes: seq<Write>, option: string, value: Value): seq<Write>
  {
    writes + [Write(option, value)]
  }

  /** The option table after performing `writes` in order, starting from `m`. */
  function Apply(m: map<string, Value>, writes: seq<Write>): map<string, Value>
  {
    if writes == [] then m
    else
      var last := writes[|writes| - 1];
      Apply(m, writes[..|writes| - 1])[last.option := last.value]
  }

  /** The value of the last write to `option`, if any: the one that wins. */
  function Lookup(writes: seq<Write>, option: string): Option<Value>
  {
    if writes == [] then None
    else if writes[|writes| - 1].option == option then Some(writes[|writes| - 1].value)
    else Lookup(writes[..|writes| - 1], option)
  }

  /** A write replaces the value of its own option and leaves every other
      option as it was. */
  lemma LookupSetOption(writes: seq<Write>, option: string, value: Value, other: string)
    ensures Lookup(SetOption(writes, option, value), other)
         == if other == option then Some(value) else Lookup(writes, other)
  {
    assert SetOption(writes, option, value)[..|writes|] == writes;
  }

  /** The option table agrees with the last write to each option: an option
      is set exactly when some write names it, and it then holds the value of
      the last such write. */
  lemma {:induction false} ApplyIsLastWrite(writes: seq<Write>, option: string)
    ensures option in Apply(map[], writes) <==> Lookup(writes, option).Some?
    ensures option in Apply(map[], writes) ==> Apply(map[], writes)[option] == Lookup(writes, option).value
  {
    if writes != [] {
      ApplyIsLastWrite(writes[..|writes| - 1], option);
    }
  }

  /** The handle created by curl_init, as the curl_setopt calls made on it
      so far; the option table they leave is Apply(map[], writes). */
  class Handle {
    var writes: seq<Write>

    constructor ()
      ensures writes == []
    {
      writes := [];
    }

    /** curl_setopt: one more write, which overrides earlier writes to the
        same option (see LookupSetOption). */
    method SetOpt(option: string, value: Value)
      modifies this
      ensures writes == SetOption(old(writes), option, value)
    {
      writes := writes + [Write(option, value)];
    }
  }
}
