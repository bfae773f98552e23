/**
 * The CORS middleware: a configuration object with five fields, read and
 * overwritten through get-or-set accessors, and `Process`, which adds the
 * CORS response headers (section 3.2.3 of the WHATWG Fetch Standard) to the
 * response of the next handler when the request carries `Origin`.
 *
 * Two behaviours of the library are kept as they are:
 *  - the accessors test their argument with PHP's loose `== null`, so an
 *    empty string, an empty array and (for the credential flag) `false`
 *    read the field instead of writing it;
 *  - `Vary` is set to the request's origin value rather than to the field
 *    name `Origin` that section 12.5.5 of RFC 9110 calls for.
 */
module Cors {
  import opened Strings
  import opened Http

  /** An accessor argument: null, one string, or an array of strings. */
  datatype ListArg = Absent | Single(item: string) | Many(items: seq<string>)

  /** PHP `$arg == null`: true for null, for `''` and for `[]`. */
  predicate LooselyNull(arg: ListArg) {
    arg.Absent? || arg == Single("") || arg == Many([])
  }

  /** `is_array($arg) ? $arg : [$arg]` */
  function Items(arg: ListArg): seq<string> {
    match arg
    case Absent => []
    case Single(s) => [s]
    case Many(xs) => xs
  }

  /** What `origins()` reports: one string, or the whole list. */
  datatype OriginsView = One(origin: string) | List(origins: seq<string>)

  /** The header keys `Process` may set. */
  const CorsKeys: set<string> :=
    {Key(AllowOrigin), Key(Vary), Key(AllowCredentials), Key(AllowMethods), Key(AllowHeaders), Key(ExposeHeaders)}

  /** The six CORS header names are stored under six different keys. */
  lemma CorsKeysDistinct()
    ensures Key(AllowOrigin) != Key(Vary) && Key(AllowOrigin) != Key(AllowCredentials)
    ensures Key(AllowOrigin) != Key(AllowMethods) && Key(AllowOrigin) != Key(AllowHeaders)
    ensures Key(AllowOrigin) != Key(ExposeHeaders) && Key(Vary) != Key(AllowCredentials)
    ensures Key(Vary) != Key(AllowMethods) && Key(Vary) != Key(AllowHeaders)
    ensures Key(Vary) != Key(ExposeHeaders) && Key(AllowCredentials) != Key(AllowMethods)
    ensures Key(AllowCredentials) != Key(AllowHeaders) && Key(AllowCredentials) != Key(ExposeHeaders)
    ensures Key(AllowMethods) != Key(AllowHeaders) && Key(AllowMethods) != Key(ExposeHeaders)
    ensures Key(AllowHeaders) != Key(ExposeHeaders)
  {
    KeysDiffer(AllowMethods, AllowHeaders, 21);
  }

  predicate CommaFree(list: seq<string>) {
    forall i :: 0 <= i < |list| ==> ',' !in list[i]
  }

  /** The `foreach` that rebuilds a configured list from an accessor argument, in order. */
  method Collect(arg: ListArg) returns (list: seq<string>)
    ensures list == Items(arg)
  {
    var items := Items(arg);
    list := [];
    var i := 0;
    while i < |items|
      invariant 0 <= i <= |items|
      invariant list == items[..i]
    {
      list := list + [items[i]];
      i := i + 1;
    }
    assert items[..i] == items;
  }

  /**
   * The origin decision of `process`: `*` wins over a listed origin, a
   * listed origin is echoed in `Access-Control-Allow-Origin` and in `Vary`,
   * and an empty list or an unlisted origin leaves the response alone.
   */
  function AllowOriginStep(r: Response, origins: seq<string>, origin: string): (r': Response)
    ensures r'.status == r.status && r'.body == r.body
    ensures r'.headers - {Key(AllowOrigin), Key(Vary)} == r.headers - {Key(AllowOrigin), Key(Vary)}
    ensures forall n :: Key(n) != Key(AllowOrigin) && Key(n) != Key(Vary) ==> Header(r', n) == Header(r, n)
    ensures "*" in origins ==> Header(r', AllowOrigin) == Some("*") && Header(r', Vary) == Header(r, Vary)
    ensures "*" !in origins && origin in origins ==>
      Header(r', AllowOrigin) == Some(origin) && Header(r', Vary) == Some(origin)
    ensures "*" !in origins && origin !in origins ==> r' == r
  {
    CorsKeysDistinct();
    if origins == [] then r
    else if "*" in origins then
      WithHeaderOutside(r, AllowOrigin, "*", {Key(AllowOrigin), Key(Vary)});
      WithHeader(r, AllowOrigin, "*")
    else if origin in origins then
      var r1 := WithHeader(r, AllowOrigin, origin);
      WithHeaderOutside(r, AllowOrigin, origin, {Key(AllowOrigin), Key(Vary)});
      WithHeaderOutside(r1, Vary, origin, {Key(AllowOrigin), Key(Vary)});
      WithHeader(r1, Vary, origin)
    else r
  }

  /**
   * One list step of `process`: a non-empty list is sent joined by `,`, and
   * splits back into itself when none of its entries holds a comma.
   */
  function ListStep(r: Response, name: string, list: seq<string>): (r': Response)
    ensures r'.status == r.status && r'.body == r.body
    ensures r'.headers - {Key(name)} == r.headers - {Key(name)}
    ensures forall n :: Key(n) != Key(name) ==> Header(r', n) == Header(r, n)
    ensures list == [] ==> r' == r
    ensures list != [] ==> Header(r', name) == Some(Join(",", list))
    ensures list != [] && CommaFree(list) ==> Split(Header(r', name).value, ',') == list
  {
    if list == [] then r
    else
      WithHeaderOutside(r, name, Join(",", list), {Key(name)});
      if CommaFree(list) then
        SplitJoin(list, ',');
        WithHeader(r, name, Join(",", list))
      else WithHeader(r, name, Join(",", list))
  }

  /**
   * The steps of `process` after the origin decision: the credential flag
   * sets `Access-Control-Allow-Credentials: true`, then each non-empty list
   * is sent joined by `,`.  The origin headers and every non-CORS header
   * are kept.
   */
  function SettingsStep(r: Response, credential: bool, methods: seq<string>, headers: seq<string>,
                        exposed: seq<string>): (r': Response)
    ensures r'.status == r.status && r'.body == r.body
    ensures r'.headers - CorsKeys == r.headers - CorsKeys
    ensures Header(r', AllowOrigin) == Header(r, AllowOrigin) && Header(r', Vary) == Header(r, Vary)
    ensures credential ==> Header(r', AllowCredentials) == Some("true")
    ensures !credential ==> Header(r', AllowCredentials) == Header(r, AllowCredentials)
    ensures methods != [] ==>
      Header(r', AllowMethods) == Some(Join(",", methods))
      && (CommaFree(methods) ==> Split(Header(r', AllowMethods).value, ',') == methods)
    ensures methods == [] ==> Header(r', AllowMethods) == Header(r, AllowMethods)
    ensures headers != [] ==>
      Header(r', AllowHeaders) == Some(Join(",", headers))
      && (CommaFree(headers) ==> Split(Header(r', AllowHeaders).value, ',') == headers)
    ensures headers == [] ==> Header(r', AllowHeaders) == Header(r, AllowHeaders)
    ensures exposed != [] ==>
      Header(r', ExposeHeaders) == Some(Join(",", exposed))
      && (CommaFree(exposed) ==> Split(Header(r', ExposeHeaders).value, ',') == exposed)
    ensures exposed == [] ==> Header(r', ExposeHeaders) == Header(r, ExposeHeaders)
  {
    CorsKeysDistinct();
    var r2 := if credential then WithHeader(r, AllowCredentials, "true") else r;
    var r3 := ListStep(r2, AllowMethods, methods);
    var r4 := ListStep(r3, AllowHeaders, headers);
    WithHeaderOutside(r, AllowCredentials, "true", CorsKeys);
    SameOutsideWider(r2.headers, r3.headers, {Key(AllowMethods)}, CorsKeys);
    SameOutsideWider(r3.headers, r4.headers, {Key(AllowHeaders)}, CorsKeys);
    var r' := ListStep(r4, ExposeHeaders, exposed);
    SameOutsideWider(r4.headers, r'.headers, {Key(ExposeHeaders)}, CorsKeys);
    r'
  }

  class CorsMiddleware {
    var origins: seq<string>
    var allowedMethods: seq<string>
    var allowedHeaders: seq<string>
    var exposedHeaders: seq<string>
    var allowCredential: bool

    /** Nothing configured; credentials allowed. */
    constructor ()
      ensures origins == [] && allowedMethods == [] && allowedHeaders == [] && exposedHeaders == []
      ensures allowCredential
    {
      origins, allowedMethods, allowedHeaders, exposedHeaders := [], [], [], [];
      allowCredential := true;
    }

    /**
     * `CorsMiddleware::for(origins, allowCredential)`: the origins go through
     * the `origins` accessor, while the flag is assigned directly, so `false`
     * does clear it here.
     */
    constructor For(origins: ListArg, allowCredential: bool)
      requires !origins.Absent?
      ensures this.origins == (if LooselyNull(origins) then [] else Items(origins))
      ensures allowedMethods == [] && allowedHeaders == [] && exposedHeaders == []
      ensures this.allowCredential == allowCredential
    {
      this.origins, allowedMethods, allowedHeaders, exposedHeaders := [], [], [], [];
      this.allowCredential := true;
      new;
      var _ := Origins(origins);
      this.allowCredential := allowCredential;
    }

    /**
     * `origins(arg)`: reports the list as it was (`*` when empty, the sole
     * entry when there is one), then replaces it by the argument unless the
     * argument is loosely null.
     */
    method Origins(arg: ListArg) returns (current: OriginsView)
      modifies this
      ensures current == if old(origins) == [] then One("*")
                         else if |old(origins)| == 1 then One(old(origins)[0])
                         else List(old(origins))
      ensures origins == if LooselyNull(arg) then old(origins) else Items(arg)
      ensures allowedMethods == old(allowedMethods) && allowedHeaders == old(allowedHeaders)
      ensures exposedHeaders == old(exposedHeaders) && allowCredential == old(allowCredential)
    {
      current := if origins == [] then One("*")
                 else if |origins| == 1 then One(origins[0])
                 else List(origins);
      if LooselyNull(arg) {
        return;
      }
      origins := Collect(arg);
    }

    /**
     * `allowCredential(mode)`: returns the flag as it was; only `true`
     * changes it, since `false == null` holds in PHP.
     */
    method AllowCredential(mode: Option<bool>) returns (previous: bool)
      modifies this
      ensures previous == old(allowCredential)
      ensures allowCredential == (mode == Some(true) || old(allowCredential))
      ensures origins == old(origins) && allowedMethods == old(allowedMethods)
      ensures allowedHeaders == old(allowedHeaders) && exposedHeaders == old(exposedHeaders)
    {
      if mode == None || mode == Some(false) {
        return allowCredential;
      }
      previous := allowCredential;
      allowCredential := mode.value;
    }

    /** `allowedMethods(arg)`: returns the list as it was and replaces it unless the argument is loosely null. */
    method AllowedMethods(arg: ListArg) returns (previous: seq<string>)
      modifies this
      ensures previous == old(allowedMethods)
      ensures allowedMethods == if LooselyNull(arg) then old(allowedMethods) else Items(arg)
      ensures origins == old(origins) && allowedHeaders == old(allowedHeaders)
      ensures exposedHeaders == old(exposedHeaders) && allowCredential == old(allowCredential)
    {
      previous := allowedMethods;
      if LooselyNull(arg) {
        return;
      }
      allowedMethods := Collect(arg);
    }

    /** `allowedHeaders(arg)`: returns the list as it was and replaces it unless the argument is loosely null. */
    method AllowedHeaders(arg: ListArg) returns (previous: seq<string>)
      modifies this
      ensures previous == old(allowedHeaders)
      ensures allowedHeaders == if LooselyNull(arg) then old(allowedHeaders) else Items(arg)
      ensures origins == old(origins) && allowedMethods == old(allowedMethods)
      ensures exposedHeaders == old(exposedHeaders) && allowCredential == old(allowCredential)
    {
      previous := allowedHeaders;
      if LooselyNull(arg) {
        return;
      }
      allowedHeaders := Collect(arg);
    }

    /** `exposedHeaders(arg)`: returns the list as it was and replaces it unless the argument is loosely null. */
    method ExposedHeaders(arg: ListArg) returns (previous: seq<string>)
      modifies this
      ensures previous == old(exposedHeaders)
      ensures exposedHeaders == if LooselyNull(arg) then old(exposedHeaders) else Items(arg)
      ensures origins == old(origins) && allowedMethods == old(allowedMethods)
      ensures allowedHeaders == old(allowedHeaders) && allowCredential == old(allowCredential)
    {
      previous := exposedHeaders;
      if LooselyNull(arg) {
        return;
      }
      exposedHeaders := Collect(arg);
    }

    /**
     * `process`: `response` is what the next handler returned.  Without an
     * `Origin` request header it comes back untouched.  Otherwise:
     *  - a `*` among the origins sets `Access-Control-Allow-Origin: *`;
     *  - else a listed origin (the first `Origin` value) is echoed in both
     *    `Access-Control-Allow-Origin` and `Vary`;
     *  - else, and always for an empty origin list, neither is touched;
     *  - the credential flag sets `Access-Control-Allow-Credentials: true`,
     *    whether or not the origin matched;
     *  - each non-empty list is sent joined by `,` in stored order, and a
     *    list without commas in its entries splits back into itself.
     * Status, body and every other header stay as they were.
     */
    method Process(request: Request, response: Response) returns (r: Response)
      ensures FirstValue(request, "origin").None? ==> r == response
      ensures r.status == response.status && r.body == response.body
      ensures r.headers - CorsKeys == response.headers - CorsKeys
      ensures var origin := FirstValue(request, "origin");
        origin.Some? && "*" in origins ==>
          Header(r, AllowOrigin) == Some("*") && Header(r, Vary) == Header(response, Vary)
      ensures var origin := FirstValue(request, "origin");
        origin.Some? && "*" !in origins && origin.value in origins ==>
          Header(r, AllowOrigin) == Some(origin.value) && Header(r, Vary) == Some(origin.value)
      ensures var origin := FirstValue(request, "origin");
        origin.Some? && "*" !in origins && origin.value !in origins ==>
          Header(r, AllowOrigin) == Header(response, AllowOrigin) && Header(r, Vary) == Header(response, Vary)
      ensures FirstValue(request, "origin").Some? && allowCredential ==>
        Header(r, AllowCredentials) == Some("true")
      ensures !allowCredential ==> Header(r, AllowCredentials) == Header(response, AllowCredentials)
      ensures FirstValue(request, "origin").Some? && allowedMethods != [] ==>
        Header(r, AllowMethods) == Some(Join(",", allowedMethods))
        && (CommaFree(allowedMethods) ==> Split(Header(r, AllowMethods).value, ',') == allowedMethods)
      ensures allowedMethods == [] ==> Header(r, AllowMethods) == Header(response, AllowMethods)
      ensures FirstValue(request, "origin").Some? && allowedHeaders != [] ==>
        Header(r, AllowHeaders) == Some(Join(",", allowedHeaders))
        && (CommaFree(allowedHeaders) ==> Split(Header(r, AllowHeaders).value, ',') == allowedHeaders)
      ensures allowedHeaders == [] ==> Header(r, AllowHeaders) == Header(response, AllowHeaders)
      ensures FirstValue(request, "origin").Some? && exposedHeaders != [] ==>
        Header(r, ExposeHeaders) == Some(Join(",", exposedHeaders))
        && (CommaFree(exposedHeaders) ==> Split(Header(r, ExposeHeaders).value, ',') == exposedHeaders)
      ensures exposedHeaders == [] ==> Header(r, ExposeHeaders) == Header(response, ExposeHeaders)
    {
      r := response;
      var origin := FirstValue(request, "origin");
      if origin.None? {
        return;
      }
      CorsKeysDistinct();
      var r1 := AllowOriginStep(response, origins, origin.value);
      SameOutsideWider(response.headers, r1.headers, {Key(AllowOrigin), Key(Vary)}, CorsKeys);
      r := SettingsStep(r1, allowCredential, allowedMethods, allowedHeaders, exposedHeaders);
    }
  }
}
