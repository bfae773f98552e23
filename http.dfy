/**
 * The slice of PSR-7 that the library relies on.
 *
 * A response is a value: status, headers and a reference to its body
 * stream.  `WithHeader`, `WithStatus` and `WithBody` return new values and
 * leave the old one as it was, but every copy shares the same body object,
 * so a write into the body of one copy is seen through all of them.  Header
 * names are case-insensitive: the map is keyed by the lower-cased name, and
 * each header holds one value that `WithHeader` replaces.
 */
module Http {
  import opened Strings

  datatype Option<T> = None | Some(value: T) {
    function GetOr(default: T): T {
      match this
      case Some(v) => v
      case None => default
    }
  }

  /** What PHP code of the library can throw. */
  datatype Error =
    | RuntimeException(message: string)
    | Thrown(description: string)  // anything a downstream handler throws

  datatype Result<T> = Ok(value: T) | Err(error: Error)

  // ---------------------------------------------------------------------
  // Header names and content types used by the library
  // ---------------------------------------------------------------------

  const ContentType := "Content-Type"
  const ContentLength := "Content-Length"
  const ContentDispositionHeader := "Content-Disposition"
  const ContentDescription := "Content-Description"
  const ContentTransferEncoding := "Content-Transfer-Encoding"
  const LocationHeader := "Location"
  const Expires := "Expires"
  const CacheControl := "Cache-Control"
  const Pragma := "Pragma"
  const AccelRedirect := "X-Accel-Redirect"
  const Vary := "Vary"
  const AllowOrigin := "Access-Control-Allow-Origin"
  const AllowCredentials := "Access-Control-Allow-Credentials"
  const AllowMethods := "Access-Control-Allow-Methods"
  const AllowHeaders := "Access-Control-Allow-Headers"
  const ExposeHeaders := "Access-Control-Expose-Headers"

  const ApplicationJson := "application/json"
  const TextHtml := "text/html"

  /** A MIME type detector: content (or a file name) in, MIME type out. */
  type Detector = string -> string

  // ---------------------------------------------------------------------
  // Streams
  // ---------------------------------------------------------------------

  /** A body stream: its bytes, whether it accepts writes, whether its size is known. */
  class Stream {
    var content: string
    var writable: bool
    var sized: bool
    var uri: string  // the stream's `uri` metadata

    constructor (content: string, writable: bool, sized: bool, uri: string)
      ensures this.content == content && this.writable == writable
      ensures this.sized == sized && this.uri == uri
    {
      this.content := content;
      this.writable := writable;
      this.sized := sized;
      this.uri := uri;
    }

    /** `getSize()`: the byte count, or null when the stream cannot tell. */
    function Size(): Option<nat>
      reads this
    {
      if sized then Some(|content|) else None
    }

    /**
     * `write()`: appends and reports how many bytes were written; a stream
     * that is not writable throws and keeps its content.
     */
    method Write(s: string) returns (written: Result<nat>)
      modifies this
      ensures writable == old(writable) && sized == old(sized) && uri == old(uri)
      ensures old(writable) ==> content == old(content) + s && written == Ok(|s|)
      ensures !old(writable) ==> content == old(content) && written.Err?
    {
      if !writable {
        written := Err(RuntimeException("Cannot write to a non-writable stream"));
      } else {
        content := content + s;
        written := Ok(|s|);
      }
    }
  }

  /** `StreamFactoryInterface::createStream`: a fresh writable stream holding `content`. */
  method CreateStream(content: string) returns (s: Stream)
    ensures fresh(s)
    ensures s.content == content && s.writable && s.sized
  {
    s := new Stream(content, true, true, "php://temp");
  }

  // ---------------------------------------------------------------------
  // Responses and requests
  // ---------------------------------------------------------------------

  /**
   * A header map, keyed by the lower-cased header name: no two spellings of
   * one name can be stored apart, as PSR-7's case-insensitive lookups require.
   */
  type HeaderMap<V> = m: map<string, V> | forall k :: k in m ==> Lower(k) == k
    witness map[]

  datatype Response = Response(status: int, headers: HeaderMap<string>, body: Stream)

  /** `ResponseFactoryInterface::createResponse`: no headers, an empty writable body. */
  method CreateResponse(code: int) returns (r: Response)
    ensures fresh(r.body)
    ensures r.status == code && r.headers == map[]
    ensures r.body.content == [] && r.body.writable && r.body.sized
  {
    var body := new Stream([], true, true, "php://temp");
    r := Response(code, map[], body);
  }

  /** The map key a header name is stored under. */
  function Key(name: string): (key: string)
    ensures Lower(key) == key
  {
    Lower(name)
  }

  predicate HasHeader(r: Response, name: string) {
    Key(name) in r.headers
  }

  function Header(r: Response, name: string): Option<string> {
    if Key(name) in r.headers then Some(r.headers[Key(name)]) else None
  }

  /**
   * `withHeader`: this header now has exactly `value`, whatever spelling of
   * its name was used before; everything else is as it was.
   */
  function WithHeader(r: Response, name: string, value: string): (r': Response)
    ensures Header(r', name) == Some(value)
    ensures forall n :: Key(n) != Key(name) ==> Header(r', n) == Header(r, n)
    ensures r'.status == r.status && r'.body == r.body
  {
    r.(headers := r.headers[Key(name) := value])
  }

  /** Setting a header leaves the headers outside any set of keys that holds its key as they were. */
  lemma WithHeaderOutside(r: Response, name: string, value: string, keys: set<string>)
    requires Key(name) in keys
    ensures WithHeader(r, name, value).headers - keys == r.headers - keys
  {
  }

  /** Maps that agree outside a set of keys agree outside any larger set. */
  lemma SameOutsideWider<K, V>(a: map<K, V>, b: map<K, V>, small: set<K>, big: set<K>)
    requires small <= big && a - small == b - small
    ensures a - big == b - big
  {
    assert forall k :: k in a - big ==> k in a - small;
    assert forall k :: k in b - big ==> k in b - small;
  }

  function WithStatus(r: Response, code: int): Response {
    r.(status := code)
  }

  function WithBody(r: Response, body: Stream): Response {
    r.(body := body)
  }

  /** Request header lists are never empty. */
  type Values = vs: seq<string> | |vs| > 0 witness [""]

  datatype Request = Request(headers: HeaderMap<Values>)

  /** The request's first value of the header, if it has the header at all. */
  function FirstValue(req: Request, name: string): Option<string> {
    if Key(name) in req.headers then Some(req.headers[Key(name)][0]) else None
  }

  /** Header names that differ in more than letter case are stored apart. */
  lemma KeysDiffer(a: string, b: string, i: nat)
    requires i < |a| && i < |b| && LowerChar(a[i]) != LowerChar(b[i])
    ensures Key(a) != Key(b)
  {
    assert Key(a)[i] != Key(b)[i];
  }
}
