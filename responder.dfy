/**
 * The `Responder`: builds a complete response from arbitrary content.
 *
 * The response factory is `CreateResponse`.  The MIME detector is a
 * constructor argument, falling back to the file-info detector, which is
 * itself passed in because it is a foreign library.  The JSON encoder and
 * the emptiness test of the JSON library are foreign too: they are fixed
 * when the responder is built.
 */
module Responders {
  import opened Strings
  import opened Http
  import Headers

  /**
   * The `$content` argument of `respond`: null, a string (or an object whose
   * string form is used), or any other value, which is JSON-encoded.  An
   * `Arrayable` is turned into its array first, so it is `Structured` too.
   */
  datatype Content<V> = Null | Text(text: string) | Structured(value: V)

  /** `respond` with the status code pulled into range for a redirect: 300..308 are kept, anything else becomes 302. */
  function RedirectCode(code: int): (status: int)
    ensures 300 <= status <= 308
    ensures 300 <= code <= 308 ==> status == code
    ensures !(300 <= code <= 308) ==> status == 302
  {
    if 300 > code || code > 308 then 302 else code
  }

  /** The keys of the headers `file` adds. */
  const FileKeys: set<string> := {Key(ContentDescription), Key(ContentDispositionHeader), Key(ContentTransferEncoding)}

  /**
   * The headers `file` adds to what `respond` built: the description, the
   * disposition and the transfer encoding; status, body and every other
   * header are kept.
   */
  function FileHeaders(r: Response, disposition: string): (r': Response)
    ensures r'.status == r.status && r'.body == r.body
    ensures Header(r', ContentDescription) == Some("File-transfer")
    ensures Header(r', ContentDispositionHeader) == Some(disposition)
    ensures Header(r', ContentTransferEncoding) == Some("binary")
    ensures forall n :: Key(n) !in FileKeys ==> Header(r', n) == Header(r, n)
    ensures r'.headers.Keys == r.headers.Keys + FileKeys
  {
    KeysDiffer(ContentDescription, ContentDispositionHeader, 9);
    var r1 := WithHeader(r, ContentDescription, "File-transfer");
    var r2 := WithHeader(r1, ContentDispositionHeader, disposition);
    WithHeader(r2, ContentTransferEncoding, "binary")
  }

  /** The two headers `respond` sets are not among those `file` adds: their names differ in length. */
  lemma RespondKeysOutsideFileKeys()
    ensures Key(ContentType) !in FileKeys && Key(ContentLength) !in FileKeys
  {
    assert |Key(ContentType)| == 12 && |Key(ContentLength)| == 14;
    assert |Key(ContentDescription)| == 19 && |Key(ContentDispositionHeader)| == 19;
    assert |Key(ContentTransferEncoding)| == 25;
  }

  class Responder<V> {
    const detector: Detector
    const encode: V -> string     // the JSON library's encoder
    const isEmpty: string -> bool  // the JSON library's emptiness test

    /** The detector given, or the file-info detector when none is given. */
    constructor (detector: Option<Detector>, finfo: Detector, encode: V -> string, isEmpty: string -> bool)
      ensures this.detector == detector.GetOr(finfo)
      ensures this.encode == encode && this.isEmpty == isEmpty
    {
      this.detector := detector.GetOr(finfo);
      this.encode := encode;
      this.isEmpty := isEmpty;
    }

    /** The text written into the body for non-null content. */
    function Payload(content: Content<V>): string
      requires !content.Null?
    {
      match content
      case Text(s) => s
      case Structured(v) => encode(v)
    }

    /** The Content-Type `respond` chooses for non-null content. */
    function ChosenType(content: Content<V>, contentType: Option<string>): string
      requires !content.Null?
    {
      if content.Structured? then ApplicationJson else contentType.GetOr(detector(Payload(content)))
    }

    /**
     * `respond(code, content, contentType)`.
     *  - The status is the explicit code when one is given; otherwise 204
     *    for null content and 200 for other content, turned into 404 when
     *    the JSON library judges the written text empty.
     *  - Null content leaves the body empty and sets no header at all.
     *  - Other content is written into the (fresh) body, which then holds
     *    exactly that text; Content-Length is the body's size.
     *  - Content that is not a string is JSON-encoded and its Content-Type
     *    is `application/json`, whatever type was asked for; a string gets
     *    the explicit type, or else the detector's verdict on it.
     */
    method Respond(code: Option<int>, content: Content<V>, contentType: Option<string>) returns (r: Response)
      ensures r.body.writable && r.body.sized
      ensures content.Null? ==> r.status == code.GetOr(204) && r.headers == map[] && r.body.content == []
      ensures !content.Null? ==> r.body.content == Payload(content)
      ensures !content.Null? ==> Header(r, ContentLength) == Some(NatToString(|r.body.content|))
      ensures !content.Null? ==> Header(r, ContentType) == Some(ChosenType(content, contentType))
      ensures content.Structured? ==> Header(r, ContentType) == Some(ApplicationJson)
      ensures !content.Null? ==> r.headers.Keys == {Key(ContentType), Key(ContentLength)}
      ensures !content.Null? ==>
        r.status == (if code.Some? then code.value else if isEmpty(Payload(content)) then 404 else 200)
    {
      r := CreateResponse(code.GetOr(if content.Null? then 204 else 200));
      if content.Null? {
        return;
      }
      var text := Payload(content);
      r := WithHeader(r, ContentType, ChosenType(content, contentType));
      var _ := r.body.Write(text);
      if code.None? && isEmpty(text) {
        r := WithStatus(r, 404);
      }
      var size := r.body.Size().GetOr(0);
      r := WithHeader(r, ContentLength, NatToString(size));
    }

    /** `noContent()`: an empty 204 response without headers. */
    method NoContent() returns (r: Response)
      ensures r.status == 204 && r.headers == map[] && r.body.content == []
      ensures r.body.writable && r.body.sized
    {
      r := Respond(Some(204), Null, None);
    }

    /**
     * `notFound(content, contentType)`: always 404.  The `contentType`
     * argument is accepted but not passed on, so the type is the detector's
     * (or JSON's) choice.
     */
    method NotFound(content: Content<V>, contentType: Option<string>) returns (r: Response)
      ensures r.status == 404
      ensures r.body.writable && r.body.sized
      ensures content.Null? ==> r.headers == map[] && r.body.content == []
      ensures !content.Null? ==> r.body.content == Payload(content)
      ensures !content.Null? ==> Header(r, ContentType) == Some(ChosenType(content, None))
      ensures !content.Null? ==> Header(r, ContentLength) == Some(NatToString(|r.body.content|))
      ensures !content.Null? ==> r.headers.Keys == {Key(ContentType), Key(ContentLength)}
    {
      r := Respond(Some(404), content, None);
    }

    /**
     * `redirect(location, code)`: status `code` when it lies in 300..308,
     * 302 otherwise, with `Location` set to `location` and nothing else.
     */
    method Redirect(location: string, code: int) returns (r: Response)
      ensures r.status == RedirectCode(code)
      ensures r.body.writable && r.body.sized
      ensures Header(r, LocationHeader) == Some(location)
      ensures r.headers.Keys == {Key(LocationHeader)}
      ensures r.body.content == []
    {
      r := Respond(Some(RedirectCode(code)), Null, None);
      r := WithHeader(r, LocationHeader, location);
    }

    /**
     * `file(stream, inline)`: the stream's whole content as the body, with
     * `Content-Disposition` inline (or, for `inline == false`, attachment)
     * of the basename of the stream's uri, `Content-Description:
     * File-transfer` and `Content-Transfer-Encoding: binary` on top of what
     * `respond` sets for string content.
     */
    method File(stream: Stream, inline: bool) returns (r: Response)
      ensures r.body.content == stream.content
      ensures Header(r, ContentDispositionHeader) == Some(
        if inline then Headers.Inline(Basename(stream.uri)) else Headers.Attachment(Basename(stream.uri)))
      ensures Header(r, ContentDescription) == Some("File-transfer")
      ensures Header(r, ContentTransferEncoding) == Some("binary")
      ensures Header(r, ContentType) == Some(detector(stream.content))
      ensures Header(r, ContentLength) == Some(NatToString(|stream.content|))
      ensures r.status == if isEmpty(stream.content) then 404 else 200
      ensures r.headers.Keys == {Key(ContentType), Key(ContentLength)} + FileKeys
      ensures r.body.writable && r.body.sized
    {
      var filename := Basename(stream.uri);
      var disposition := if inline then Headers.Inline(filename) else Headers.Attachment(filename);
      var content := Respond(None, Text(stream.content), None);
      RespondKeysOutsideFileKeys();
      r := FileHeaders(content, disposition);
    }

    /** `download(stream)`: `file` as an attachment. */
    method Download(stream: Stream) returns (r: Response)
      ensures r.body.content == stream.content
      ensures Header(r, ContentDispositionHeader) == Some(Headers.Attachment(Basename(stream.uri)))
      ensures Header(r, ContentDescription) == Some("File-transfer")
      ensures Header(r, ContentTransferEncoding) == Some("binary")
      ensures Header(r, ContentType) == Some(detector(stream.content))
      ensures Header(r, ContentLength) == Some(NatToString(|stream.content|))
      ensures r.status == if isEmpty(stream.content) then 404 else 200
      ensures r.headers.Keys == {Key(ContentType), Key(ContentLength)} + FileKeys
      ensures r.body.writable && r.body.sized
    {
      r := File(stream, false);
    }

    /** `nginx(filename)`: an empty 204 response that hands the file to the proxy through `X-Accel-Redirect`. */
    method Nginx(filename: string) returns (r: Response)
      ensures r.status == 204 && r.body.content == []
      ensures r.body.writable && r.body.sized
      ensures Header(r, AccelRedirect) == Some(filename)
      ensures r.headers.Keys == {Key(AccelRedirect)}
    {
      r := Respond(None, Null, None);
      r := WithHeader(r, AccelRedirect, filename);
    }
  }
}
