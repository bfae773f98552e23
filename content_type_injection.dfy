/**
 * `ContentTypeInjectionMiddleware`: fills in Content-Length and Content-Type
 * of a response that lacks them.  Content-Length comes from the body's size;
 * Content-Type from a MIME detector run on the whole body, and only in the
 * same call that filled Content-Length, because the size is what the second
 * test looks at.
 */
module ContentTypeInjection {
  import opened Strings
  import opened Http

  /**
   * `injectContentType(response, detector)`; `finfo` is the file-info
   * detector used when none is given.
   *  - A response that already has Content-Length, or whose body cannot tell
   *    its size, is returned as it is: it never gains Content-Type either.
   *  - Otherwise Content-Length becomes the body's size, and Content-Type,
   *    when absent, the detector's verdict on the body; an existing
   *    Content-Type is kept.
   *  - Status, body and all other headers are never touched.
   */
  function InjectContentType(response: Response, detector: Option<Detector>, finfo: Detector): (r: Response)
    reads response.body
    ensures r.status == response.status && r.body == response.body
    ensures HasHeader(response, ContentLength) ==> r == response
    ensures response.body.Size().None? ==> r == response
    ensures !HasHeader(response, ContentLength) && response.body.sized ==>
      && Header(r, ContentLength) == Some(NatToString(|response.body.content|))
      && Header(r, ContentType) == Some(Header(response, ContentType).GetOr(detector.GetOr(finfo)(response.body.content)))
    ensures forall n :: Key(n) != Key(ContentLength) && Key(n) != Key(ContentType) ==>
      Header(r, n) == Header(response, n)
  {
    var size := if HasHeader(response, ContentLength) then None else response.body.Size();
    var withLength := if size.Some? then WithHeader(response, ContentLength, NatToString(size.value)) else response;
    if !HasHeader(withLength, ContentType) && size.Some? then
      WithHeader(withLength, ContentType, detector.GetOr(finfo)(response.body.content))
    else
      withLength
  }

  /** A second pass changes nothing: the first one left Content-Length, or nothing to fill, behind. */
  lemma InjectIdempotent(response: Response, detector: Option<Detector>, finfo: Detector)
    ensures var once := InjectContentType(response, detector, finfo);
      InjectContentType(once, detector, finfo) == once
  {
  }

  /** The Content-Length filled in reads back as the body's length. */
  lemma InjectedLengthReadsBack(response: Response, detector: Option<Detector>, finfo: Detector)
    requires !HasHeader(response, ContentLength) && response.body.sized
    ensures var r := InjectContentType(response, detector, finfo);
      r.headers[Key(ContentLength)] == NatToString(|response.body.content|)
      && ParseNat(r.headers[Key(ContentLength)]) == |response.body.content|
  {
    ParseNatToString(|response.body.content|);
  }

  /** The middleware: the handler's response with its headers filled in. */
  class ContentTypeInjectionMiddleware {
    const detector: Option<Detector>
    const finfo: Detector

    constructor (detector: Option<Detector>, finfo: Detector)
      ensures this.detector == detector && this.finfo == finfo
    {
      this.detector := detector;
      this.finfo := finfo;
    }

    /**
     * `process`: `injectContentType` with this middleware's detector, on
     * what the handler returned.  A body of known size always leaves with a
     * Content-Length, existing Content-Length and Content-Type values are
     * kept, and a second run changes nothing.
     */
    function Process(handled: Response): (r: Response)
      reads this, handled.body
      ensures r.status == handled.status && r.body == handled.body
      ensures handled.body.sized ==> HasHeader(r, ContentLength)
      ensures HasHeader(handled, ContentLength) ==> Header(r, ContentLength) == Header(handled, ContentLength)
      ensures HasHeader(handled, ContentType) ==> Header(r, ContentType) == Header(handled, ContentType)
      ensures InjectContentType(r, detector, finfo) == r
    {
      InjectIdempotent(handled, detector, finfo);
      InjectContentType(handled, detector, finfo)
    }
  }
}
