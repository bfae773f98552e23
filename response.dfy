/**
 * The static helpers of `Response`: writing content into a response body,
 * copying a file into it chunk by chunk, the file-download header set and
 * redirects.
 *
 * `make` asks a service locator for the response factory; here it is the
 * factory `CreateResponse` itself.  The file system is an input: a file is
 * its content, or `None` when it cannot be opened, and the MIME type of a
 * file name comes from a detector passed in.
 */
module Responses {
  import opened Strings
  import opened Http
  import ContentDisposition

  const UnwritableMessage := "Response is un writable"

  /** Bytes read from the file per `fread`. */
  const ChunkSize := 8192

  /** `isWritable`: the exception thrown for a body that does not accept writes, if any. */
  function CheckWritable(stream: Stream): (failure: Option<Error>)
    reads stream
    ensures failure.None? <==> stream.writable
    ensures failure.Some? ==> failure.value == RuntimeException(UnwritableMessage)
  {
    if stream.writable then None else Some(RuntimeException(UnwritableMessage))
  }

  /**
   * `write(response, content, contentType)`: a body that does not accept
   * writes makes it throw before anything is written; otherwise the content
   * is appended to the (shared) body and Content-Type is replaced.
   */
  method Write(response: Response, content: string, contentType: string) returns (result: Result<Response>)
    modifies response.body
    ensures response.body.writable == old(response.body.writable)
    ensures response.body.sized == old(response.body.sized) && response.body.uri == old(response.body.uri)
    ensures !old(response.body.writable) ==>
      result == Err(RuntimeException(UnwritableMessage)) && response.body.content == old(response.body.content)
    ensures old(response.body.writable) ==>
      result == Ok(WithHeader(response, ContentType, contentType))
      && response.body.content == old(response.body.content) + content
  {
    var failure := CheckWritable(response.body);
    if failure.Some? {
      return Err(failure.value);
    }
    var _ := response.body.Write(content);
    result := Ok(WithHeader(response, ContentType, contentType));
  }

  /** `make()`: a fresh 200 response with an empty writable body. */
  method Make() returns (r: Response)
    ensures fresh(r.body)
    ensures r.status == 200 && r.headers == map[]
    ensures r.body.content == [] && r.body.writable && r.body.sized
  {
    r := CreateResponse(200);
  }

  /** `writeJson`: `write` with `application/json`. */
  method WriteJson(response: Response, content: string) returns (result: Result<Response>)
    modifies response.body
    ensures response.body.writable == old(response.body.writable)
    ensures response.body.sized == old(response.body.sized) && response.body.uri == old(response.body.uri)
    ensures !old(response.body.writable) ==>
      result == Err(RuntimeException(UnwritableMessage)) && response.body.content == old(response.body.content)
    ensures old(response.body.writable) ==>
      result == Ok(WithHeader(response, ContentType, ApplicationJson))
      && response.body.content == old(response.body.content) + content
  {
    result := Write(response, content, ApplicationJson);
  }

  /** `writeHtml`: `write` with `text/html`. */
  method WriteHtml(response: Response, content: string) returns (result: Result<Response>)
    modifies response.body
    ensures response.body.writable == old(response.body.writable)
    ensures response.body.sized == old(response.body.sized) && response.body.uri == old(response.body.uri)
    ensures !old(response.body.writable) ==>
      result == Err(RuntimeException(UnwritableMessage)) && response.body.content == old(response.body.content)
    ensures old(response.body.writable) ==>
      result == Ok(WithHeader(response, ContentType, TextHtml))
      && response.body.content == old(response.body.content) + content
  {
    result := Write(response, content, TextHtml);
  }

  /** `json(content)`: a fresh 200 response holding the content as `application/json`. */
  method Json(content: string) returns (r: Response)
    ensures r.status == 200 && r.body.content == content
    ensures Header(r, ContentType) == Some(ApplicationJson)
    ensures r.headers.Keys == {Key(ContentType)}
    ensures r.body.writable && r.body.sized
  {
    var made := Make();
    var result := WriteJson(made, content);
    r := result.value;
  }

  /** `html(content)`: a fresh 200 response holding the content as `text/html`. */
  method Html(content: string) returns (r: Response)
    ensures r.status == 200 && r.body.content == content
    ensures Header(r, ContentType) == Some(TextHtml)
    ensures r.headers.Keys == {Key(ContentType)}
    ensures r.body.writable && r.body.sized
  {
    var made := Make();
    var result := WriteHtml(made, content);
    r := result.value;
  }

  /** The end of the chunk that starts at `pos`: at most `ChunkSize` bytes further. */
  function ChunkEnd(pos: nat, size: nat): (end: nat)
    requires pos < size
    ensures pos < end <= size
    ensures end - pos <= ChunkSize
    ensures end - pos == ChunkSize || end == size
  {
    if size - pos < ChunkSize then size else pos + ChunkSize
  }

  /**
   * `writeFile(response, filename, mimeType)`.
   *  - A body that does not accept writes makes it throw before anything else.
   *  - The file (when it can be opened) is copied into the body in chunks of
   *    at most 8192 bytes, and the byte counts the writes report are summed;
   *    the body ends up holding its old content followed by the whole file.
   *  - Content-Length is that sum: the file's size, or 0 when it cannot be
   *    opened, in which case the body is left as it was.
   *  - Content-Type is the explicit `mimeType`, or else the type detected
   *    from the file name.
   */
  method WriteFile(response: Response, filename: string, mimeType: Option<string>, file: Option<string>, mimeOf: Detector)
    returns (result: Result<Response>)
    modifies response.body
    ensures response.body.writable == old(response.body.writable)
    ensures response.body.sized == old(response.body.sized) && response.body.uri == old(response.body.uri)
    ensures !old(response.body.writable) ==>
      result == Err(RuntimeException(UnwritableMessage)) && response.body.content == old(response.body.content)
    ensures old(response.body.writable) ==> result.Ok?
    ensures result.Ok? ==>
      && response.body.content == old(response.body.content) + file.GetOr([])
      && result.value.status == response.status && result.value.body == response.body
      && Header(result.value, ContentType) == Some(mimeType.GetOr(mimeOf(filename)))
      && Header(result.value, ContentLength) == Some(NatToString(|file.GetOr([])|))
      && result.value.headers.Keys == response.headers.Keys + {Key(ContentType), Key(ContentLength)}
      && (forall n :: Key(n) != Key(ContentType) && Key(n) != Key(ContentLength) ==>
            Header(result.value, n) == Header(response, n))
  {
    var failure := CheckWritable(response.body);
    if failure.Some? {
      return Err(failure.value);
    }
    var filesize: nat := 0;
    if file.Some? {
      var data := file.value;
      var pos: nat := 0;
      while pos < |data|
        invariant pos <= |data| && filesize == pos
        invariant response.body.writable == old(response.body.writable)
        invariant response.body.sized == old(response.body.sized) && response.body.uri == old(response.body.uri)
        invariant response.body.content == old(response.body.content) + data[..pos]
        decreases |data| - pos
      {
        var end := ChunkEnd(pos, |data|);
        var written := response.body.Write(data[pos..end]);
        assert data[..end] == data[..pos] + data[pos..end];
        filesize := filesize + written.value;
        pos := end;
      }
      assert data[..pos] == data;
    }
    var withType := WithHeader(response, ContentType, mimeType.GetOr(mimeOf(filename)));
    result := Ok(WithHeader(withType, ContentLength, NatToString(filesize)));
  }

  /** `file(filename, mimeType)`: `writeFile` into a fresh 200 response. */
  method File(filename: string, mimeType: Option<string>, file: Option<string>, mimeOf: Detector) returns (r: Response)
    ensures r.status == 200 && r.body.content == file.GetOr([])
    ensures Header(r, ContentType) == Some(mimeType.GetOr(mimeOf(filename)))
    ensures Header(r, ContentLength) == Some(NatToString(|file.GetOr([])|))
    ensures r.headers.Keys == {Key(ContentType), Key(ContentLength)}
    ensures r.body.writable && r.body.sized
  {
    var made := Make();
    var result := WriteFile(made, filename, mimeType, file, mimeOf);
    r := result.value;
  }

  /** The headers `sendFile` adds on top of `writeFile`, applied in its order. */
  function DownloadHeaders(r: Response, disposition: string): (r': Response)
    ensures r'.status == r.status && r'.body == r.body
    ensures Header(r', ContentDescription) == Some("File Transfer")
    ensures Header(r', ContentDispositionHeader) == Some(disposition)
    ensures Header(r', ContentTransferEncoding) == Some("binary")
    ensures Header(r', Expires) == Some("0")
    ensures Header(r', CacheControl) == Some("must-revalidate")
    ensures Header(r', Pragma) == Some("public")
    ensures forall n :: Key(n) !in DownloadKeys ==> Header(r', n) == Header(r, n)
  {
    KeysDiffer(ContentDescription, ContentDispositionHeader, 9);
    var r1 := WithHeader(r, ContentDescription, "File Transfer");
    var r2 := WithHeader(r1, ContentDispositionHeader, disposition);
    var r3 := WithHeader(r2, ContentTransferEncoding, "binary");
    var r4 := WithHeader(r3, Expires, "0");
    var r5 := WithHeader(r4, CacheControl, "must-revalidate");
    WithHeader(r5, Pragma, "public")
  }

  const DownloadKeys: set<string> :=
    {Key(ContentDescription), Key(ContentDispositionHeader), Key(ContentTransferEncoding),
     Key(Expires), Key(CacheControl), Key(Pragma)}

  /**
   * `sendFile(filename, options, response)`: `writeFile` into the given
   * response (or a fresh one), with the type from `options["mimeType"]`,
   * then the download headers, the attachment name being
   * `options["filename"]` or else the basename of the path.  A given
   * response keeps its status, its body object and every header the
   * download does not set; a fresh one has status 200 and no other header.
   */
  method SendFile(filename: string, options: map<string, string>, response: Option<Response>,
                  file: Option<string>, mimeOf: Detector)
    returns (result: Result<Response>)
    modifies if response.Some? then {response.value.body} else {}
    ensures response.Some? ==> response.value.body.writable == old(response.value.body.writable)
    ensures response.Some? ==>
      response.value.body.sized == old(response.value.body.sized) && response.value.body.uri == old(response.value.body.uri)
    ensures response.Some? && !old(response.value.body.writable) ==>
      result == Err(RuntimeException(UnwritableMessage))
      && response.value.body.content == old(response.value.body.content)
    ensures response.Some? && old(response.value.body.writable) ==> result.Ok?
    ensures response.None? ==> result.Ok?
    ensures result.Ok? ==> result.value.status == (if response.Some? then response.value.status else 200)
    ensures result.Ok? && response.Some? ==> result.value.body == response.value.body
    ensures result.Ok? ==> forall n :: Key(n) !in DownloadKeys && Key(n) != Key(ContentType) && Key(n) != Key(ContentLength) ==>
      Header(result.value, n) == (if response.Some? then Header(response.value, n) else None)
    ensures result.Ok? ==>
      var r := result.value;
      var name := if "filename" in options then options["filename"] else Basename(filename);
      && r.body.content == (if response.Some? then old(response.value.body.content) else []) + file.GetOr([])
      && Header(r, ContentType) == Some(if "mimeType" in options then options["mimeType"] else mimeOf(filename))
      && Header(r, ContentLength) == Some(NatToString(|file.GetOr([])|))
      && Header(r, ContentDescription) == Some("File Transfer")
      && Header(r, ContentDispositionHeader) == Some(ContentDisposition.Attachment(name))
      && Header(r, ContentTransferEncoding) == Some("binary")
      && Header(r, Expires) == Some("0")
      && Header(r, CacheControl) == Some("must-revalidate")
      && Header(r, Pragma) == Some("public")
  {
    var target: Response;
    if response.Some? {
      target := response.value;
    } else {
      target := Make();
    }
    var mimeType := if "mimeType" in options then Some(options["mimeType"]) else None;
    var written := WriteFile(target, filename, mimeType, file, mimeOf);
    if written.Err? {
      return written;
    }
    var name := if "filename" in options then options["filename"] else Basename(filename);
    var r := written.value;
    assert Key(ContentType) !in DownloadKeys && Key(ContentLength) !in DownloadKeys;
    result := Ok(DownloadHeaders(r, ContentDisposition.Attachment(name)));
  }

  /**
   * `location(response, location, movedPermanently)`: `Location` set to the
   * target and status 301 for a permanent move, 302 otherwise; the body and
   * every other header are kept.
   */
  function Location(response: Response, location: string, movedPermanently: bool): (r: Response)
    ensures Header(r, LocationHeader) == Some(location)
    ensures r.status == if movedPermanently then 301 else 302
    ensures 300 <= r.status <= 308
    ensures r.body == response.body
    ensures forall n :: Key(n) != Key(LocationHeader) ==> Header(r, n) == Header(response, n)
  {
    WithStatus(WithHeader(response, LocationHeader, location), if movedPermanently then 301 else 302)
  }

  /** `redirect(location, movedPermanently)`: `location` on a fresh response. */
  method Redirect(location: string, movedPermanently: bool) returns (r: Response)
    ensures r.status == if movedPermanently then 301 else 302
    ensures Header(r, LocationHeader) == Some(location)
    ensures r.headers.Keys == {Key(LocationHeader)} && r.body.content == []
    ensures r.body.writable && r.body.sized
  {
    var made := Make();
    r := Location(made, location, movedPermanently);
  }
}
