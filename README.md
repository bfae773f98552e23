# bermudaphp/http — a verified model of the response helpers

This project models the core of the `bermudaphp/http` PHP library in Dafny.
The library is a set of helpers on top of PSR-7 messages and PSR-15
middleware. The model covers:

- **`CorsMiddleware`**: a configuration object with five fields and
  get-or-set accessors. Its `process` adds the CORS response headers of
  section 3.2.3 of the WHATWG Fetch Standard when the request carries
  `Origin`.
- **`Responder`**: builds a response from arbitrary content. It chooses the
  status, forces JSON, picks the Content-Type, writes the body and sets
  Content-Length. It also builds redirects, file downloads and nginx
  `X-Accel-Redirect` responses.
- **`Response`**: static helpers that write content into a response body,
  copy a file into it in 8192-byte chunks, add the download header set,
  and set redirect locations.
- **`ContentTypeInjectionMiddleware`**: fills in Content-Length and
  Content-Type when they are missing.
- **`OutputBufferingMiddleware`**: merges what the handler printed into the
  response body. Depending on the mode, the output goes in front of the
  body, after it, or nowhere.
- **The header-value builders**:
  - the Content-Disposition values of RFC 6266 (section 4.1) and RFC 7578
    (section 4.2), in both `ContentDisposition` classes;
  - the `Allow` value of RFC 9110 (section 10.2.1).

## Data model

PSR-7 is reduced to what the library uses (`http.dfy`):

- A `Response` is a value: status, headers and a reference to its body.
- The body is a mutable `Stream` object that all copies of a response
  share, as in PSR-7. A write through one copy is seen by every copy.
- A string is a sequence of bytes, one `char` per byte, as PHP strings are. Sizes such as Content-Length and the 8192-byte chunks therefore count `char`s.
- Header names are case-insensitive. Response and request headers are a
  `HeaderMap`, a map whose every key is already lower-cased (a subset type),
  so a header stored under another spelling of its name cannot occur.
  `WithHeader` replaces the one value a header holds.

Foreign collaborators become parameters or constant fields of function type:

- the MIME detector and its file-info default;
- `Json::encode` and `Json::isEmpty`;
- `mime_content_type`.

The PSR-17 response and stream factories are not parameters. They are the
fixed methods `CreateResponse` and `CreateStream`, so `Responder` has no
`$responseFactory` constructor argument. Both are assumed to return a fresh
body that is writable and of known size; `CreateResponse`'s body is empty and
the response has no headers. The contracts that say a body holds exactly the
written text, or that Content-Length is its size, rely on this.

The file system and PHP's output buffer are inputs as well:

- a file is its content, or `None` when it cannot be opened;
- a handler's run is the response it returned with the text it printed, or
  the error it threw.

## Behaviour kept as the code has it

- **Loose null tests.** The CORS accessors test their argument with PHP's
  loose `== null`. As a result, `allowCredential(false)`, `allowedMethods([])`
  and `origins('')` only read the field. `for(origins, false)` assigns the
  flag directly, so it does clear it.
- **`Vary` carries the origin.** The matching origin value is echoed in
  `Vary`, rather than the field name `Origin` that section 12.5.5 of
  RFC 9110 calls for.
- **No escaping in Content-Disposition.** Filenames and field values go in
  verbatim. Nothing is escaped and no `filename*` parameter is added. The
  model states what a reader that follows the quoted-string rules of
  section 5.6.4 of RFC 9110 recovers from these values: exactly the
  original, when it holds no `"` and no `\`.
- **Content-Type depends on Content-Length.** `injectContentType` fills
  Content-Type only when it has just filled Content-Length. A response that
  already has Content-Length never gains a Content-Type.
- **`notFound` drops its type argument.** The `contentType` argument of
  `notFound` is not passed on.

## Model

| member | source | states |
|---|---|---|
| Cors.CorsMiddleware.constructor | src/CorsMiddleware.php:12-16 | all lists start empty and the credential flag starts true |
| Cors.CorsMiddleware.For | src/CorsMiddleware.php:59-65 | the origins go through the `origins` accessor (a loosely null argument leaves them empty); the credential flag is the argument, so `false` clears it |
| Cors.CorsMiddleware.Origins | src/CorsMiddleware.php:71-87 | reports `*` for an empty list, the sole entry for a one-entry list, the whole list otherwise; then replaces the list by the argument's items in order, unless the argument is loosely null; other fields unchanged |
| Cors.CorsMiddleware.AllowCredential | src/CorsMiddleware.php:93-103 | returns the old flag; the flag becomes true on `true` and is otherwise unchanged (`false == null` in PHP) |
| Cors.CorsMiddleware.AllowedMethods | src/CorsMiddleware.php:109-123 | returns the old list; replaces it by exactly the given items in order unless the argument is null, `''` or `[]`; other fields unchanged |
| Cors.CorsMiddleware.AllowedHeaders | src/CorsMiddleware.php:129-143 | same get-or-set contract for the allowed headers |
| Cors.CorsMiddleware.ExposedHeaders | src/CorsMiddleware.php:149-163 | same get-or-set contract for the exposed headers |
| Cors.Collect | src/CorsMiddleware.php:81-84 | the `foreach` rebuild yields exactly the argument's items, in order |
| Cors.AllowOriginStep | src/CorsMiddleware.php:26-33 | `*` in the list gives `Access-Control-Allow-Origin: *` and leaves `Vary` alone; else a listed origin is echoed in both headers; else (and for an empty list) the response is unchanged; no other header changes |
| Cors.ListStep | src/CorsMiddleware.php:39-49 | an empty list leaves the response unchanged; otherwise the header is the list joined by `,`, which splits back into the list when no entry holds a comma; no other header changes |
| Cors.SettingsStep | src/CorsMiddleware.php:35-49 | the credential flag sets `Access-Control-Allow-Credentials: true` (and otherwise leaves it); each non-empty list is sent joined by `,` and splits back when comma-free, each empty one leaves its header; the origin headers and every non-CORS header are kept |
| Cors.CorsKeysDistinct | src/CorsMiddleware.php:28-48 | the six CORS header names are stored under six different keys, so the steps of `process` do not overwrite each other |
| Cors.CorsMiddleware.Process | src/CorsMiddleware.php:18-52 | no `Origin` gives the handler's response unchanged; otherwise the origin, credentials and list rules above hold, and status, body and every non-CORS header are kept |
| Responders.Responder.constructor | src/Responder.php:21-26 | the detector is the one given, or the file-info detector |
| Responders.Responder.Respond | src/Responder.php:65-85 | an explicit code is the status; otherwise 204 for null content and 200 for other content, or 404 when the written text is judged empty; null content gives an empty body and no headers; non-string content is JSON-encoded with `application/json` whatever type was asked; a string gets the explicit type or the detector's; the body holds exactly the text and Content-Length is its size; only those two headers exist |
| Responders.Responder.NoContent | src/Responder.php:44-47 | status 204, no headers, empty body, which stays writable and of known size |
| Responders.Responder.NotFound | src/Responder.php:54-57 | status 404 for any content; null content gives no headers and an empty body; other content is written as `respond` writes it, with the type chosen as if none was given, Content-Length the body's size, and only those two headers; the body stays writable and of known size |
| Responders.RedirectCode | src/Responder.php:94 | the status always lies in 300..308; a code in that range is kept, any other becomes 302 |
| Responders.Responder.Redirect | src/Responder.php:92-96 | the clamped status, `Location` set to the target, no other header, empty writable body of known size |
| Responders.RespondKeysOutsideFileKeys | src/Responder.php:118-120 | the headers `file` adds never overwrite the Content-Type and Content-Length that `respond` set |
| Responders.FileHeaders | src/Responder.php:118-120 | Content-Description `File-transfer`, the given disposition and Content-Transfer-Encoding `binary` are set; the header set grows by exactly those three keys; status, body and every other header are kept |
| Responders.Responder.File | src/Responder.php:112-121 | the body is the stream's content; Content-Disposition is inline (or attachment) of the uri's basename; Content-Description `File-transfer`; Content-Transfer-Encoding `binary`; Content-Type, Content-Length and the 200/404 status as `respond` sets them for the content; exactly these five headers exist; the body is writable and of known size |
| Responders.Responder.Download | src/Responder.php:102-105 | `file` with an attachment disposition: the body is the stream's content, the three file headers are set, Content-Type, Content-Length and the 200/404 status are as `respond` sets them, and exactly these five headers exist (no cache headers); the body is writable and of known size |
| Responders.Responder.Nginx | src/Responder.php:127-130 | status 204, empty writable body of known size, only `X-Accel-Redirect` set to the filename |
| Responses.CheckWritable | src/Response.php:42-48 | an error exactly when the stream is not writable, and that error is the RuntimeException `Response is un writable` |
| Responses.Write | src/Response.php:32-37 | a non-writable body throws and keeps its content; otherwise the content is appended to the shared body and Content-Type is replaced |
| Responses.Make | src/Response.php:55-58 | a fresh 200 response without headers and with an empty writable body |
| Responses.WriteJson | src/Response.php:93-96 | `write` with `application/json`: a non-writable body throws and keeps its content; otherwise the content is appended and Content-Type replaced; the body's writability, size knowledge and uri never change |
| Responses.WriteHtml | src/Response.php:130-133 | `write` with `text/html`: a non-writable body throws and keeps its content; otherwise the content is appended and Content-Type replaced; the body's writability, size knowledge and uri never change |
| Responses.Json | src/Response.php:64-67 | a 200 response whose body is the content and whose only header is Content-Type `application/json`; the body is writable and of known size |
| Responses.Html | src/Response.php:73-76 | a 200 response whose body is the content and whose only header is Content-Type `text/html`; the body is writable and of known size |
| Responses.ChunkEnd | src/Response.php:115 | a chunk read is non-empty, stays inside the file, is never longer than 8192 bytes, and is exactly 8192 bytes long unless it ends the file |
| Responses.WriteFile | src/Response.php:105-123 | a non-writable body throws before anything is written; otherwise the body gains the whole file (nothing when it cannot be opened); Content-Length is the sum of the chunk writes (the file size, 0 for no file); Content-Type is the explicit type or the one detected from the name; no other header changes |
| Responses.File | src/Response.php:83-86 | a 200 response holding the file, with just Content-Type and Content-Length; the body is writable and of known size |
| Responses.DownloadHeaders | src/Response.php:154-159 | the six download headers get their fixed values and the disposition; status, body and every other header are kept |
| Responses.SendFile | src/Response.php:151-160 | `writeFile` into the given response (or a fresh 200 one) with the type from the options, then the download headers, the attachment name being `options["filename"]` or the basename; a non-writable given body throws before any write and keeps its content, a writable one always succeeds, and the body's writability, size knowledge and uri never change; a given response keeps its status, its body object and every header the download does not set, and a fresh one has no other header |
| Responses.Location | src/Response.php:189-193 | `Location` is the target; the status is 301 for a permanent move and 302 otherwise; body and other headers are kept |
| Responses.Redirect | src/Response.php:200-203 | a fresh response with only `Location` and the 301/302 status; the empty body is writable and of known size |
| ContentTypeInjection.InjectContentType | src/ContentTypeInjectionMiddleware.php:25-39 | an existing Content-Length, or a body of unknown size, returns the response unchanged; otherwise Content-Length is the body size and Content-Type is the existing one or the detector's verdict on the body; status, body and other headers are never touched |
| ContentTypeInjection.InjectIdempotent | src/ContentTypeInjectionMiddleware.php:25-39 | a second injection changes nothing |
| ContentTypeInjection.InjectedLengthReadsBack | src/ContentTypeInjectionMiddleware.php:27-30 | the Content-Length filled in parses back to the body's length |
| ContentTypeInjection.ContentTypeInjectionMiddleware.constructor | src/ContentTypeInjectionMiddleware.php:15-17 | the detector is the one given, or none, in which case each injection falls back to the file-info detector |
| ContentTypeInjection.ContentTypeInjectionMiddleware.Process | src/ContentTypeInjectionMiddleware.php:19-23 | a body of known size always leaves with Content-Length; existing Content-Length and Content-Type are kept; the result is a fixed point of the injection |
| OutputBuffering.OutputBufferingMiddleware.constructor | src/OutputBufferingMiddleware.php:16-18 | the mode is the one given (`null` by default) |
| OutputBuffering.OutputBufferingMiddleware.Process | src/OutputBufferingMiddleware.php:24-45 | a thrown error propagates with no response; empty output or the no-write mode leaves the response and its body unchanged; prepend mode gives a fresh writable body of known size holding the output then the old content, with the same status and headers; any other mode appends to the existing body, which throws when not writable; the returned body's writability, size knowledge and uri never change |
| Headers.FilenameParameterReadsBack | src/headers/ContentDisposition.php:17 | the filename of `<type>; filename="<f>"` reads back verbatim for a lenient reader, and for a quoted-string reader exactly when it holds no quote or backslash |
| Headers.Attachment | src/headers/ContentDisposition.php:15-18 | an `attachment` value whose filename reads back as above |
| Headers.Inline | src/headers/ContentDisposition.php:24-27 | an `inline` value whose filename reads back as above |
| Headers.ParamsAppend | src/headers/ContentDisposition.php:37-39 | one more field appends its `name="value";` parameter at the end |
| Headers.FormData | src/headers/ContentDisposition.php:33-42 | `form-data;` followed by one parameter per field, in iteration order |
| Headers.ParamsLength | src/headers/ContentDisposition.php:38 | each field adds its name, its value and four punctuation characters |
| Headers.FormDataShape | src/headers/ContentDisposition.php:33-42 | the value starts with `form-data;`, ends with `;`, is exactly `form-data;` with no fields, and is 10 plus the fields' lengths long |
| Headers.FormDataEndsWithSemicolon | src/headers/ContentDisposition.php:38 | the parameters of a non-empty field list end with `;` |
| Headers.ReadNamePlain | src/headers/ContentDisposition.php:38 | a name without `=` is read back up to its `=` |
| Headers.FormDataReadsBack | src/headers/ContentDisposition.php:33-42 | the parameters read back as exactly the fields, in order, when no name holds `=` and no value holds a quote or backslash |
| Headers.Allow | src/headers/Header.php:65-68 | no methods give the empty value, and no ASCII lower-case letter is left in the value |
| Headers.AllowSmall | src/headers/Header.php:65-68 | no methods give the empty value; one method gives its upper-case form |
| Headers.AllowAppend | src/headers/Header.php:67 | methods appear in input order, separated by `, ` |
| Headers.AllowLength | src/headers/Header.php:67 | n methods give their total length plus n - 1 two-character separators |
| Headers.AllowIgnoresCase | src/headers/Header.php:67 | upper-casing the methods first does not change the value |
| ContentDisposition.Attachment | src/ContentDisposition.php:25-28 | the same value as the `Headers` builder for every filename, with the same reading |
| ContentDisposition.FormData | src/ContentDisposition.php:35-38 | for every pair of arguments: `form-data; name="`, the field name verbatim, `"; filename="`, the filename verbatim and a closing quote, at fixed positions; a quoted-string reader recovers both arguments if and only if neither holds a quote or backslash |
| ContentDisposition.FormDataReadsBack | src/ContentDisposition.php:37 | the name parameter is read first, then the filename; both come back unchanged if and only if neither holds a quote or backslash, so the arguments are not escaped |
| QuotedString.UnquotePlain | src/headers/ContentDisposition.php:17 | a value without quote or backslash, written between quotes, reads back unchanged with the rest after it |
| QuotedString.VerbatimReadsBackIff | src/headers/ContentDisposition.php:17 | verbatim quoting reads back if and only if the value holds no quote and no backslash |
| Strings.SplitJoin | src/CorsMiddleware.php:40 | a list joined by a character none of its entries holds splits back into the list |
| Strings.ParseNatToString | src/Responder.php:81 | the rendered Content-Length reads back as the same number |
| Strings.NatToStringInjective | src/Responder.php:81 | different sizes give different Content-Length values |
| Strings.Basename | src/Responder.php:114 | the basename holds no slash, is the path's last component after trailing slashes, and is empty only for a path of slashes |
| Strings.JoinNoAsciiLower | src/headers/Header.php:67 | joining parts and a separator without lower-case letters gives a value without lower-case letters |
| Strings.UpperIdempotent | src/headers/Header.php:67 | upper-casing twice is upper-casing once |

## Left out

- PHP's output buffering (`ob_start`, `ob_get_clean`, `ob_end_clean`) is not modelled. The captured output is an input to `OutputBufferingMiddleware.Process`.
- The handlers that `CorsMiddleware`, `ContentTypeInjectionMiddleware` and `OutputBufferingMiddleware` call are not modelled. For all three, the response the handler returns is a parameter of `Process`.
- Cors.CorsMiddleware.Process: an exception thrown by the handler propagates unchanged and is not represented; only the returned response is an input.
- ContentTypeInjection.ContentTypeInjectionMiddleware.Process: likewise, a handler's exception propagates and is not represented. Only `OutputBufferingMiddleware.Process` takes the handler's thrown error as an input (`Handled.Threw`).
- `fopen`, `fread`, `feof` and `fclose` are not modelled. A file is its content or `None`, and the final empty read before end of file, which adds 0 bytes, is not represented.
- Responders.Responder.Respond: `Json::encode` throwing `JsonException` is not modelled. The encoder is a total function, so `respond` never fails, whereas the library lets that exception propagate to the caller.
- `mime_content_type` returning `false` is not modelled. The detector always yields a type.
- The MIME detectors, `Json::encode`, `Json::isEmpty` and `Arrayable::toArray` are foreign libraries. They are function-typed parameters or constant fields, and an `Arrayable` is passed in already converted.
- `Response::make` resolves the response factory through a global service locator. Here it is the factory itself.
- `Response::view` and `Response::route` are not modelled, because they call a renderer and a router behind the locator.
- `Response::serverSendFile` is not modelled; it ignores its arguments and returns `make()`.
- `Responder::fromContainer` and `src/ConfigProvider.php` are container wiring. `src/ResponseHeader.php` and `src/ContentType.php` hold only constants, whose values appear as literals.
- Multi-valued headers, original-case header names, reason phrases and `withAddedHeader` are not modelled. Header values are single strings keyed by the lower-cased name.
- Stream positions are not modelled. A write appends at the end, and casting a stream to a string reads its whole content.
- `Cors.CorsMiddleware.Process`: `in_array` is modelled as exact string equality. PHP's loose comparison, which makes numeric strings such as `"1"` and `"01"` equal, is not.
- `Strings.Basename`: only `/` separates path components, and `basename`'s locale handling and suffix argument are not modelled.
- `QuotedString.Unquote` accepts control characters that the quoted-string grammar excludes. It is only used to read values back, never to build them.
- Integer widths are not modelled. Sizes and status codes are unbounded integers, since no value the library computes comes near PHP's integer limit.
