/**
 * `OutputBufferingMiddleware`: whatever the handler printed while it ran is
 * merged into the body of the response it returned, in front of the old
 * content, after it, or not at all, according to the mode.
 *
 * PHP's output buffer is not modelled: what the handler did is an input,
 * either the response it returned with the text it printed (`None` for the
 * `false` of an output buffer that could not be read), or the error it threw.
 */
module OutputBuffering {
  import opened Http

  const WriteModePrepend := 0
  const WriteModeNoWrite := -1

  datatype Handled =
    | Returned(response: Response, output: Option<string>)
    | Threw(error: Error)  // what was printed before the throw is discarded

  /** PHP `empty()` on the captured output: `false`, `""` and `"0"`. */
  predicate PhpEmpty(output: Option<string>) {
    output.None? || output.value == "" || output.value == "0"
  }

  /** The stream set that `Process` may write to: the returned body, if any. */
  function Bodies(handled: Handled): set<object> {
    if handled.Returned? then {handled.response.body} else {}
  }

  class OutputBufferingMiddleware {
    const mode: Option<int>  // `null` by default

    constructor (mode: Option<int>)
      ensures this.mode == mode
    {
      this.mode := mode;
    }

    /**
     * `process`.
     *  - A thrown error propagates unchanged and no response is produced.
     *  - Output that PHP deems empty, or the no-write mode, leaves the
     *    response and its body as they were.
     *  - In prepend mode the response gets a fresh body holding the output
     *    followed by the old content; the old stream is left alone.
     *  - In any other mode, the default `null` included, the output is
     *    written at the end of the existing body, which throws when the body
     *    does not accept writes.
     *  - Status and headers are never changed.
     */
    method Process(handled: Handled) returns (result: Result<Response>)
      modifies Bodies(handled)
      ensures handled.Threw? ==> result == Err(handled.error)
      ensures handled.Returned? ==>
        var response := handled.response;
        var output := handled.output;
        && response.body.writable == old(response.body.writable)
        && response.body.sized == old(response.body.sized) && response.body.uri == old(response.body.uri)
        && (PhpEmpty(output) || mode == Some(WriteModeNoWrite) ==>
              result == Ok(response) && response.body.content == old(response.body.content))
        && (!PhpEmpty(output) && mode == Some(WriteModePrepend) ==>
              && result.Ok?
              && result.value.status == response.status && result.value.headers == response.headers
              && fresh(result.value.body)
              && result.value.body.writable && result.value.body.sized
              && result.value.body.content == output.value + old(response.body.content)
              && response.body.content == old(response.body.content))
        && (!PhpEmpty(output) && mode != Some(WriteModeNoWrite) && mode != Some(WriteModePrepend) ==>
              if old(response.body.writable) then
                result == Ok(response) && response.body.content == old(response.body.content) + output.value
              else
                result.Err? && response.body.content == old(response.body.content))
    {
      if handled.Threw? {
        return Err(handled.error);
      }
      var response := handled.response;
      var output := handled.output;
      result := Ok(response);
      if !PhpEmpty(output) && mode != Some(WriteModeNoWrite) {
        if mode == Some(WriteModePrepend) {
          var body := CreateStream(output.value + response.body.content);
          result := Ok(WithBody(response, body));
        } else {
          var written := response.body.Write(output.value);
          if written.Err? {
            result := Err(written.error);
          }
        }
      }
    }
  }
}
