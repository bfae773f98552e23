/**
 * The older Content-Disposition helper of the `Http` namespace: an
 * `attachment` value (RFC 6266, section 4.1) and a single-file `form-data`
 * value (RFC 7578, section 4.2).  Both are built by plain concatenation.
 */
module ContentDisposition {
  import opened Http
  import opened QuotedString
  import Headers

  /**
   * `attachment; filename="<filename>"`: the same value as the `Headers`
   * builder produces, read the same way.
   */
  function Attachment(filename: string): (value: string)
    ensures value == Headers.Attachment(filename)
    ensures Headers.RawFilenameOf(value, Headers.AttachmentType) == Some(filename)
    ensures Headers.FilenameOf(value, Headers.AttachmentType) == Some(filename) <==> Plain(filename)
  {
    Headers.FilenameParameterReadsBack(Headers.AttachmentType, filename);
    "attachment" + "; filename=\"" + filename + "\""
  }

  /** Reads `form-data; name="…"; filename="…"` back into the field name and the filename. */
  function ReadFormData(value: string): Option<(string, string)> {
    var prefix := "form-data; name=\"";
    if |value| < |prefix| || value[..|prefix|] != prefix then None
    else match Unquote(value[|prefix|..])
      case None => None
      case Some((name, rest)) =>
        var middle := "; filename=\"";
        if |rest| < |middle| || rest[..|middle|] != middle then None
        else match Unquote(rest[|middle|..])
          case Some((filename, tail)) => if tail == [] then Some((name, filename)) else None
          case None => None
  }

  /**
   * `form-data; name="<fieldName>"; filename="<filename>"`: both arguments
   * sit verbatim at fixed places, the name parameter before the filename,
   * and the value ends with a quote.  A quoted-string reader recovers both
   * arguments exactly when neither holds a quote or a backslash, so nothing
   * is escaped.
   */
  function FormData(fieldName: string, filename: string): (value: string)
    ensures |value| == 31 + |fieldName| + |filename|
    ensures value[..17] == "form-data; name=\""
    ensures value[17..17 + |fieldName|] == fieldName
    ensures value[17 + |fieldName|..30 + |fieldName|] == "\"; filename=\""
    ensures value[30 + |fieldName|..|value| - 1] == filename
    ensures value[|value| - 1] == '"'
    ensures ReadFormData(value) == Some((fieldName, filename)) <==> Plain(fieldName) && Plain(filename)
  {
    FormDataReadsBack(fieldName, filename);
    "form-data" + "; name=\"" + fieldName + "\"; filename=\"" + filename + "\""
  }

  /** The reading of a form-data value round-trips exactly for plain arguments. */
  lemma FormDataReadsBack(fieldName: string, filename: string)
    ensures var value := "form-data" + "; name=\"" + fieldName + "\"; filename=\"" + filename + "\"";
      ReadFormData(value) == Some((fieldName, filename)) <==> Plain(fieldName) && Plain(filename)
  {
    var prefix := "form-data; name=\"";
    var middle := "; filename=\"";
    var afterName := middle + filename + "\"";
    var value := prefix + fieldName + "\"" + afterName;
    assert value == "form-data" + "; name=\"" + fieldName + "\"; filename=\"" + filename + "\"";
    assert value[..|prefix|] == prefix;
    assert value[|prefix|..] == fieldName + "\"" + afterName;
    if ReadFormData(value) == Some((fieldName, filename)) {
      var quoted := value[|prefix|..];
      UnquoteShape(quoted);
      var rest := Unquote(quoted).value.1;
      var tail := rest[|middle|..];
      UnquoteShape(tail);
      assert Plain(fieldName) && rest == afterName;
      assert tail == filename + "\"";
    }
    if Plain(fieldName) && Plain(filename) {
      UnquotePlain(fieldName, afterName);
      assert afterName[..|middle|] == middle;
      assert afterName[|middle|..] == filename + "\"" + "";
      UnquotePlain(filename, "");
    }
  }
}
