/**
 * Header-value builders of the `Headers` namespace: the Content-Disposition
 * values of RFC 6266 (section 4.1) and of `multipart/form-data` (RFC 7578,
 * section 4.2), and the `Allow` value of RFC 9110 (section 10.2.1).
 *
 * Every value is produced by plain concatenation.  Filenames, field names
 * and field values go in verbatim: nothing is escaped and no `filename*`
 * parameter is added.  The readers below state what a recipient that follows
 * the quoted-string rules recovers from these values.
 */
module Headers {
  import opened Strings
  import opened Http
  import opened QuotedString

  const InlineType := "inline"
  const AttachmentType := "attachment"
  const FormDataType := "form-data"

  // ---------------------------------------------------------------------
  // Readers of `<type>; filename="…"`
  // ---------------------------------------------------------------------

  /** The part of a value after `<type>; filename="`, if it starts that way. */
  function AfterFilenamePrefix(value: string, dispositionType: string): Option<string> {
    var prefix := dispositionType + "; filename=\"";
    if |prefix| <= |value| && value[..|prefix|] == prefix then Some(value[|prefix|..]) else None
  }

  /** The filename as a quoted-string reader sees it: escapes undone, nothing after the closing quote. */
  function FilenameOf(value: string, dispositionType: string): Option<string> {
    match AfterFilenamePrefix(value, dispositionType)
    case None => None
    case Some(quoted) =>
      match Unquote(quoted)
      case Some((f, rest)) => if rest == [] then Some(f) else None
      case None => None
  }

  /** The filename as a lenient reader sees it: everything up to a final quote, verbatim. */
  function RawFilenameOf(value: string, dispositionType: string): Option<string> {
    match AfterFilenamePrefix(value, dispositionType)
    case None => None
    case Some(quoted) =>
      if |quoted| > 0 && quoted[|quoted| - 1] == '"' then Some(quoted[..|quoted| - 1]) else None
  }

  /** What both readers make of `<type>; filename="<filename>"`. */
  lemma FilenameParameterReadsBack(dispositionType: string, filename: string)
    ensures var value := dispositionType + "; filename=\"" + filename + "\"";
      && RawFilenameOf(value, dispositionType) == Some(filename)
      && (FilenameOf(value, dispositionType) == Some(filename) <==> Plain(filename))
  {
    var prefix := dispositionType + "; filename=\"";
    var value := prefix + filename + "\"";
    assert value[..|prefix|] == prefix;
    assert value[|prefix|..] == filename + "\"";
    VerbatimReadsBackIff(filename);
  }

  // ---------------------------------------------------------------------
  // attachment / inline
  // ---------------------------------------------------------------------

  /**
   * `attachment; filename="<filename>"`.  The filename is the verbatim text
   * between `filename="` and the final quote; a quoted-string reader gets it
   * back exactly when it holds no quote and no backslash.
   */
  function Attachment(filename: string): (value: string)
    ensures RawFilenameOf(value, AttachmentType) == Some(filename)
    ensures FilenameOf(value, AttachmentType) == Some(filename) <==> Plain(filename)
  {
    FilenameParameterReadsBack(AttachmentType, filename);
    AttachmentType + "; filename=\"" + filename + "\""
  }

  /** `inline; filename="<filename>"`, with the same reading as `Attachment`. */
  function Inline(filename: string): (value: string)
    ensures RawFilenameOf(value, InlineType) == Some(filename)
    ensures FilenameOf(value, InlineType) == Some(filename) <==> Plain(filename)
  {
    FilenameParameterReadsBack(InlineType, filename);
    InlineType + "; filename=\"" + filename + "\""
  }

  // ---------------------------------------------------------------------
  // form-data
  // ---------------------------------------------------------------------

  /** One `name="value";` parameter. */
  function Param(field: (string, string)): string {
    field.0 + "=\"" + field.1 + "\";"
  }

  /** The parameters of the fields, in iteration order. */
  function Params(fields: seq<(string, string)>): string
    decreases |fields|
  {
    if |fields| == 0 then "" else Param(fields[0]) + Params(fields[1..])
  }

  lemma {:induction false} ParamsAppend(fields: seq<(string, string)>, field: (string, string))
    ensures Params(fields + [field]) == Params(fields) + Param(field)
    decreases |fields|
  {
    if |fields| == 0 {
      assert fields + [field] == [field];
    } else {
      assert (fields + [field])[1..] == fields[1..] + [field];
      ParamsAppend(fields[1..], field);
    }
  }

  /**
   * `formData(fields)`: `form-data;` followed by `name="value";` for each
   * field, in iteration order.  The fields arrive as the (name, value) pairs
   * of the PHP array, in its order.
   */
  method FormData(fields: seq<(string, string)>) returns (value: string)
    ensures value == FormDataType + ";" + Params(fields)
  {
    value := FormDataType + ";";
    var i := 0;
    while i < |fields|
      invariant 0 <= i <= |fields|
      invariant value == FormDataType + ";" + Params(fields[..i])
    {
      ParamsAppend(fields[..i], fields[i]);
      assert fields[..i + 1] == fields[..i] + [fields[i]];
      value := value + Param(fields[i]);
      i := i + 1;
    }
    assert fields[..i] == fields;
  }

  /** Total length of the parameters: each field adds its name, its value and 4 punctuation characters. */
  function FieldsLength(fields: seq<(string, string)>): nat
    decreases |fields|
  {
    if |fields| == 0 then 0 else |fields[0].0| + |fields[0].1| + 4 + FieldsLength(fields[1..])
  }

  lemma {:induction false} ParamsLength(fields: seq<(string, string)>)
    ensures |Params(fields)| == FieldsLength(fields)
    decreases |fields|
  {
    if |fields| > 0 { ParamsLength(fields[1..]); }
  }

  /**
   * Shape of every form-data value: it starts with `form-data;`, ends with
   * `;`, is exactly `form-data;` when there are no fields, and is 10
   * characters plus the fields' lengths long.
   */
  lemma FormDataShape(fields: seq<(string, string)>)
    ensures var value := FormDataType + ";" + Params(fields);
      && value[..10] == "form-data;"
      && value[|value| - 1] == ';'
      && (fields == [] ==> value == "form-data;")
      && |value| == 10 + FieldsLength(fields)
  {
  }

  lemma {:induction false} FormDataEndsWithSemicolon(fields: seq<(string, string)>)
    requires |fields| > 0
    ensures |Params(fields)| > 0 && Params(fields)[|Params(fields)| - 1] == ';'
    decreases |fields|
  {
    if |fields| > 1 { FormDataEndsWithSemicolon(fields[1..]); }
  }

  /** Reads a parameter name: everything up to the first `=`, and what follows it. */
  function ReadName(s: string): (r: Option<(string, string)>)
    ensures r.Some? ==> |r.value.1| < |s|
    decreases |s|
  {
    if |s| == 0 then None
    else if s[0] == '=' then Some(([], s[1..]))
    else match ReadName(s[1..])
      case None => None
      case Some(p) => Some(([s[0]] + p.0, p.1))
  }

  /** Reads a sequence of `name="quoted-string";` parameters back into fields. */
  function ReadParams(s: string): Option<seq<(string, string)>>
    decreases |s|
  {
    if |s| == 0 then Some([])
    else match ReadName(s)
      case None => None
      case Some((name, afterEquals)) =>
        if |afterEquals| == 0 || afterEquals[0] != '"' then None
        else match Unquote(afterEquals[1..])
          case None => None
          case Some((v, rest)) =>
            if |rest| == 0 || rest[0] != ';' then None
            else match ReadParams(rest[1..])
              case None => None
              case Some(more) => Some([(name, v)] + more)
  }

  lemma {:induction false} ReadNamePlain(name: string, tail: string)
    requires '=' !in name
    ensures ReadName(name + "=" + tail) == Some((name, tail))
    decreases |name|
  {
    var s := name + "=" + tail;
    if |name| == 0 {
      assert s[0] == '=' && s[1..] == tail;
    } else {
      assert s[0] == name[0] && s[1..] == name[1..] + "=" + tail;
      ReadNamePlain(name[1..], tail);
      assert [name[0]] + name[1..] == name;
    }
  }

  /** Names without `=` and plain values: a reader recovers every field, in order. */
  predicate ReadableFields(fields: seq<(string, string)>) {
    forall i :: 0 <= i < |fields| ==> '=' !in fields[i].0 && Plain(fields[i].1)
  }

  /**
   * The parameters of `formData` read back as exactly the fields given,
   * names and values in order, when no name holds `=` and no value holds a
   * quote or a backslash.
   */
  lemma {:induction false} FormDataReadsBack(fields: seq<(string, string)>)
    requires ReadableFields(fields)
    ensures ReadParams(Params(fields)) == Some(fields)
    decreases |fields|
  {
    if |fields| > 0 {
      var (name, v) := fields[0];
      var tail := Params(fields[1..]);
      var s := Params(fields);
      assert s == name + "=" + ("\"" + v + "\"" + ";" + tail);
      ReadNamePlain(name, "\"" + v + "\"" + ";" + tail);
      var afterEquals := "\"" + v + "\"" + ";" + tail;
      assert afterEquals[1..] == v + "\"" + (";" + tail);
      UnquotePlain(v, ";" + tail);
      assert (";" + tail)[1..] == tail;
      FormDataReadsBack(fields[1..]);
      assert [(name, v)] + fields[1..] == fields;
    }
  }

  // ---------------------------------------------------------------------
  // Allow
  // ---------------------------------------------------------------------

  /** Each method name upper-cased (PHP `array_map('strtoupper', …)`). */
  function UpperAll(methods: seq<string>): seq<string> {
    seq(|methods|, i requires 0 <= i < |methods| => Upper(methods[i]))
  }

  /**
   * `Header::allow`: the upper-cased methods joined by `, `.  No method
   * gives the empty value, and no ASCII lower-case letter survives.
   */
  function Allow(methods: seq<string>): (value: string)
    ensures methods == [] ==> value == ""
    ensures NoAsciiLower(value)
  {
    var upper := UpperAll(methods);
    assert forall i :: 0 <= i < |upper| ==> NoAsciiLower(upper[i]);
    JoinNoAsciiLower(", ", upper);
    Join(", ", upper)
  }

  /** No methods give the empty value; one method gives its upper-case form. */
  lemma AllowSmall(m: string)
    ensures Allow([]) == ""
    ensures Allow([m]) == Upper(m)
  {
  }

  /** Methods are listed in input order: one more method adds `, ` and its upper-case form at the end. */
  lemma AllowAppend(methods: seq<string>, m: string)
    requires |methods| > 0
    ensures Allow(methods + [m]) == Allow(methods) + ", " + Upper(m)
  {
    var all := methods + [m];
    assert UpperAll(all)[..|methods|] == UpperAll(methods);
  }

  /**
   * For n > 0 methods the value is as long as the methods together plus the
   * n - 1 separators of two characters.
   */
  lemma {:induction false} AllowLength(methods: seq<string>)
    requires |methods| > 0
    ensures |Allow(methods)| == TotalLength(methods) + 2 * (|methods| - 1)
    decreases |methods|
  {
    var n := |methods|;
    if n > 1 {
      var init := methods[..n - 1];
      AllowLength(init);
      AllowAppend(init, methods[n - 1]);
      assert init + [methods[n - 1]] == methods;
    }
  }

  /** Upper-casing the methods first does not change the value. */
  lemma AllowIgnoresCase(methods: seq<string>)
    ensures Allow(UpperAll(methods)) == Allow(methods)
  {
    forall i | 0 <= i < |methods|
      ensures UpperAll(UpperAll(methods))[i] == UpperAll(methods)[i]
    {
      UpperIdempotent(methods[i]);
    }
    assert UpperAll(UpperAll(methods)) == UpperAll(methods);
  }
}
