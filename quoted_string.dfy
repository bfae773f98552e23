/**
 * A reader for the quoted-string form of RFC 9110, section 5.6.4: text
 * between double quotes, where a backslash makes the next character literal.
 * It serves as an independent reading of the `filename="…"` and `name="…"`
 * parameters that the Content-Disposition builders write.
 */
module QuotedString {
  import opened Http

  /**
   * Reads a quoted string whose opening quote has already been consumed:
   * the unescaped value and what follows the closing quote, or None when
   * the closing quote is missing.
   */
  function Unquote(s: string): (r: Option<(string, string)>)
    ensures r.Some? ==> |r.value.1| < |s|
    decreases |s|
  {
    if |s| == 0 then None
    else if s[0] == '"' then Some(([], s[1..]))
    else if s[0] == '\\' then
      if |s| < 2 then None
      else match Unquote(s[2..])
        case None => None
        case Some(p) => Some(([s[1]] + p.0, p.1))
    else match Unquote(s[1..])
      case None => None
      case Some(p) => Some(([s[0]] + p.0, p.1))
  }

  /** A value that can be placed between quotes verbatim, without escaping. */
  predicate Plain(v: string) {
    '"' !in v && '\\' !in v
  }

  /** A plain value written verbatim between quotes is read back unchanged. */
  lemma {:induction false} UnquotePlain(v: string, tail: string)
    requires Plain(v)
    ensures Unquote(v + "\"" + tail) == Some((v, tail))
    decreases |v|
  {
    var s := v + "\"" + tail;
    if |v| == 0 {
      assert s[0] == '"' && s[1..] == tail;
    } else {
      assert s[0] == v[0] && s[1..] == v[1..] + "\"" + tail;
      UnquotePlain(v[1..], tail);
      assert [v[0]] + v[1..] == v;
    }
  }

  /**
   * What the reader consumed: value, closing quote and rest never take more
   * than the input, and take all of it only when nothing was escaped, in
   * which case the input is the value, a quote and the rest.
   */
  lemma {:induction false} UnquoteShape(s: string)
    ensures Unquote(s).Some? ==>
      var (v, rest) := Unquote(s).value;
      && |v| + 1 + |rest| <= |s|
      && (|v| + 1 + |rest| == |s| ==> s == v + "\"" + rest && Plain(v))
    decreases |s|
  {
    if |s| > 0 && s[0] != '"' {
      if s[0] == '\\' {
        if |s| >= 2 { UnquoteShape(s[2..]); }
      } else {
        UnquoteShape(s[1..]);
        if Unquote(s).Some? {
          var (v, rest) := Unquote(s).value;
          var (v', rest') := Unquote(s[1..]).value;
          assert v == [s[0]] + v' && rest == rest';
          if |v| + 1 + |rest| == |s| {
            assert s == [s[0]] + s[1..];
          }
        }
      }
    }
  }

  /**
   * A value written verbatim between quotes, with nothing after the closing
   * quote, reads back as itself exactly when it holds no quote and no
   * backslash.
   */
  lemma VerbatimReadsBackIff(v: string)
    ensures Unquote(v + "\"") == Some((v, "")) <==> Plain(v)
  {
    if Plain(v) {
      UnquotePlain(v, "");
      assert v + "\"" + "" == v + "\"";
    } else {
      UnquoteShape(v + "\"");
    }
  }
}
