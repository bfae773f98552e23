/**
 * The few PHP string built-ins the library leans on: ASCII case mapping
 * (`strtolower`, `strtoupper`), `implode`, the decimal rendering of an
 * integer header value, and `basename`.  Each comes with the reading that
 * undoes it, so that what the library writes into a header can be shown to
 * carry exactly what it was given.
 */
module Strings {

  // ---------------------------------------------------------------------
  // ASCII case mapping (`strtolower` / `strtoupper` as in PHP 8.2 and later,
  // where they ignore the locale; an ASCII-only mapping is assumed)
  // ---------------------------------------------------------------------

  function LowerChar(c: char): char {
    if 'A' <= c <= 'Z' then (c as int + 32) as char else c
  }

  function UpperChar(c: char): char {
    if 'a' <= c <= 'z' then (c as int - 32) as char else c
  }

  function Lower(s: string): string {
    seq(|s|, i requires 0 <= i < |s| => LowerChar(s[i]))
  }

  function Upper(s: string): string {
    seq(|s|, i requires 0 <= i < |s| => UpperChar(s[i]))
  }

  /** Upper-casing a string twice is the same as doing it once. */
  lemma UpperIdempotent(s: string)
    ensures Upper(Upper(s)) == Upper(s)
  {
  }

  // ---------------------------------------------------------------------
  // implode and its inverse
  // ---------------------------------------------------------------------

  /** PHP `implode(sep, parts)`: the parts in order, `sep` between neighbours. */
  function Join(sep: string, parts: seq<string>): string
    decreases |parts|
  {
    if |parts| == 0 then ""
    else if |parts| == 1 then parts[0]
    else Join(sep, parts[..|parts| - 1]) + sep + parts[|parts| - 1]
  }

  /** No ASCII lower-case letter occurs in `s`. */
  predicate NoAsciiLower(s: string) {
    forall i :: 0 <= i < |s| ==> !('a' <= s[i] <= 'z')
  }

  /** Joining parts without lower-case letters by such a separator gives no lower-case letter. */
  lemma {:induction false} JoinNoAsciiLower(sep: string, parts: seq<string>)
    requires NoAsciiLower(sep)
    requires forall i :: 0 <= i < |parts| ==> NoAsciiLower(parts[i])
    ensures NoAsciiLower(Join(sep, parts))
    decreases |parts|
  {
    if |parts| > 1 {
      var init := parts[..|parts| - 1];
      JoinNoAsciiLower(sep, init);
      var a := Join(sep, init);
      var b := parts[|parts| - 1];
      forall i | 0 <= i < |a + sep + b|
        ensures !('a' <= (a + sep + b)[i] <= 'z')
      {
        if i < |a| {
          assert (a + sep + b)[i] == a[i];
        } else if i < |a| + |sep| {
          assert (a + sep + b)[i] == sep[i - |a|];
        } else {
          assert (a + sep + b)[i] == b[i - |a| - |sep|];
        }
      }
    }
  }

  /** Sum of the lengths of the parts. */
  function TotalLength(parts: seq<string>): nat
    decreases |parts|
  {
    if |parts| == 0 then 0 else TotalLength(parts[..|parts| - 1]) + |parts[|parts| - 1]|
  }

  /** Cuts `s` at every occurrence of `c` (PHP `explode` on a one-character separator). */
  function Split(s: string, c: char): (parts: seq<string>)
    ensures |parts| >= 1
    decreases |s|
  {
    if |s| == 0 then [""]
    else
      var rest := Split(s[1..], c);
      if s[0] == c then [""] + rest else [[s[0]] + rest[0]] + rest[1..]
  }

  lemma {:induction false} SplitWithoutSeparator(s: string, c: char)
    requires c !in s
    ensures Split(s, c) == [s]
    decreases |s|
  {
    if |s| > 0 {
      SplitWithoutSeparator(s[1..], c);
      assert [s[0]] + s[1..] == s;
    }
  }

  /** Splitting at one separator splits each side independently. */
  lemma {:induction false} SplitAround(a: string, b: string, c: char)
    ensures Split(a + [c] + b, c) == Split(a, c) + Split(b, c)
    decreases |a|
  {
    var s := a + [c] + b;
    if |a| == 0 {
      assert s[0] == c && s[1..] == b;
    } else {
      assert s[0] == a[0];
      assert s[1..] == a[1..] + [c] + b;
      SplitAround(a[1..], b, c);
    }
  }

  /**
   * A list joined with a one-character separator that occurs in none of its
   * elements splits back into exactly that list, in the same order.
   */
  lemma {:induction false} SplitJoin(parts: seq<string>, c: char)
    requires |parts| >= 1
    requires forall i :: 0 <= i < |parts| ==> c !in parts[i]
    ensures Split(Join([c], parts), c) == parts
    decreases |parts|
  {
    var n := |parts|;
    if n == 1 {
      SplitWithoutSeparator(parts[0], c);
    } else {
      var init := parts[..n - 1];
      SplitJoin(init, c);
      SplitAround(Join([c], init), parts[n - 1], c);
      SplitWithoutSeparator(parts[n - 1], c);
      assert init + [parts[n - 1]] == parts;
    }
  }

  // ---------------------------------------------------------------------
  // Decimal rendering of a non-negative integer header value
  // ---------------------------------------------------------------------

  predicate IsDigit(c: char) {
    '0' <= c <= '9'
  }

  function DigitChar(d: nat): (c: char)
    requires d < 10
    ensures IsDigit(c) && c as int - '0' as int == d
  {
    ('0' as int + d) as char
  }

  /** How PHP turns an `int` header value into the header's text. */
  function NatToString(n: nat): (s: string)
    ensures |s| >= 1
    ensures forall i :: 0 <= i < |s| ==> IsDigit(s[i])
    decreases n
  {
    if n < 10 then [DigitChar(n)] else NatToString(n / 10) + [DigitChar(n % 10)]
  }

  /** Reads a string of decimal digits back as a number. */
  function ParseNat(s: string): nat
    requires forall i :: 0 <= i < |s| ==> IsDigit(s[i])
    decreases |s|
  {
    if |s| == 0 then 0
    else
      assert IsDigit(s[|s| - 1]);
      ParseNat(s[..|s| - 1]) * 10 + (s[|s| - 1] as int - '0' as int)
  }

  /** The rendered number reads back as the same number. */
  lemma {:induction false} ParseNatToString(n: nat)
    ensures ParseNat(NatToString(n)) == n
    decreases n
  {
    var s := NatToString(n);
    if n >= 10 {
      ParseNatToString(n / 10);
      assert s[..|s| - 1] == NatToString(n / 10);
    }
  }

  /** Distinct sizes are rendered as distinct header values. */
  lemma NatToStringInjective(m: nat, n: nat)
    requires NatToString(m) == NatToString(n)
    ensures m == n
  {
    ParseNatToString(m);
    ParseNatToString(n);
  }

  // ---------------------------------------------------------------------
  // basename
  // ---------------------------------------------------------------------

  /** The path without the slashes that end it. */
  function TrimTrailingSlashes(p: string): (r: string)
    ensures |r| <= |p| && r == p[..|r|]
    ensures r == [] || r[|r| - 1] != '/'
    ensures forall i :: |r| <= i < |p| ==> p[i] == '/'
    decreases |p|
  {
    if |p| > 0 && p[|p| - 1] == '/' then TrimTrailingSlashes(p[..|p| - 1]) else p
  }

  /** The longest slash-free tail of the path. */
  function AfterLastSlash(p: string): (r: string)
    ensures |r| <= |p| && r == p[|p| - |r|..]
    ensures '/' !in r
    ensures |r| < |p| ==> p[|p| - |r| - 1] == '/'
    decreases |p|
  {
    if |p| == 0 || p[|p| - 1] == '/' then ""
    else AfterLastSlash(p[..|p| - 1]) + [p[|p| - 1]]
  }

  /**
   * `name` occurs in `path` at `k`, at the start or right after a slash, and
   * only slashes follow it: it is the path's last component.
   */
  predicate LastComponentAt(path: string, k: int, name: string) {
    && 0 <= k <= |path| - |name|
    && path[k..k + |name|] == name
    && (k == 0 || path[k - 1] == '/')
    && forall i :: k + |name| <= i < |path| ==> path[i] == '/'
  }

  /**
   * PHP `basename` on a `/`-separated path: trailing slashes are dropped and
   * the last remaining component is kept.  The result holds no slash, is the
   * path's last component, and is empty only for a path of slashes alone.
   */
  function Basename(path: string): (name: string)
    ensures '/' !in name
    ensures exists k :: LastComponentAt(path, k, name)
    ensures name == [] ==> forall i :: 0 <= i < |path| ==> path[i] == '/'
  {
    var trimmed := TrimTrailingSlashes(path);
    var name := AfterLastSlash(trimmed);
    var k := |trimmed| - |name|;
    assert path[k..k + |name|] == trimmed[k..] == name;
    assert LastComponentAt(path, k, name);
    name
  }
}
