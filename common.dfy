/**
 * Shared vocabulary of the model: optional values, results with the errors the
 * application raises, and the few JavaScript string semantics the core relies on
 * (truthiness of an optional string, `String.prototype.trim`, `slice(0, n)`,
 * `startsWith`).
 */
module Common {

  datatype Option<+T> = None | Some(value: T) {
    function GetOr(default: T): T {
      match this
      case Some(v) => v
      case None => default
    }
  }

  /** Where a failure comes from. */
  datatype Error =
    | Thrown(message: string)   // `throw new Error(message)` in the application's own code
    | NotFound                  // the document store refuses to `update` a document that does not exist
    | Upstream(message: string) // the payment processor rejected the request
    | KeyExists                 // the browser database refuses to `add` a record whose primary key is stored

  datatype Result<+T> = Ok(value: T) | Err(error: Error)

  /** A result that carries no value. */
  datatype Outcome = Pass | Fail(error: Error)

  /** JavaScript truthiness of a value that is either a string or null/undefined. */
  predicate Truthy(s: Option<string>) {
    s.Some? && s.value != ""
  }

  /**
   * The characters `String.prototype.trim` removes: the ECMAScript WhiteSpace
   * code points (TAB, VT, FF, SP, NBSP, ZWNBSP and the Unicode space separators)
   * and the LineTerminator code points (LF, CR, LS, PS).
   */
  predicate IsJsWhitespace(c: char) {
    c == '\t' || c == '\n' || c == '\r' || c == ' '
    || c == '\U{000B}' || c == '\U{000C}' || c == '\U{00A0}' || c == '\U{FEFF}'
    || c == '\U{1680}' || ('\U{2000}' <= c <= '\U{200A}') || c == '\U{2028}' || c == '\U{2029}'
    || c == '\U{202F}' || c == '\U{205F}' || c == '\U{3000}'
  }

  /** Every character of `s` is whitespace (this includes the empty string). */
  predicate Blank(s: string) {
    forall i :: 0 <= i < |s| ==> IsJsWhitespace(s[i])
  }

  /** `s` with its leading whitespace removed. */
  function TrimStart(s: string): string {
    if s == [] || !IsJsWhitespace(s[0]) then s else TrimStart(s[1..])
  }

  /** `TrimStart` keeps a suffix of `s` that does not start with whitespace. */
  lemma {:induction false} TrimStartIsSuffix(s: string)
    ensures |TrimStart(s)| <= |s| && TrimStart(s) == s[|s| - |TrimStart(s)|..]
    ensures TrimStart(s) == [] || !IsJsWhitespace(TrimStart(s)[0])
  {
    if s != [] && IsJsWhitespace(s[0]) {
      TrimStartIsSuffix(s[1..]);
    }
  }

  /** What `TrimStart` removes is whitespace only. */
  lemma {:induction false} TrimStartRemovesBlank(s: string)
    ensures |TrimStart(s)| <= |s|
    ensures Blank(s[..|s| - |TrimStart(s)|])
  {
    TrimStartIsSuffix(s);
    if s != [] && IsJsWhitespace(s[0]) {
      var t := s[1..];
      TrimStartRemovesBlank(t);
      TrimStartIsSuffix(t);
      var k := |t| - |TrimStart(t)|;
      assert TrimStart(s) == TrimStart(t);
      forall i | 0 <= i < k + 1 ensures IsJsWhitespace(s[i]) {
        if i > 0 {
          assert s[i] == t[..k][i - 1];
        }
      }
    }
  }

  /** `s` with its trailing whitespace removed. */
  function TrimEnd(s: string): string {
    if s == [] || !IsJsWhitespace(s[|s| - 1]) then s else TrimEnd(s[..|s| - 1])
  }

  /** `TrimEnd` keeps a prefix of `s` that does not end with whitespace. */
  lemma {:induction false} TrimEndIsPrefix(s: string)
    ensures |TrimEnd(s)| <= |s| && TrimEnd(s) == s[..|TrimEnd(s)|]
    ensures TrimEnd(s) == [] || !IsJsWhitespace(TrimEnd(s)[|TrimEnd(s)| - 1])
  {
    if s != [] && IsJsWhitespace(s[|s| - 1]) {
      TrimEndIsPrefix(s[..|s| - 1]);
    }
  }

  /** What `TrimEnd` removes is whitespace only. */
  lemma {:induction false} TrimEndRemovesBlank(s: string)
    ensures |TrimEnd(s)| <= |s|
    ensures Blank(s[|TrimEnd(s)|..])
  {
    TrimEndIsPrefix(s);
    if s != [] && IsJsWhitespace(s[|s| - 1]) {
      var t := s[..|s| - 1];
      TrimEndRemovesBlank(t);
      TrimEndIsPrefix(t);
      var n := |TrimEnd(t)|;
      assert TrimEnd(s) == TrimEnd(t);
      forall i | n <= i < |s| ensures IsJsWhitespace(s[i]) {
        if i < |s| - 1 {
          assert s[i] == t[n..][i - n];
        }
      }
    }
  }

  /** `String.prototype.trim`. */
  function Trim(s: string): string {
    TrimEnd(TrimStart(s))
  }

  /** `s.trim()` is falsy exactly when `s` consists of whitespace only. */
  lemma TrimEmptyIffBlank(s: string)
    ensures Trim(s) == "" <==> Blank(s)
  {
    var t := TrimStart(s);
    var k := |s| - |t|;
    TrimStartIsSuffix(s);
    TrimEndIsPrefix(t);
    TrimStartRemovesBlank(s);
    TrimEndRemovesBlank(t);
    if Trim(s) == "" {
      assert Blank(t[0..]);
      assert t == [];
      assert s[..k] == s;
    }
  }

  /** `s.slice(0, n)`: the first `n` characters, or all of `s` when it is shorter. */
  function Prefix(s: string, n: nat): (r: string)
    ensures |r| == if |s| < n then |s| else n
    ensures r <= s
  {
    if |s| <= n then s else s[..n]
  }

  /** `s.startsWith(p)`. */
  predicate StartsWith(s: string, p: string) {
    |p| <= |s| && s[..|p|] == p
  }
}
