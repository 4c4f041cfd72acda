/** JavaScript strings as the page sees them: sequences of UTF-16 code units,
    so that `length` and the 500-unit limit count what the browser counts,
    and `String.prototype.trim` with ECMAScript's whitespace set. */
module JsText {

  newtype CodeUnit = u: int | 0 <= u < 0x1_0000

  type JsString = seq<CodeUnit>

  /** ECMAScript WhiteSpace (TAB, VT, FF, SPACE, NBSP, ZWNBSP and every other
      code point of category Zs) and LineTerminator (LF, CR, LS, PS). */
  predicate IsWhitespace(u: CodeUnit) {
    u == 0x09 || u == 0x0B || u == 0x0C || u == 0x20 || u == 0xA0 || u == 0xFEFF
    || u == 0x1680 || (0x2000 <= u <= 0x200A) || u == 0x202F || u == 0x205F || u == 0x3000
    || u == 0x0A || u == 0x0D || u == 0x2028 || u == 0x2029
  }

  predicate AllWhitespace(s: JsString) {
    WhitespaceBetween(s, 0, |s|)
  }

  /** Every unit of `s` at an index in [lo, hi) is whitespace. */
  predicate WhitespaceBetween(s: JsString, lo: int, hi: int) {
    forall i :: lo <= i < hi && 0 <= i < |s| ==> IsWhitespace(s[i])
  }

  /** Drops the leading whitespace: what is left is a suffix of `s` that does
      not start with whitespace, and everything dropped was whitespace. */
  function TrimStart(s: JsString): (r: JsString)
    ensures |r| <= |s| && r == s[|s| - |r|..]
    ensures r == [] || !IsWhitespace(r[0])
    ensures WhitespaceBetween(s, 0, |s| - |r|)
  {
    if s != [] && IsWhitespace(s[0]) then TrimStart(s[1..]) else s
  }

  /** Drops the trailing whitespace: what is left is a prefix of `s` that does
      not end with whitespace, and everything dropped was whitespace. */
  function TrimEnd(s: JsString): (r: JsString)
    ensures |r| <= |s| && r == s[..|r|]
    ensures r == [] || !IsWhitespace(r[|r| - 1])
    ensures WhitespaceBetween(s, |r|, |s|)
  {
    if s != [] && IsWhitespace(s[|s| - 1]) then TrimEnd(s[..|s| - 1]) else s
  }

  /** `s.trim()`: whitespace removed from both ends. Trimming never
      lengthens a string, and the result is empty exactly when `s` is all
      whitespace. */
  function Trim(s: JsString): (r: JsString)
    ensures |r| <= |s|
    ensures r == [] <==> AllWhitespace(s)
    ensures r == [] || (!IsWhitespace(r[0]) && !IsWhitespace(r[|r| - 1]))
  {
    TrimEnd(TrimStart(s))
  }

  /** `s[a..b]` is what remains of `s` when whitespace is cut from both ends:
      the cut parts are whitespace and the window neither starts nor ends
      with whitespace. This is a definition of trimming independent of the
      recursive one. */
  predicate IsTrimWindow(s: JsString, a: int, b: int) {
    0 <= a <= b <= |s| &&
    WhitespaceBetween(s, 0, a) && WhitespaceBetween(s, b, |s|) &&
    (a == b || (!IsWhitespace(s[a]) && !IsWhitespace(s[b - 1])))
  }

  /** `Trim` cuts exactly such a window out of its argument. */
  lemma TrimIsWindow(s: JsString) returns (a: int, b: int)
    ensures IsTrimWindow(s, a, b) && Trim(s) == s[a..b]
  {
    var t := TrimStart(s);
    var r := TrimEnd(t);
    a := |s| - |t|;
    b := a + |r|;
    assert t[..|r|] == s[a..b];
    if a == b {
      // everything is whitespace, so the empty window may as well be at 0
      a, b := 0, 0;
    }
  }

  /** Any two trim windows of a string hold the same text, so the window, and
      with it `Trim`, is determined by the string alone. */
  lemma TrimWindowUnique(s: JsString, a: int, b: int, c: int, d: int)
    requires IsTrimWindow(s, a, b) && IsTrimWindow(s, c, d)
    ensures s[a..b] == s[c..d]
  {
    if a != b && c != d {
      // a unit that is not whitespace lies in neither cut part
      assert a == c && b == d;
    }
  }

  /** `Trim` agrees with the window definition: for every trim window of `s`. */
  lemma TrimMatchesWindow(s: JsString, a: int, b: int)
    requires IsTrimWindow(s, a, b)
    ensures Trim(s) == s[a..b]
  {
    var c, d := TrimIsWindow(s);
    TrimWindowUnique(s, a, b, c, d);
  }

  /** Trimming twice is trimming once. */
  lemma TrimIdempotent(s: JsString)
    ensures Trim(Trim(s)) == Trim(s)
  {
    var t := Trim(s);
    assert t[..0] == [] && t[|t|..] == [];
    assert t[0..|t|] == t;
    TrimMatchesWindow(t, 0, |t|);
  }
}
