/** JavaScript strings as sequences of UTF-16 code units, and the
    `String.prototype.trim` rule the generator applies to the topic. */
module JsText {

  /** One UTF-16 code unit: the element type of a JavaScript string. */
  newtype CodeUnit = u: int | 0 <= u < 0x1_0000

  type JsString = seq<CodeUnit>

  /** WhiteSpace of ECMA-262 section 12.2 (2020 and later editions):
      TAB, VT, FF, SPACE, NO-BREAK SPACE, ZERO WIDTH NO-BREAK SPACE and the
      remaining code points of Unicode category Zs. */
  predicate IsWhiteSpace(u: CodeUnit) {
    || u == 0x09 || u == 0x0B || u == 0x0C || u == 0x20 || u == 0xA0
    || u == 0xFEFF || u == 0x1680 || (0x2000 <= u <= 0x200A)
    || u == 0x202F || u == 0x205F || u == 0x3000
  }

  /** LineTerminator of ECMA-262 section 12.3: LF, CR, LS and PS. These are
      also the code units a regular-expression `.` refuses to match. */
  predicate IsLineTerminator(u: CodeUnit) {
    u == 0x0A || u == 0x0D || u == 0x2028 || u == 0x2029
  }

  /** What `trim` strips from either end. */
  predicate IsTrimmable(u: CodeUnit) {
    IsWhiteSpace(u) || IsLineTerminator(u)
  }

  /** Converts a Dafny string literal whose characters all lie in the Basic
      Multilingual Plane to the code units JavaScript stores for it. */
  function FromString(s: string): (r: JsString)
    requires forall i :: 0 <= i < |s| ==> s[i] as int < 0x1_0000
    ensures |r| == |s|
    ensures forall i :: 0 <= i < |s| ==> r[i] as int == s[i] as int
  {
    seq(|s|, i requires 0 <= i < |s| => s[i] as int as CodeUnit)
  }

  /** Conversion distributes over concatenation. */
  lemma FromStringAppend(x: string, y: string)
    requires forall i :: 0 <= i < |x| ==> x[i] as int < 0x1_0000
    requires forall i :: 0 <= i < |y| ==> y[i] as int < 0x1_0000
    ensures FromString(x + y) == FromString(x) + FromString(y)
  {
  }

  /** Number of trimmable code units at the start of `s`. */
  function LeadingTrimmable(s: JsString): (n: nat)
    ensures n <= |s|
    ensures forall i :: 0 <= i < n ==> IsTrimmable(s[i])
    ensures n < |s| ==> !IsTrimmable(s[n])
  {
    if s == [] || !IsTrimmable(s[0]) then 0 else 1 + LeadingTrimmable(s[1..])
  }

  /** Number of trimmable code units at the end of `s`. */
  function TrailingTrimmable(s: JsString): (n: nat)
    ensures n <= |s|
    ensures forall i :: |s| - n <= i < |s| ==> IsTrimmable(s[i])
    ensures n < |s| ==> !IsTrimmable(s[|s| - 1 - n])
  {
    if s == [] || !IsTrimmable(s[|s| - 1]) then 0
    else 1 + TrailingTrimmable(s[..|s| - 1])
  }

  /** `s[a..b]` is what remains of `s` once every trimmable code unit is
      stripped from both ends: everything outside is trimmable, and a
      non-empty remainder starts and ends with a non-trimmable unit. */
  ghost predicate TrimBounds(s: JsString, a: int, b: int) {
    && 0 <= a <= b <= |s|
    && (forall i :: 0 <= i < a ==> IsTrimmable(s[i]))
    && (forall i :: b <= i < |s| ==> IsTrimmable(s[i]))
    && (a < b ==> !IsTrimmable(s[a]) && !IsTrimmable(s[b - 1]))
  }

  /** Stripping the leading run and then the trailing run leaves bounds
      satisfying `TrimBounds`. */
  lemma StripBounds(s: JsString)
    ensures var a := LeadingTrimmable(s);
            TrimBounds(s, a, a + |s[a..]| - TrailingTrimmable(s[a..]))
  {
    var a := LeadingTrimmable(s);
    var t := s[a..];
    var b := a + |t| - TrailingTrimmable(t);
    forall i | b <= i < |s| ensures IsTrimmable(s[i]) {
      assert s[i] == t[i - a];
    }
    if a < b {
      assert s[b - 1] == t[|t| - 1 - TrailingTrimmable(t)];
    }
  }

  /** `String.prototype.trim`. */
  function Trim(s: JsString): (r: JsString)
    ensures exists a, b :: TrimBounds(s, a, b) && r == s[a..b]
    ensures r != [] ==> !IsTrimmable(r[0]) && !IsTrimmable(r[|r| - 1])
  {
    var a := LeadingTrimmable(s);
    var b := a + |s[a..]| - TrailingTrimmable(s[a..]);
    StripBounds(s);
    assert TrimBounds(s, a, b);
    assert a < b ==> s[a..b][0] == s[a] && s[a..b][b - a - 1] == s[b - 1];
    s[a..b]
  }

  /** The remainder described by `TrimBounds` is unique, so it is exactly
      what `Trim` returns. */
  lemma TrimUnique(s: JsString, a: int, b: int)
    requires TrimBounds(s, a, b)
    ensures Trim(s) == s[a..b]
  {
  }

  /** `!s.trim()`: the trimmed string is empty, hence falsy. A string is
      blank exactly when every code unit in it is trimmable; in particular
      the empty string is blank. */
  predicate IsBlank(s: JsString): (r: bool)
    ensures r <==> forall i :: 0 <= i < |s| ==> IsTrimmable(s[i])
  {
    Trim(s) == []
  }

  /** Trimming twice is trimming once. */
  lemma TrimIdempotent(s: JsString)
    ensures Trim(Trim(s)) == Trim(s)
  {
  }

  /** A trimmed non-blank string is itself non-blank. */
  lemma TrimmedIsNotBlank(s: JsString)
    requires !IsBlank(s)
    ensures Trim(s) != [] && !IsBlank(Trim(s))
  {
  }
}
