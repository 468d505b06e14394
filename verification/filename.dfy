/** How the generator names the downloaded deck: the default name built
    from the topic, and the name pulled out of a `Content-Disposition`
    header by the regular expression `/filename="?(.+)"?/`. */
module Filename {
  import opened Wrappers
  import opened JsText

  const Underscore: CodeUnit := 0x5F
  const Quote: CodeUnit := 0x22

  /** The code units `[a-z0-9]` matches under the `i` flag. Without the `u`
      flag ECMA-262 canonicalises by upper-casing but never maps a code
      unit at or above 128 onto one below 128, so exactly the ASCII letters
      and digits match. */
  predicate IsAsciiAlnum(u: CodeUnit) {
    (0x30 <= u <= 0x39) || (0x41 <= u <= 0x5A) || (0x61 <= u <= 0x7A)
  }

  /** A code unit `Sanitize` can produce. */
  predicate IsSafe(u: CodeUnit) {
    IsAsciiAlnum(u) || u == Underscore
  }

  /** `s.replace(/[^a-z0-9]/gi, '_')`: every code unit that is not an ASCII
      letter or digit becomes an underscore, one for one. */
  function Sanitize(s: JsString): (r: JsString)
    ensures |r| == |s|
    ensures forall i :: 0 <= i < |s| ==> r[i] == (if IsAsciiAlnum(s[i]) then s[i] else Underscore)
  {
    if s == [] then []
    else [if IsAsciiAlnum(s[0]) then s[0] else Underscore] + Sanitize(s[1..])
  }

  /** Sanitising twice is sanitising once. */
  lemma SanitizeIdempotent(s: JsString)
    ensures Sanitize(Sanitize(s)) == Sanitize(s)
  {
  }

  /** Only ASCII letters, digits and underscores come out, and a string
      made of those alone comes out unchanged. */
  lemma SanitizeFixpoints(s: JsString)
    ensures forall i :: 0 <= i < |s| ==> IsSafe(Sanitize(s)[i])
    ensures Sanitize(s) == s <==> forall i :: 0 <= i < |s| ==> IsSafe(s[i])
  {
  }

  /** The fixed suffix `_presentation.pptx`. */
  const Suffix: JsString := FromString("_presentation.pptx")

  /** `${topic.replace(/[^a-z0-9]/gi, '_')}_presentation.pptx`, built from
      the untrimmed topic. */
  function DefaultFilename(topic: JsString): (r: JsString)
    ensures |r| == |topic| + |Suffix|
    ensures forall i :: 0 <= i < |topic| ==> r[i] == (if IsAsciiAlnum(topic[i]) then topic[i] else Underscore)
    ensures r[|topic|..] == Suffix
  {
    Sanitize(topic) + Suffix
  }

  /** The literal part of the regular expression. */
  const Key: JsString := FromString("filename=")

  /** End of the run of non-line-terminator code units starting at `k`:
      how far a greedy `.+` reaches. */
  function RunEnd(h: JsString, k: nat): (e: nat)
    requires k <= |h|
    ensures k <= e <= |h|
    ensures forall i :: k <= i < e ==> !IsLineTerminator(h[i])
    ensures e < |h| ==> IsLineTerminator(h[e])
    decreases |h| - k
  {
    if k == |h| || IsLineTerminator(h[k]) then k else RunEnd(h, k + 1)
  }

  /** Whether the optional opening quote is consumed at key position `p`:
      the greedy `"?` keeps the quote only when `.+` can still match at
      least one code unit after it. */
  predicate QuoteTaken(h: JsString, p: nat) {
    p + 10 < |h| && h[p + 9] == Quote && !IsLineTerminator(h[p + 10])
  }

  /** The match attempt of `/filename="?(.+)"?/` at position `p`, with the
      backtracking order of ECMA-262: on success the result is capture 1. */
  function MatchAt(h: JsString, p: nat): (r: Option<JsString>)
    ensures r.Some? <==> p + 9 < |h| && h[p..p + 9] == Key && !IsLineTerminator(h[p + 9])
    ensures r.Some? ==>
      var k := if QuoteTaken(h, p) then p + 10 else p + 9;
      && |r.value| > 0
      && k + |r.value| <= |h|
      && r.value == h[k..k + |r.value|]
      && (forall i :: 0 <= i < |r.value| ==> !IsLineTerminator(r.value[i]))
      && (k + |r.value| == |h| || IsLineTerminator(h[k + |r.value|]))
  {
    if p + 9 < |h| && h[p..p + 9] == Key && !IsLineTerminator(h[p + 9]) then
      var k := if QuoteTaken(h, p) then p + 10 else p + 9;
      Some(h[k..RunEnd(h, k)])
    else
      None
  }

  /** The leftmost match at or after `from`, as `String.prototype.match`
      with a non-global expression finds it. */
  function FindFrom(h: JsString, from: nat): (r: Option<JsString>)
    requires from <= |h|
    ensures r.None? <==> forall p :: from <= p <= |h| ==> MatchAt(h, p).None?
    ensures r.Some? ==>
      exists p :: from <= p <= |h| && MatchAt(h, p) == r && forall q :: from <= q < p ==> MatchAt(h, q).None?
    decreases |h| - from
  {
    var m := MatchAt(h, from);
    if m.Some? then m
    else if from == |h| then None
    else FindFrom(h, from + 1)
  }

  /** Whatever matches first is what is found: the search is determined by
      the leftmost position at which `MatchAt` succeeds. */
  lemma {:induction false} FindFromLeftmost(h: JsString, from: nat, p: nat)
    requires from <= p <= |h|
    requires MatchAt(h, p).Some?
    requires forall q :: from <= q < p ==> MatchAt(h, q).None?
    ensures FindFrom(h, from) == MatchAt(h, p)
    decreases p - from
  {
    if from < p {
      FindFromLeftmost(h, from + 1, p);
    }
  }

  /** The header matches the regular expression somewhere. */
  ghost predicate HasMatch(h: JsString) {
    exists p :: 0 <= p <= |h| && MatchAt(h, p).Some?
  }

  /** `c` is capture 1 of the leftmost match in `h`. */
  ghost predicate IsLeftmostCapture(h: JsString, c: JsString) {
    exists p :: 0 <= p <= |h| && MatchAt(h, p) == Some(c) && forall q :: 0 <= q < p ==> MatchAt(h, q).None?
  }

  /** The filename a successful response is saved under: capture 1 of the
      leftmost match when the header is truthy and matches, and the default
      name otherwise. */
  function ResponseFilename(topic: JsString, header: Option<JsString>): (r: JsString)
    ensures header.Some? && header.value != [] && HasMatch(header.value) ==>
      IsLeftmostCapture(header.value, r) && |r| > 0
    ensures !(header.Some? && header.value != [] && HasMatch(header.value)) ==>
      r == DefaultFilename(topic)
  {
    match header
    case Some(h) =>
      if h == [] then DefaultFilename(topic)
      else
        var found := FindFrom(h, 0);
        if found.Some? then found.value else DefaultFilename(topic)
    case None => DefaultFilename(topic)
  }
}
