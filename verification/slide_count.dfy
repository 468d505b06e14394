/** The slide-count input's change handler:
    `Math.max(3, Math.min(20, parseInt(value) || 5))`. */
module SlideCount {
  import opened Wrappers

  const MinSlides := 3
  const MaxSlides := 20
  /** Initial value of the `slides` state and the value a successful
      generation resets it to. */
  const DefaultSlides := 5

  /** A slide count the form can hold. */
  predicate InRange(n: int) {
    MinSlides <= n <= MaxSlides
  }

  /** `parseInt(value) || 5`: NaN (`None`) and zero are both falsy. */
  function OrDefault(parsed: Option<int>): int {
    match parsed
    case None => DefaultSlides
    case Some(v) => if v == 0 then DefaultSlides else v
  }

  /** The clamp applied to every edit of the slide-count field; `parsed` is
      the result of `parseInt`, with `None` for NaN. */
  function Clamp(parsed: Option<int>): (n: int)
    ensures InRange(n)
    ensures parsed == None || parsed == Some(0) ==> n == DefaultSlides
    ensures parsed.Some? && parsed.value != 0 && parsed.value < MinSlides ==> n == MinSlides
    ensures parsed.Some? && parsed.value > MaxSlides ==> n == MaxSlides
    ensures parsed.Some? && InRange(parsed.value) ==> n == parsed.value
  {
    var v := OrDefault(parsed);
    var upper := if v < MaxSlides then v else MaxSlides;
    if upper > MinSlides then upper else MinSlides
  }

  /** Re-clamping the value the field already shows leaves it unchanged. */
  lemma ClampIdempotent(parsed: Option<int>)
    ensures Clamp(Some(Clamp(parsed))) == Clamp(parsed)
  {
  }

  /** The clamp yields the default count exactly for NaN, 0 and 5 itself. */
  lemma ClampDefaultOnlyFrom(parsed: Option<int>)
    ensures Clamp(parsed) == DefaultSlides <==> parsed in {None, Some(0), Some(DefaultSlides)}
  {
  }
}
