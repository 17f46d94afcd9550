/**
  The two additive scores. Each starts at 100, applies one adjustment per
  group of raw facts and is clamped to [0, 100]. Required facts are read
  with `inputs[key]`, so a missing one raises KeyError (`MissingKey`), in
  the order the Python code reads them; optional ones fall back to defaults.
*/
module Scoring {
  import opened Wrappers
  import opened Facts

  /** max(0, min(100, x)) */
  function Clamp(x: int): (r: int)
    ensures 0 <= r <= 100
    ensures 0 <= x <= 100 ==> r == x
    ensures x < 0 ==> r == 0
    ensures x > 100 ==> r == 100
  {
    if x < 0 then 0 else if x > 100 then 100 else x
  }

  // Visibility groups

  function PositionAdjustment(y: real): int {
    if y > 800.0 then -30 else if y > 600.0 then -15 else if y <= 400.0 then 5 else 0
  }

  function ContrastAdjustment(c: real): int {
    if c < 3.0 then -25 else if c < 4.5 then -10 else if c >= 7.0 then 5 else 0
  }

  function WhitespaceAdjustment(w: real): int {
    if w < 30.0 then -20 else if w < 40.0 then -10 else 0
  }

  function CtaCountAdjustment(n: real): int {
    if n > 2.0 then -15 else if n > 1.0 then -8 else 0
  }

  function SimilarColorAdjustment(s: real): int {
    if s > 2.0 then -10 else if s > 0.0 then -5 else 0
  }

  /** The unclamped visibility score; it can only range over [0, 110]. */
  function VisibilityRaw(y: real, contrast: real, whitespace: real, ctas: real, similar: real): (r: int)
    ensures 0 <= r <= 110
  {
    100 + PositionAdjustment(y) + ContrastAdjustment(contrast) + WhitespaceAdjustment(whitespace)
        + CtaCountAdjustment(ctas) + SimilarColorAdjustment(similar)
  }

  // Clickability groups

  /** Size: when the width is below 180 the height is not looked at. */
  function SizeAdjustment(w: real, h: real): int {
    if w < 180.0 || h < 44.0 then -30
    else if w < 200.0 || h < 50.0 then -15
    else if w >= 250.0 && h >= 60.0 then 5
    else 0
  }

  function TextLengthAdjustment(t: real): int {
    if t > 30.0 then -25
    else if t > 25.0 then -15
    else if t > 20.0 then -8
    else if t <= 15.0 && t > 5.0 then 5
    else 0
  }

  function ClickableElementsAdjustment(e: real): int {
    if e > 7.0 then -20 else if e > 5.0 then -10 else 0
  }

  function MobileAdjustment(w: real, h: real): int {
    if w < 180.0 || h < 48.0 then -15 else if w < 200.0 then -8 else 0
  }

  function LoadingAdjustment(a: real): int {
    if a == 0.0 then -10 else 0
  }

  /** The unclamped clickability score; it can only range over [0, 110]. */
  function ClickabilityRaw(w: real, h: real, text: real, elements: real,
                           mobileW: real, mobileH: real, animation: real): (r: int)
    ensures 0 <= r <= 110
  {
    100 + SizeAdjustment(w, h) + TextLengthAdjustment(text) + ClickableElementsAdjustment(elements)
        + MobileAdjustment(mobileW, mobileH) + LoadingAdjustment(animation)
  }

  /** The visibility score of a raw fact set, or the first required fact it misses. */
  function Visibility(inputs: RawFacts): (r: Result<int, Error>)
    ensures r.Success? <==> CtaPositionY in inputs && ContrastRatio in inputs
                            && WhitespaceAroundCta in inputs && NumberOfCtas in inputs
    ensures r.Failure? ==> r.error.MissingKey? && r.error.key !in inputs
    ensures r.Success? ==> 0 <= r.value <= 100
  {
    if CtaPositionY !in inputs then Failure(MissingKey(CtaPositionY))
    else if ContrastRatio !in inputs then Failure(MissingKey(ContrastRatio))
    else if WhitespaceAroundCta !in inputs then Failure(MissingKey(WhitespaceAroundCta))
    else if NumberOfCtas !in inputs then Failure(MissingKey(NumberOfCtas))
    else Success(Clamp(VisibilityRaw(
      inputs[CtaPositionY], inputs[ContrastRatio], inputs[WhitespaceAroundCta],
      inputs[NumberOfCtas], GetOr(inputs, SimilarColorElements, 0.0))))
  }

  /**
    The clickability score of a raw fact set, or the first required fact it
    misses. cta_height is only required when cta_width is at least 180.
  */
  function Clickability(inputs: RawFacts): (r: Result<int, Error>)
    ensures r.Success? <==> CtaWidth in inputs
                            && (inputs[CtaWidth] >= 180.0 ==> CtaHeight in inputs)
                            && CtaTextLength in inputs && ClickableElementsBeforeCta in inputs
    ensures r.Failure? ==> r.error.MissingKey? && r.error.key !in inputs
    ensures r.Success? ==> 0 <= r.value <= 100
  {
    if CtaWidth !in inputs then Failure(MissingKey(CtaWidth))
    else if inputs[CtaWidth] >= 180.0 && CtaHeight !in inputs then Failure(MissingKey(CtaHeight))
    else if CtaTextLength !in inputs then Failure(MissingKey(CtaTextLength))
    else if ClickableElementsBeforeCta !in inputs then Failure(MissingKey(ClickableElementsBeforeCta))
    else Success(Clamp(ClickabilityRaw(
      inputs[CtaWidth], GetOr(inputs, CtaHeight, 0.0), inputs[CtaTextLength],
      inputs[ClickableElementsBeforeCta],
      GetOr(inputs, CtaMobileWidth, 200.0), GetOr(inputs, CtaMobileHeight, 48.0),
      GetOr(inputs, HasLoadingAnimation, 1.0))))
  }

  /** A width below 180 settles the size group whatever the height. */
  lemma NarrowCtaIgnoresHeight(w: real, h1: real, h2: real)
    requires w < 180.0
    ensures SizeAdjustment(w, h1) == SizeAdjustment(w, h2) == -30
  {
  }

  /**
    Moving the CTA down the page never raises visibility, raising the
    contrast never lowers it, more whitespace never lowers it, and more CTAs
    or more similarly coloured elements never raise it.
  */
  lemma VisibilityMonotone(y1: real, y2: real, c1: real, c2: real, w1: real, w2: real,
                           n1: real, n2: real, s1: real, s2: real)
    requires y1 <= y2 && c1 >= c2 && w1 >= w2 && n1 <= n2 && s1 <= s2
    ensures VisibilityRaw(y1, c1, w1, n1, s1) >= VisibilityRaw(y2, c2, w2, n2, s2)
  {
  }

  /** The clamp at 0 never binds: every group's worst case together still scores 0. */
  lemma WorstCaseScores()
    ensures VisibilityRaw(900.0, 1.0, 0.0, 5.0, 5.0) == 0
    ensures ClickabilityRaw(100.0, 20.0, 40.0, 10.0, 100.0, 20.0, 0.0) == 0
  {
  }
}
