/**
  The qualitative converter: six threshold ladders turning raw numeric facts
  into categorical labels. Each ladder reads its inputs with `inputs.get`,
  so an absent input falls back to the converter's own default.
*/
module Converter {
  import opened Facts

  /** content_word_count: below 200 short, below 400 medium, otherwise long. */
  function ContentLengthOf(words: real): (l: Label)
    ensures l == Short <==> words < 200.0
    ensures l == Medium <==> 200.0 <= words < 400.0
    ensures l == Long <==> 400.0 <= words
  {
    if words < 200.0 then Short else if words < 400.0 then Medium else Long
  }

  /**
    cta_text_length: good on (5, 15], weak (poor) above 25, and medium for
    everything else, which includes every length of at most 5.
  */
  function TextClarityOf(len: real): (l: Label)
    ensures l == Good <==> 5.0 < len <= 15.0
    ensures l == Medium <==> len <= 5.0 || 15.0 < len <= 25.0
    ensures l == Weak <==> 25.0 < len
  {
    if len <= 15.0 && len > 5.0 then Good else if len <= 25.0 then Medium else Weak
  }

  /** similar_color_elements: exactly 0 unique, otherwise at most 2 medium, above 2 similar. */
  function ColorUniquenessOf(similar: real): (l: Label)
    ensures l == Unique <==> similar == 0.0
    ensures l == Medium <==> similar != 0.0 && similar <= 2.0
    ensures l == Similar <==> 2.0 < similar
  {
    if similar == 0.0 then Unique else if similar <= 2.0 then Medium else Similar
  }

  /** CTA area against 1.5 and 1.1 times the largest other element. */
  function HierarchyOf(area: real, largestOther: real): (l: Label)
    ensures l == Strong <==> area > largestOther * 1.5
    ensures l == Medium <==> area <= largestOther * 1.5 && area > largestOther * 1.1
    ensures l == Weak <==> area <= largestOther * 1.5 && area <= largestOther * 1.1
  {
    if area > largestOther * 1.5 then Strong
    else if area > largestOther * 1.1 then Medium
    else Weak
  }

  /** Mobile friendly exactly when the mobile CTA is at least 180 wide and 48 high. */
  function MobileFriendlyOf(width: real, height: real): (l: Label)
    ensures l == Yes <==> width >= 180.0 && height >= 48.0
    ensures l == No <==> !(width >= 180.0 && height >= 48.0)
  {
    if width >= 180.0 && height >= 48.0 then Yes else No
  }

  /** Loading feedback exactly when has_loading_animation is positive. */
  function LoadingFeedbackOf(animation: real): (l: Label)
    ensures l == Yes <==> animation > 0.0
    ensures l == No <==> animation <= 0.0
  {
    if animation > 0.0 then Yes else No
  }

  /** The converter's defaults for absent inputs (its hierarchy default is 150). */
  const DefaultWordCount := 300.0
  const DefaultTextLength := 15.0
  const DefaultSimilarColors := 0.0
  const DefaultWidth := 200.0
  const DefaultHeight := 50.0
  const DefaultLargestOther := 150.0
  const DefaultMobileWidth := 200.0
  const DefaultMobileHeight := 48.0
  const DefaultAnimation := 1.0

  /** The six labels of `inputs`, each from its own ladder. */
  function Qualitative(inputs: RawFacts): (q: map<Key, Label>)
    ensures forall k :: k in q <==> IsDerived(k)
  {
    map[
      ContentLength := ContentLengthOf(GetOr(inputs, ContentWordCount, DefaultWordCount)),
      CtaTextClarity := TextClarityOf(GetOr(inputs, CtaTextLength, DefaultTextLength)),
      CtaColorUniqueness := ColorUniquenessOf(GetOr(inputs, SimilarColorElements, DefaultSimilarColors)),
      VisualHierarchy := HierarchyOf(
        GetOr(inputs, CtaWidth, DefaultWidth) * GetOr(inputs, CtaHeight, DefaultHeight),
        GetOr(inputs, LargestOtherElementSize, DefaultLargestOther)),
      MobileFriendly := MobileFriendlyOf(
        GetOr(inputs, CtaMobileWidth, DefaultMobileWidth),
        GetOr(inputs, CtaMobileHeight, DefaultMobileHeight)),
      LoadingFeedback := LoadingFeedbackOf(GetOr(inputs, HasLoadingAnimation, DefaultAnimation))
    ]
  }

  /**
    convert_inputs: starts from an empty dictionary and sets one label after
    another; no raw input is copied into the result.
  */
  method ConvertInputs(inputs: RawFacts) returns (q: map<Key, Label>)
    ensures q == Qualitative(inputs)
    ensures forall k :: k in q <==> IsDerived(k)
  {
    q := map[];

    var words := GetOr(inputs, ContentWordCount, DefaultWordCount);
    if words < 200.0 {
      q := q[ContentLength := Short];
    } else if words < 400.0 {
      q := q[ContentLength := Medium];
    } else {
      q := q[ContentLength := Long];
    }
    assert q == map[ContentLength := ContentLengthOf(words)];

    var textLen := GetOr(inputs, CtaTextLength, DefaultTextLength);
    if textLen <= 15.0 && textLen > 5.0 {
      q := q[CtaTextClarity := Good];
    } else if textLen <= 25.0 {
      q := q[CtaTextClarity := Medium];
    } else {
      q := q[CtaTextClarity := Weak];
    }
    assert q == map[ContentLength := ContentLengthOf(words), CtaTextClarity := TextClarityOf(textLen)];

    var similar := GetOr(inputs, SimilarColorElements, DefaultSimilarColors);
    if similar == 0.0 {
      q := q[CtaColorUniqueness := Unique];
    } else if similar <= 2.0 {
      q := q[CtaColorUniqueness := Medium];
    } else {
      q := q[CtaColorUniqueness := Similar];
    }
    ghost var sofar := q;
    assert sofar == map[ContentLength := ContentLengthOf(words), CtaTextClarity := TextClarityOf(textLen),
                        CtaColorUniqueness := ColorUniquenessOf(similar)];

    var width := GetOr(inputs, CtaWidth, DefaultWidth);
    var height := GetOr(inputs, CtaHeight, DefaultHeight);
    var largestOther := GetOr(inputs, LargestOtherElementSize, DefaultLargestOther);
    var area := width * height;
    if area > largestOther * 1.5 {
      q := q[VisualHierarchy := Strong];
    } else if area > largestOther * 1.1 {
      q := q[VisualHierarchy := Medium];
    } else {
      q := q[VisualHierarchy := Weak];
    }
    assert q == sofar[VisualHierarchy := HierarchyOf(area, largestOther)];

    var mobileWidth := GetOr(inputs, CtaMobileWidth, DefaultMobileWidth);
    var mobileHeight := GetOr(inputs, CtaMobileHeight, DefaultMobileHeight);
    if mobileWidth >= 180.0 && mobileHeight >= 48.0 {
      q := q[MobileFriendly := Yes];
    } else {
      q := q[MobileFriendly := No];
    }
    assert q == sofar[VisualHierarchy := HierarchyOf(area, largestOther)]
                     [MobileFriendly := MobileFriendlyOf(mobileWidth, mobileHeight)];

    var animation := GetOr(inputs, HasLoadingAnimation, DefaultAnimation);
    if animation > 0.0 {
      q := q[LoadingFeedback := Yes];
    } else {
      q := q[LoadingFeedback := No];
    }
  }

  /**
    Each label depends only on the inputs its own ladder reads: two inputs
    that agree on those facts get the same label, whatever else differs.
    This lemma covers the labels about the text and colours of the page.
  */
  lemma ContentLabelsDependOnlyOnTheirInputs(a: RawFacts, b: RawFacts)
    ensures GetOr(a, ContentWordCount, DefaultWordCount) == GetOr(b, ContentWordCount, DefaultWordCount)
      ==> Qualitative(a)[ContentLength] == Qualitative(b)[ContentLength]
    ensures GetOr(a, CtaTextLength, DefaultTextLength) == GetOr(b, CtaTextLength, DefaultTextLength)
      ==> Qualitative(a)[CtaTextClarity] == Qualitative(b)[CtaTextClarity]
    ensures GetOr(a, SimilarColorElements, DefaultSimilarColors) == GetOr(b, SimilarColorElements, DefaultSimilarColors)
      ==> Qualitative(a)[CtaColorUniqueness] == Qualitative(b)[CtaColorUniqueness]
  {
  }

  /** The same for the three labels about the CTA's size and behaviour. */
  lemma LayoutLabelsDependOnlyOnTheirInputs(a: RawFacts, b: RawFacts)
    ensures GetOr(a, CtaWidth, DefaultWidth) == GetOr(b, CtaWidth, DefaultWidth)
         && GetOr(a, CtaHeight, DefaultHeight) == GetOr(b, CtaHeight, DefaultHeight)
         && GetOr(a, LargestOtherElementSize, DefaultLargestOther) == GetOr(b, LargestOtherElementSize, DefaultLargestOther)
      ==> Qualitative(a)[VisualHierarchy] == Qualitative(b)[VisualHierarchy]
    ensures GetOr(a, CtaMobileWidth, DefaultMobileWidth) == GetOr(b, CtaMobileWidth, DefaultMobileWidth)
         && GetOr(a, CtaMobileHeight, DefaultMobileHeight) == GetOr(b, CtaMobileHeight, DefaultMobileHeight)
      ==> Qualitative(a)[MobileFriendly] == Qualitative(b)[MobileFriendly]
    ensures GetOr(a, HasLoadingAnimation, DefaultAnimation) == GetOr(b, HasLoadingAnimation, DefaultAnimation)
      ==> Qualitative(a)[LoadingFeedback] == Qualitative(b)[LoadingFeedback]
  {
  }

  /**
    The converter applies its own defaults, so with no inputs at all it still
    produces all six labels; in particular the hierarchy falls back to a
    200x50 CTA against a 150 px element, which is strong.
  */
  lemma EmptyInputs()
    ensures Qualitative(map[]) == map[
      ContentLength := Medium, CtaTextClarity := Good, CtaColorUniqueness := Unique,
      VisualHierarchy := Strong, MobileFriendly := Yes, LoadingFeedback := Yes]
  {
  }
}
