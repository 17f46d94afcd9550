/**
  Facts: the values the expert system reasons about.

  The Python engine keys its fact dictionaries by strings. The model uses one
  constructor per key the engine ever reads; `Name` gives the original string.
  Raw inputs are numbers (the request model only admits ints and floats, and
  Python compares ints with floats exactly, so one exact `real` stands for
  both). The merged fact set also holds the derived qualitative labels.
*/
module Facts {
  import opened Wrappers

  datatype Key =
    // raw numeric inputs
    | CtaPositionY | CtaWidth | CtaHeight | ContrastRatio | WhitespaceAroundCta
    | ScrollDepth | CtaClickRate | NumberOfCtas | CtaTextLength | TimeToCta
    | ClickableElementsBeforeCta | ContentWordCount | SimilarColorElements
    | LargestOtherElementSize | CtaMobileWidth | CtaMobileHeight | HasLoadingAnimation
    // qualitative labels derived by the converter
    | ContentLength | CtaTextClarity | CtaColorUniqueness | VisualHierarchy
    | MobileFriendly | LoadingFeedback

  /** The dictionary key the Python code uses for `k`. */
  function Name(k: Key): string {
    match k
    case CtaPositionY => "cta_position_y"
    case CtaWidth => "cta_width"
    case CtaHeight => "cta_height"
    case ContrastRatio => "contrast_ratio"
    case WhitespaceAroundCta => "whitespace_around_cta"
    case ScrollDepth => "scroll_depth"
    case CtaClickRate => "cta_click_rate"
    case NumberOfCtas => "number_of_ctas"
    case CtaTextLength => "cta_text_length"
    case TimeToCta => "time_to_cta"
    case ClickableElementsBeforeCta => "clickable_elements_before_cta"
    case ContentWordCount => "content_word_count"
    case SimilarColorElements => "similar_color_elements"
    case LargestOtherElementSize => "largest_other_element_size"
    case CtaMobileWidth => "cta_mobile_width"
    case CtaMobileHeight => "cta_mobile_height"
    case HasLoadingAnimation => "has_loading_animation"
    case ContentLength => "content_length"
    case CtaTextClarity => "cta_text_clarity"
    case CtaColorUniqueness => "cta_color_uniqueness"
    case VisualHierarchy => "visual_hierarchy"
    case MobileFriendly => "mobile_friendly"
    case LoadingFeedback => "loading_feedback"
  }

  /** The six keys the converter produces. */
  predicate IsDerived(k: Key) {
    k in {ContentLength, CtaTextClarity, CtaColorUniqueness, VisualHierarchy, MobileFriendly, LoadingFeedback}
  }

  /**
    The qualitative labels. The source writes them as Persian words and reuses
    a word across ladders: Medium is the one word for "medium" in four
    ladders, Weak the one word for both "poor" text clarity and "weak"
    hierarchy, Yes/No serve both mobile friendliness and loading feedback.
  */
  datatype Label = Short | Medium | Long | Good | Weak | Unique | Similar | Strong | Yes | No

  datatype Fact = Num(x: real) | Lbl(l: Label)

  type RawFacts = map<Key, real>
  type FactMap = map<Key, Fact>

  /** Why an evaluation stopped: a KeyError on a raw input, or a ZeroDivisionError. */
  datatype Error = MissingKey(key: Key) | DivisionByZero

  /** `inputs.get(k, default)` */
  function GetOr(raw: RawFacts, k: Key, default: real): (v: real)
    ensures k in raw ==> v == raw[k]
    ensures k !in raw ==> v == default
  {
    if k in raw then raw[k] else default
  }

  /** `{**inputs, **derived}`: the derived labels win on a shared key. */
  function Merge(raw: RawFacts, derived: map<Key, Label>): (m: FactMap)
    ensures m.Keys == raw.Keys + derived.Keys
    ensures forall k :: k in derived ==> m[k] == Lbl(derived[k])
    ensures forall k :: k in raw && k !in derived ==> m[k] == Num(raw[k])
  {
    (map k | k in raw :: Num(raw[k])) + (map k | k in derived :: Lbl(derived[k]))
  }

  // Evaluating a comparison inside a rule condition. None stands for the
  // exception Python raises: KeyError on a missing key, TypeError when a
  // label is ordered against a number.

  function NumberAt(d: FactMap, k: Key): (v: Option<real>)
    ensures v.Some? <==> k in d && d[k].Num?
    ensures v.Some? ==> v.value == d[k].x
  {
    if k in d && d[k].Num? then Some(d[k].x) else None
  }

  /** `d[k] > c` */
  function Greater(d: FactMap, k: Key, c: real): Option<bool> {
    match NumberAt(d, k)
    case None => None
    case Some(x) => Some(x > c)
  }

  /** `d[k] < c` */
  function Less(d: FactMap, k: Key, c: real): Option<bool> {
    match NumberAt(d, k)
    case None => None
    case Some(x) => Some(x < c)
  }

  /** `d[k] >= c` */
  function AtLeast(d: FactMap, k: Key, c: real): Option<bool> {
    match NumberAt(d, k)
    case None => None
    case Some(x) => Some(x >= c)
  }

  /** `d[k] == label`: equality never raises, a number is simply unequal to a label. */
  function LabelIs(d: FactMap, k: Key, l: Label): Option<bool> {
    if k in d then Some(d[k] == Lbl(l)) else None
  }

  /** Python `a and b`: `b` is only evaluated (and can only fail) when `a` is true. */
  function And(a: Option<bool>, b: Option<bool>): (r: Option<bool>)
    ensures r == Some(true) <==> a == Some(true) && b == Some(true)
    ensures a.None? ==> r.None?
    ensures a == Some(false) ==> r == Some(false)
    ensures a == Some(true) ==> r == b
  {
    match a
    case None => None
    case Some(false) => Some(false)
    case Some(true) => b
  }

  /** Python `a or b`: `b` is only evaluated (and can only fail) when `a` is false. */
  function Or(a: Option<bool>, b: Option<bool>): (r: Option<bool>)
    ensures r == Some(true) <==> a == Some(true) || (a == Some(false) && b == Some(true))
    ensures a.None? ==> r.None?
    ensures a == Some(true) ==> r == Some(true)
    ensures a == Some(false) ==> r == b
  {
    match a
    case None => None
    case Some(true) => Some(true)
    case Some(false) => b
  }

  /** The defaults of the request model: what a request that sets no field sends. */
  function Defaults(): RawFacts {
    map[
      CtaPositionY := 500.0, CtaWidth := 200.0, CtaHeight := 50.0,
      ContrastRatio := 4.5, WhitespaceAroundCta := 40.0, ScrollDepth := 60.0,
      CtaClickRate := 3.5, NumberOfCtas := 1.0, CtaTextLength := 15.0,
      TimeToCta := 8.0, ClickableElementsBeforeCta := 3.0, ContentWordCount := 300.0,
      SimilarColorElements := 0.0, LargestOtherElementSize := 8000.0,
      CtaMobileWidth := 200.0, CtaMobileHeight := 48.0, HasLoadingAnimation := 1.0
    ]
  }

  /** The defaults give a value to every raw input and to no derived label. */
  lemma DefaultsComplete(k: Key)
    ensures k in Defaults() <==> !IsDerived(k)
  {
    match k
    case CtaPositionY =>
    case CtaWidth =>
    case CtaHeight =>
    case ContrastRatio =>
    case WhitespaceAroundCta =>
    case ScrollDepth =>
    case CtaClickRate =>
    case NumberOfCtas =>
    case CtaTextLength =>
    case TimeToCta =>
    case ClickableElementsBeforeCta =>
    case ContentWordCount =>
    case SimilarColorElements =>
    case LargestOtherElementSize =>
    case CtaMobileWidth =>
    case CtaMobileHeight =>
    case HasLoadingAnimation =>
    case _ =>
  }

  /** Every key has its own Python name. */
  lemma NamesDistinct(k1: Key, k2: Key)
    requires k1 != k2
    ensures Name(k1) != Name(k2)
  {
  }
}
