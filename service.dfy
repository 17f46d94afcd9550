/**
  The service layer: the quality tiers of a score, the level of a combined
  certainty, the overall status of the average score, and the summary the
  service attaches to every analysis.
*/
module Service {
  import opened Wrappers
  import Facts
  import KnowledgeBase
  import Engine
  import Scoring
  import EngineProperties

  /** The four quality tiers (excellent, good, medium, weak). */
  datatype Tier = Excellent | Good | Medium | Weak

  /** The four certainty levels (very high, high, moderate, low). */
  datatype Level = VeryHigh | High | Moderate | Low

  /** How good a tier is: 3 for excellent down to 0 for weak. */
  function TierRank(t: Tier): nat {
    match t
    case Excellent => 3
    case Good => 2
    case Medium => 1
    case Weak => 0
  }

  /** How high a level is: 3 for very high down to 0 for low. */
  function LevelRank(l: Level): nat {
    match l
    case VeryHigh => 3
    case High => 2
    case Moderate => 1
    case Low => 0
  }

  /** The quality label of an integer score: at least 85, 70 and 50 are the thresholds. */
  function QualityTier(score: int): (t: Tier)
    ensures t == Excellent <==> score >= 85
    ensures t == Good <==> 70 <= score < 85
    ensures t == Medium <==> 50 <= score < 70
    ensures t == Weak <==> score < 50
  {
    if score >= 85 then Excellent
    else if score >= 70 then Good
    else if score >= 50 then Medium
    else Weak
  }

  /** The certainty label: at least 0.9, 0.8 and 0.6 are the thresholds. */
  function CertaintyLevel(cf: real): (l: Level)
    ensures l == VeryHigh <==> cf >= 0.9
    ensures l == High <==> 0.8 <= cf < 0.9
    ensures l == Moderate <==> 0.6 <= cf < 0.8
    ensures l == Low <==> cf < 0.6
  {
    if cf >= 0.9 then VeryHigh
    else if cf >= 0.8 then High
    else if cf >= 0.6 then Moderate
    else Low
  }

  /** The overall status: the same thresholds, applied to the (real) average of the two scores. */
  function OverallStatus(average: real): (t: Tier)
    ensures t == Excellent <==> average >= 85.0
    ensures t == Good <==> 70.0 <= average < 85.0
    ensures t == Medium <==> 50.0 <= average < 70.0
    ensures t == Weak <==> average < 50.0
  {
    if average >= 85.0 then Excellent
    else if average >= 70.0 then Good
    else if average >= 50.0 then Medium
    else Weak
  }

  /** A better score never gets a worse tier. */
  lemma QualityTierMonotone(s1: int, s2: int)
    requires s1 <= s2
    ensures TierRank(QualityTier(s1)) <= TierRank(QualityTier(s2))
  {
  }

  /** A higher certainty never gets a lower level. */
  lemma CertaintyLevelMonotone(c1: real, c2: real)
    requires c1 <= c2
    ensures LevelRank(CertaintyLevel(c1)) <= LevelRank(CertaintyLevel(c2))
  {
  }

  /**
    Comparing the fractional average with integer thresholds gives the
    quality tier of the floor of the average: a half point never lifts the
    overall status into the next tier.
  */
  lemma OverallStatusIsTierOfFlooredAverage(vis: int, click: int)
    ensures OverallStatus((vis + click) as real / 2.0) == QualityTier((vis + click) / 2)
  {
    var sum := vis + click;
    var half := sum / 2;
    assert sum == 2 * half + sum % 2;
    var avg := sum as real / 2.0;
    assert avg == half as real + (sum % 2) as real / 2.0;
    assert half as real <= avg < half as real + 1.0;
  }

  /** What is reported about the scores and the certainty of one analysis. */
  datatype Summary = Summary(
    visibilityStatus: Tier,
    clickabilityStatus: Tier,
    certaintyLevel: Level,
    overallStatus: Tier,
    averageScore: real)

  /** _create_summary: the tiers of both scores, the certainty level and the overall status. */
  function CreateSummary(a: Engine.Analysis): (s: Summary)
    ensures s.averageScore == (a.visibility + a.clickability) as real / 2.0
    ensures s.visibilityStatus == QualityTier(a.visibility)
    ensures s.clickabilityStatus == QualityTier(a.clickability)
    ensures s.certaintyLevel == CertaintyLevel(a.certainty)
    ensures s.overallStatus == QualityTier((a.visibility + a.clickability) / 2)
  {
    var average := (a.visibility + a.clickability) as real / 2.0;
    OverallStatusIsTierOfFlooredAverage(a.visibility, a.clickability);
    Summary(QualityTier(a.visibility), QualityTier(a.clickability), CertaintyLevel(a.certainty),
            OverallStatus(average), average)
  }

  /** The two tiers bracket the overall status: it is never better than both nor worse than both. */
  lemma OverallStatusBetweenTiers(a: Engine.Analysis)
    ensures var s := CreateSummary(a);
      var lo := if TierRank(s.visibilityStatus) <= TierRank(s.clickabilityStatus)
                then TierRank(s.visibilityStatus) else TierRank(s.clickabilityStatus);
      var hi := if TierRank(s.visibilityStatus) <= TierRank(s.clickabilityStatus)
                then TierRank(s.clickabilityStatus) else TierRank(s.visibilityStatus);
      lo <= TierRank(s.overallStatus) <= hi
  {
    var v, c := a.visibility, a.clickability;
    var m := (v + c) / 2;
    if v <= c {
      assert v <= m <= c;
      QualityTierMonotone(v, m);
      QualityTierMonotone(m, c);
    } else {
      assert c <= m <= v;
      QualityTierMonotone(c, m);
      QualityTierMonotone(m, v);
    }
  }

  /**
    The raw inputs generate_explanation subscripts, in the order it reads
    them; the content word count it reads with a default.
  */
  const ExplanationReads: seq<Facts.Key> := [
    Facts.CtaPositionY, Facts.CtaWidth, Facts.CtaHeight, Facts.ContrastRatio,
    Facts.WhitespaceAroundCta, Facts.ScrollDepth, Facts.CtaClickRate,
    Facts.NumberOfCtas, Facts.CtaTextLength]

  /** The first of `keys` missing from `inputs`: where a run of subscripts raises KeyError. */
  function FirstMissing(keys: seq<Facts.Key>, inputs: Facts.RawFacts): (r: Option<Facts.Key>)
    ensures r.None? <==> forall i :: 0 <= i < |keys| ==> keys[i] in inputs
    ensures r.Some? ==>
      r.value !in inputs &&
      exists i :: 0 <= i < |keys| && keys[i] == r.value &&
        forall j :: 0 <= j < i ==> keys[j] in inputs
  {
    if keys == [] then None
    else if keys[0] !in inputs then Some(keys[0])
    else
      var r := FirstMissing(keys[1..], inputs);
      assert r.Some? ==> (exists i :: 1 <= i < |keys| && keys[i] == r.value &&
                            forall j :: 0 <= j < i ==> keys[j] in inputs) by {
        if r.Some? {
          var i :| 0 <= i < |keys[1..]| && keys[1..][i] == r.value &&
            forall j :: 0 <= j < i ==> keys[1..][j] in inputs;
          assert keys[i + 1] == r.value;
          forall j | 0 <= j < i + 1 ensures keys[j] in inputs {
            if j > 0 { assert keys[j] == keys[1..][j - 1]; }
          }
        }
      }
      r
  }

  /**
    The failure of generate_explanation: formatting the text never fails,
    but subscripting a missing raw input raises KeyError.
  */
  function ExplanationError(inputs: Facts.RawFacts): (e: Option<Facts.Error>)
    ensures e.None? <==> forall k :: k in ExplanationReads ==> k in inputs
    ensures e.Some? ==> e.value.MissingKey? && e.value.key in ExplanationReads && e.value.key !in inputs
  {
    match FirstMissing(ExplanationReads, inputs)
    case None => None
    case Some(k) => Some(Facts.MissingKey(k))
  }

  /** What analyze returns, less the formatted explanation text. */
  datatype Response = Response(analysis: Engine.Analysis, summary: Summary)

  /**
    What analyze makes of the outcome of forward chaining: the engine's
    error, else the explanation's KeyError, else the analysis with its
    summary.
  */
  function Respond(ev: Result<Engine.Analysis, Facts.Error>, inputs: Facts.RawFacts): (r: Result<Response, Facts.Error>)
    ensures r.Success? <==> ev.Success? && forall k :: k in ExplanationReads ==> k in inputs
    ensures ev.Failure? ==> r == Failure(ev.error)
    ensures ev.Success? && r.Failure? ==> r.error.MissingKey? && r.error.key in ExplanationReads && r.error.key !in inputs
    ensures r.Success? ==> r.value == Response(ev.value, CreateSummary(ev.value))
  {
    match ev
    case Failure(e) => Failure(e)
    case Success(a) =>
      match ExplanationError(inputs)
      case Some(e) => Failure(e)
      case None => Success(Response(a, CreateSummary(a)))
  }

  /** analyze as a function of the raw facts. */
  function AnalyzeSpec(inputs: Facts.RawFacts): Result<Response, Facts.Error> {
    Respond(Engine.Evaluate(inputs), inputs)
  }

  /**
    analyze succeeds exactly when both scores can be computed and the
    explanation finds every input it subscripts; a failure always names a
    missing input.
  */
  lemma AnalyzeFailsOnlyOnMissingInput(inputs: Facts.RawFacts)
    ensures AnalyzeSpec(inputs).Success? <==>
      Scoring.Visibility(inputs).Success? && Scoring.Clickability(inputs).Success? &&
      forall k :: k in ExplanationReads ==> k in inputs
    ensures AnalyzeSpec(inputs).Failure? ==>
      AnalyzeSpec(inputs).error.MissingKey? && AnalyzeSpec(inputs).error.key !in inputs
  {
    EngineProperties.EvaluateFailsOnlyOnMissingInput(inputs);
    var ev := Engine.Evaluate(inputs);
    assert AnalyzeSpec(inputs) == Respond(ev, inputs);
  }

  /** The explanation subscripts raw inputs only. */
  lemma ExplanationReadsAreRaw()
    ensures forall k :: k in ExplanationReads ==> !Facts.IsDerived(k)
  {
  }

  /** A request holding every raw fact, as the request model sends, is always analysed. */
  lemma CompleteInputsAnalyze(inputs: Facts.RawFacts)
    requires forall k :: !Facts.IsDerived(k) ==> k in inputs
    ensures AnalyzeSpec(inputs).Success?
  {
    ExplanationReadsAreRaw();
    assert Facts.ClickableElementsBeforeCta in inputs;
    AnalyzeFailsOnlyOnMissingInput(inputs);
  }

  /** Without a height, but with the position and the width, the explanation raises KeyError('cta_height'). */
  lemma ExplanationErrorWithoutHeight(inputs: Facts.RawFacts)
    requires Facts.CtaPositionY in inputs && Facts.CtaWidth in inputs
    requires Facts.CtaHeight !in inputs
    ensures ExplanationError(inputs) == Some(Facts.MissingKey(Facts.CtaHeight))
  {
    var r := ExplanationReads;
    assert FirstMissing(r[2..], inputs) == Some(Facts.CtaHeight);
    assert r[1..][1..] == r[2..];
  }

  /**
    A CTA narrower than 180 needs no height for its scores, but the
    explanation still reads it: such a request fails with
    KeyError('cta_height') after the engine has analysed it.
  */
  lemma ExplanationNeedsHeight(inputs: Facts.RawFacts)
    requires forall k :: !Facts.IsDerived(k) && k != Facts.CtaHeight ==> k in inputs
    requires Facts.CtaHeight !in inputs
    requires Facts.CtaWidth in inputs && inputs[Facts.CtaWidth] < 180.0
    ensures Engine.Evaluate(inputs).Success?
    ensures AnalyzeSpec(inputs) == Failure(Facts.MissingKey(Facts.CtaHeight))
  {
    assert Facts.CtaPositionY in inputs && Facts.ContrastRatio in inputs;
    assert Facts.WhitespaceAroundCta in inputs && Facts.NumberOfCtas in inputs;
    assert Facts.ClickableElementsBeforeCta in inputs && Facts.CtaTextLength in inputs;
    assert Scoring.Visibility(inputs).Success? && Scoring.Clickability(inputs).Success?;
    EngineProperties.EvaluateFailsOnlyOnMissingInput(inputs);
    ExplanationErrorWithoutHeight(inputs);
    var ev := Engine.Evaluate(inputs);
    assert AnalyzeSpec(inputs) == Respond(ev, inputs);
  }

  /** Without a scroll depth, but with the inputs read before it, the explanation raises KeyError('scroll_depth'). */
  lemma ExplanationErrorWithoutScrollDepth(inputs: Facts.RawFacts)
    requires forall i :: 0 <= i < 5 ==> ExplanationReads[i] in inputs
    requires Facts.ScrollDepth !in inputs
    ensures ExplanationError(inputs) == Some(Facts.MissingKey(Facts.ScrollDepth))
  {
    var r := ExplanationReads;
    assert r[5..] == [Facts.ScrollDepth] + r[6..];
    assert FirstMissing(r[5..], inputs) == Some(Facts.ScrollDepth);
    assert r[4..][1..] == r[5..];
    assert r[3..][1..] == r[4..];
    assert r[2..][1..] == r[3..];
    assert r[1..][1..] == r[2..];
  }

  /**
    The scores never read the scroll depth, but the explanation does: a
    request missing only the scroll depth gets an analysis from the engine
    and then fails with KeyError('scroll_depth').
  */
  lemma ExplanationNeedsScrollDepth(inputs: Facts.RawFacts)
    requires forall k :: !Facts.IsDerived(k) && k != Facts.ScrollDepth ==> k in inputs
    requires Facts.ScrollDepth !in inputs
    ensures Engine.Evaluate(inputs).Success?
    ensures AnalyzeSpec(inputs) == Failure(Facts.MissingKey(Facts.ScrollDepth))
  {
    var r := ExplanationReads;
    forall i | 0 <= i < 5 ensures r[i] in inputs {
      assert !Facts.IsDerived(r[i]);
    }
    assert Facts.NumberOfCtas in inputs && Facts.ClickableElementsBeforeCta in inputs && Facts.CtaTextLength in inputs;
    assert Scoring.Visibility(inputs).Success? && Scoring.Clickability(inputs).Success?;
    EngineProperties.EvaluateFailsOnlyOnMissingInput(inputs);
    ExplanationErrorWithoutScrollDepth(inputs);
    var ev := Engine.Evaluate(inputs);
    assert AnalyzeSpec(inputs) == Respond(ev, inputs);
  }

  /**
    The service owns one inference engine, built once over the knowledge
    base and reused by every request.
  */
  class ExpertSystemService {
    const engine: Engine.InferenceEngine

    constructor ()
      ensures fresh(engine)
      ensures engine.kb == KnowledgeBase.Rules() && engine.activated == []
    {
      engine := new Engine.InferenceEngine();
    }

    /** analyze: forward chaining on the shared engine, the explanation's reads, then the summary. */
    method Analyze(inputs: Facts.RawFacts) returns (r: Result<Response, Facts.Error>)
      requires engine.kb == KnowledgeBase.Rules()
      modifies engine
      ensures r == AnalyzeSpec(inputs)
      ensures engine.activated == Engine.Activated(inputs)
    {
      var results := engine.ForwardChaining(inputs);
      if results.Failure? {
        return Failure(results.error);
      }
      var missing := ExplanationError(inputs);
      if missing.Some? {
        return Failure(missing.value);
      }
      r := Success(Response(results.value, CreateSummary(results.value)));
    }
  }

  /**
    Analysing the same request twice gives the same response: the engine's
    state from an earlier request never leaks into a later one.
  */
  method AnalyzeTwice(service: ExpertSystemService, inputs: Facts.RawFacts)
    returns (first: Result<Response, Facts.Error>, second: Result<Response, Facts.Error>)
    requires service.engine.kb == KnowledgeBase.Rules()
    modifies service.engine
    ensures first == second
  {
    first := service.Analyze(inputs);
    second := service.Analyze(inputs);
  }
}
