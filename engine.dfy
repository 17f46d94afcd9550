/**
  The inference engine: forward chaining over the knowledge base.

  `Evaluate` is the whole analysis as a function of the raw facts; the
  class `InferenceEngine` does it the way the Python engine does, step by
  step over its `activated` list, and is proved to agree with `Evaluate`.
*/
module Engine {
  import opened Wrappers
  import opened Facts
  import opened Converter
  import opened KnowledgeBase
  import opened Ranking
  import opened Certainty
  import Scoring

  /** What one forward-chaining pass returns. */
  datatype Analysis = Analysis(
    activated: seq<ActivatedRule>,
    visibility: int,
    clickability: int,
    certainty: real,
    recommendations: seq<string>,
    qualitative: map<Key, Label>)

  /** A rule fires when its condition evaluates to true; a condition that raises does not fire. */
  predicate Fires(r: Rule, facts: FactMap) {
    Condition(r.id, facts) == Some(true)
  }

  /** The rules of `rules` that fire, in the order of `rules`. */
  function ActivateAll(rules: seq<Rule>, facts: FactMap): seq<ActivatedRule> {
    if rules == [] then []
    else
      var last := rules[|rules| - 1];
      ActivateAll(rules[..|rules| - 1], facts)
        + (if Fires(last, facts) then [ActivatedRule(last, last.certainty)] else [])
  }

  /** The merged fact set the rules are evaluated against. */
  function FullFacts(inputs: RawFacts): FactMap {
    Merge(inputs, Qualitative(inputs))
  }

  /** The activated rules, ranked. */
  function Activated(inputs: RawFacts): seq<ActivatedRule> {
    SortByPriority(ActivateAll(Rules(), FullFacts(inputs)))
  }

  function Certainties(acts: seq<ActivatedRule>): (cs: seq<real>)
    ensures |cs| == |acts|
    ensures forall i :: 0 <= i < |acts| ==> cs[i] == acts[i].certainty
  {
    seq(|acts|, i requires 0 <= i < |acts| => acts[i].certainty)
  }

  /** The conclusions of the first five activated rules. */
  function TopConclusions(acts: seq<ActivatedRule>): (rs: seq<string>)
    ensures |rs| == if |acts| < 5 then |acts| else 5
    ensures forall i :: 0 <= i < |rs| ==> rs[i] == Conclusion(acts[i].rule.id)
  {
    var n := if |acts| < 5 then |acts| else 5;
    seq(n, i requires 0 <= i < n => Conclusion(acts[i].rule.id))
  }

  /**
    forward_chaining as a function: activation, ranking, the two scores, the
    reported certainty and the recommendations. It fails with the first
    KeyError of the score computations, or on a division by zero in the
    certainty combination.
  */
  function Evaluate(inputs: RawFacts): Result<Analysis, Error> {
    var acts := Activated(inputs);
    match Scoring.Visibility(inputs)
    case Failure(e) => Failure(e)
    case Success(vis) =>
      match Scoring.Clickability(inputs)
      case Failure(e) => Failure(e)
      case Success(click) =>
        match Reported(Certainties(acts))
        case None => Failure(DivisionByZero)
        case Some(cf) => Success(Analysis(acts, vis, click, cf, TopConclusions(acts), Qualitative(inputs)))
  }

  class InferenceEngine {
    const kb: seq<Rule>
    var activated: seq<ActivatedRule>

    constructor ()
      ensures kb == Rules() && activated == []
    {
      kb := Rules();
      activated := [];
    }

    /**
      The activation loop: every rule in declaration order; a condition that
      raises is skipped and the loop goes on.
    */
    method Activate(facts: FactMap)
      modifies this
      ensures activated == ActivateAll(kb, facts)
    {
      activated := [];
      var i := 0;
      while i < |kb|
        invariant 0 <= i <= |kb|
        invariant activated == ActivateAll(kb[..i], facts)
      {
        var rule := kb[i];
        assert kb[..i + 1][..i] == kb[..i];
        match Condition(rule.id, facts) {
          case Some(true) =>
            activated := activated + [ActivatedRule(rule, rule.certainty)];
          case Some(false) =>
          case None =>
            // the exception is swallowed: the rule is not activated
        }
        i := i + 1;
      }
      assert kb[..i] == kb;
    }

    /** activated_rules.sort(key=priority, reverse=True) */
    method SortActivated()
      modifies this
      ensures activated == SortByPriority(old(activated))
    {
      var pending := activated;
      var sorted := [];
      var i := 0;
      while i < |pending|
        invariant 0 <= i <= |pending|
        invariant sorted == SortByPriority(pending[..i])
      {
        assert pending[..i + 1][..i] == pending[..i];
        sorted := Insert(sorted, pending[i]);
        i := i + 1;
      }
      assert pending[..i] == pending;
      activated := sorted;
    }

    /**
      The left fold of the combination operator over the ranked list, rounded
      to two decimals; 0.5 when empty.
    */
    method CombinedCertainty() returns (cf: Option<real>)
      ensures cf == Reported(Certainties(activated))
    {
      var cs := Certainties(activated);
      if |activated| == 0 {
        return Some(0.5);
      }
      var running := activated[0].certainty;
      var i := 1;
      while i < |activated|
        invariant 1 <= i <= |activated|
        invariant FoldFrom(running, cs[i..]) == CombineAll(cs)
      {
        assert cs[i..][1..] == cs[i + 1..];
        match Combine(running, activated[i].certainty) {
          case None =>
            return None;
          case Some(next) =>
            running := next;
        }
        i := i + 1;
      }
      cf := Some(Round2(running));
    }

    /** The conclusions of the first five ranked rules. */
    method Recommendations() returns (rs: seq<string>)
      ensures |rs| == if |activated| < 5 then |activated| else 5
      ensures forall i :: 0 <= i < |rs| ==> rs[i] == Conclusion(activated[i].rule.id)
    {
      rs := [];
      var top := if |activated| < 5 then activated else activated[..5];
      var i := 0;
      while i < |top|
        invariant 0 <= i <= |top|
        invariant |rs| == i
        invariant forall j :: 0 <= j < i ==> rs[j] == Conclusion(top[j].rule.id)
      {
        rs := rs + [Conclusion(top[i].rule.id)];
        i := i + 1;
      }
    }

    /** _calculate_visibility_score, one adjustment group after another. */
    method VisibilityScore(inputs: RawFacts) returns (r: Result<int, Error>)
      ensures r == Scoring.Visibility(inputs)
    {
      var score := 100;

      if CtaPositionY !in inputs { return Failure(MissingKey(CtaPositionY)); }
      var y := inputs[CtaPositionY];
      if y > 800.0 {
        score := score - 30;
      } else if y > 600.0 {
        score := score - 15;
      } else if y <= 400.0 {
        score := score + 5;
      }
      assert score == 100 + Scoring.PositionAdjustment(y);

      if ContrastRatio !in inputs { return Failure(MissingKey(ContrastRatio)); }
      var contrast := inputs[ContrastRatio];
      if contrast < 3.0 {
        score := score - 25;
      } else if contrast < 4.5 {
        score := score - 10;
      } else if contrast >= 7.0 {
        score := score + 5;
      }
      assert score == 100 + Scoring.PositionAdjustment(y) + Scoring.ContrastAdjustment(contrast);

      if WhitespaceAroundCta !in inputs { return Failure(MissingKey(WhitespaceAroundCta)); }
      var whitespace := inputs[WhitespaceAroundCta];
      if whitespace < 30.0 {
        score := score - 20;
      } else if whitespace < 40.0 {
        score := score - 10;
      }
      ghost var partial := 100 + Scoring.PositionAdjustment(y) + Scoring.ContrastAdjustment(contrast)
        + Scoring.WhitespaceAdjustment(whitespace);
      assert score == partial;

      if NumberOfCtas !in inputs { return Failure(MissingKey(NumberOfCtas)); }
      var ctas := inputs[NumberOfCtas];
      if ctas > 2.0 {
        score := score - 15;
      } else if ctas > 1.0 {
        score := score - 8;
      }
      assert score == partial + Scoring.CtaCountAdjustment(ctas);

      var similar := GetOr(inputs, SimilarColorElements, 0.0);
      if similar > 2.0 {
        score := score - 10;
      } else if similar > 0.0 {
        score := score - 5;
      }

      r := Success(if score < 0 then 0 else if score > 100 then 100 else score);
    }

    /** _calculate_clickability_score, one adjustment group after another. */
    method ClickabilityScore(inputs: RawFacts) returns (r: Result<int, Error>)
      ensures r == Scoring.Clickability(inputs)
    {
      var score := 100;

      if CtaWidth !in inputs { return Failure(MissingKey(CtaWidth)); }
      var width := inputs[CtaWidth];
      if width < 180.0 {
        score := score - 30;
      } else {
        if CtaHeight !in inputs { return Failure(MissingKey(CtaHeight)); }
        var height := inputs[CtaHeight];
        if height < 44.0 {
          score := score - 30;
        } else if width < 200.0 || height < 50.0 {
          score := score - 15;
        } else if width >= 250.0 && height >= 60.0 {
          score := score + 5;
        }
      }
      assert score == 100 + Scoring.SizeAdjustment(width, GetOr(inputs, CtaHeight, 0.0));

      if CtaTextLength !in inputs { return Failure(MissingKey(CtaTextLength)); }
      var textLen := inputs[CtaTextLength];
      if textLen > 30.0 {
        score := score - 25;
      } else if textLen > 25.0 {
        score := score - 15;
      } else if textLen > 20.0 {
        score := score - 8;
      } else if textLen <= 15.0 && textLen > 5.0 {
        score := score + 5;
      }
      ghost var partial := 100 + Scoring.SizeAdjustment(width, GetOr(inputs, CtaHeight, 0.0))
        + Scoring.TextLengthAdjustment(textLen);
      assert score == partial;

      if ClickableElementsBeforeCta !in inputs { return Failure(MissingKey(ClickableElementsBeforeCta)); }
      var elements := inputs[ClickableElementsBeforeCta];
      if elements > 7.0 {
        score := score - 20;
      } else if elements > 5.0 {
        score := score - 10;
      }
      assert score == partial + Scoring.ClickableElementsAdjustment(elements);

      var mobileWidth := GetOr(inputs, CtaMobileWidth, 200.0);
      var mobileHeight := GetOr(inputs, CtaMobileHeight, 48.0);
      if mobileWidth < 180.0 || mobileHeight < 48.0 {
        score := score - 15;
      } else if mobileWidth < 200.0 {
        score := score - 8;
      }
      assert score == partial + Scoring.ClickableElementsAdjustment(elements)
        + Scoring.MobileAdjustment(mobileWidth, mobileHeight);

      if GetOr(inputs, HasLoadingAnimation, 1.0) == 0.0 {
        score := score - 10;
      }

      r := Success(if score < 0 then 0 else if score > 100 then 100 else score);
    }

    /**
      forward_chaining. The activated list is rebuilt and ranked before the
      scores are computed, so it is up to date even when a score raises.
    */
    method ForwardChaining(inputs: RawFacts) returns (r: Result<Analysis, Error>)
      requires kb == Rules()
      modifies this
      ensures activated == Activated(inputs)
      ensures r == Evaluate(inputs)
    {
      var qualitative := ConvertInputs(inputs);
      var facts := Merge(inputs, qualitative);
      Activate(facts);
      SortActivated();

      var vis := VisibilityScore(inputs);
      if vis.Failure? { return Failure(vis.error); }
      var click := ClickabilityScore(inputs);
      if click.Failure? { return Failure(click.error); }
      var cf := CombinedCertainty();
      if cf.None? { return Failure(DivisionByZero); }
      var recs := Recommendations();
      assert recs == TopConclusions(activated);
      r := Success(Analysis(activated, vis.value, click.value, cf.value, recs, qualitative));
    }
  }
}
