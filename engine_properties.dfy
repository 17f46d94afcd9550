/**
  What one forward-chaining pass guarantees: the activated list holds exactly
  the rules whose condition holds, ranked by priority and stable among equal
  priorities; the certainty combination never divides by zero over this rule
  table; the analysis fails only on a missing score input.
*/
module EngineProperties {
  import opened Wrappers
  import opened Facts
  import opened Converter
  import opened KnowledgeBase
  import opened Ranking
  import opened Certainty
  import opened Engine
  import Scoring

  /** Every activated entry is a rule of the table that fires, carrying that rule's certainty. */
  lemma {:induction false} ActivateAllSound(rules: seq<Rule>, facts: FactMap)
    ensures forall a :: a in ActivateAll(rules, facts) ==>
      a.rule in rules && Fires(a.rule, facts) && a.certainty == a.rule.certainty
  {
    if rules != [] {
      ActivateAllSound(rules[..|rules| - 1], facts);
    }
  }

  /** Every rule of the table that fires is activated. */
  lemma {:induction false} ActivateAllComplete(rules: seq<Rule>, facts: FactMap)
    ensures forall r :: r in rules && Fires(r, facts) ==>
      ActivatedRule(r, r.certainty) in ActivateAll(rules, facts)
  {
    if rules != [] {
      var init := rules[..|rules| - 1];
      ActivateAllComplete(init, facts);
      assert rules == init + [rules[|rules| - 1]];
    }
  }

  /** Activation keeps the order of the rule table and drops exactly the rules that do not fire. */
  lemma {:induction false} ActivateAllAppend(a: seq<Rule>, b: seq<Rule>, facts: FactMap)
    ensures ActivateAll(a + b, facts) == ActivateAll(a, facts) + ActivateAll(b, facts)
  {
    if b == [] {
      assert a + b == a;
    } else {
      var init := b[..|b| - 1];
      assert (a + b)[..|a + b| - 1] == a + init;
      ActivateAllAppend(a, init, facts);
    }
  }

  /** When nothing fires, nothing is activated. */
  lemma {:induction false} ActivateAllNoneFire(rules: seq<Rule>, facts: FactMap)
    requires forall i :: 0 <= i < |rules| ==> !Fires(rules[i], facts)
    ensures ActivateAll(rules, facts) == []
  {
    if rules != [] {
      ActivateAllNoneFire(rules[..|rules| - 1], facts);
    }
  }

  /**
    Every activated entry carries its rule's certainty, so the ranked
    certainties stay in (0, 1] with two decimals when the table's do.
  */
  lemma RankedCertainties(rules: seq<Rule>, facts: FactMap)
    requires forall r :: r in rules ==> 0.0 < r.certainty <= 1.0 && TwoDecimals(r.certainty)
    ensures var cs := Certainties(SortByPriority(ActivateAll(rules, facts)));
      InUnit(cs) && forall i :: 0 <= i < |cs| ==> TwoDecimals(cs[i])
  {
    var acts := ActivateAll(rules, facts);
    ActivateAllSound(rules, facts);
    var ranked := SortByPriority(acts);
    forall i | 0 <= i < |ranked| ensures 0.0 < ranked[i].certainty <= 1.0 && TwoDecimals(ranked[i].certainty) {
      assert ranked[i] in multiset(acts);
    }
  }

  /** The certainty of every activated entry lies in (0, 1]. */
  lemma ActivatedCertaintiesInUnit(inputs: RawFacts)
    ensures InUnit(Certainties(Activated(inputs)))
    ensures forall i :: 0 <= i < |Activated(inputs)| ==> TwoDecimals(Certainties(Activated(inputs))[i])
  {
    RuleCertaintiesTwoDecimals();
    RankedCertainties(Rules(), FullFacts(inputs));
  }

  /** The certainties of a permutation are a permutation of the certainties. */
  lemma {:induction false} CertaintiesPermutation(xs: seq<ActivatedRule>, ys: seq<ActivatedRule>)
    requires multiset(xs) == multiset(ys)
    ensures multiset(Certainties(xs)) == multiset(Certainties(ys))
    decreases |xs|
  {
    if xs == [] {
      assert |ys| == |multiset(ys)| == 0;
    } else {
      var i := MatchFirst(xs, ys);
      var rest := ys[..i] + ys[i + 1..];
      CertaintiesPermutation(xs[1..], rest);
      var cx, cy := Certainties(xs), Certainties(ys);
      assert cx == [cx[0]] + Certainties(xs[1..]);
      assert Certainties(rest) == cy[..i] + cy[i + 1..];
      MultisetRemove(cy, i);
      assert cy[i] in multiset(cy);
    }
  }

  /**
    Ranking does not change the combined certainty: the ranked and the
    unranked activations combine to the same value.
  */
  lemma RankingKeepsCombinedCertainty(rules: seq<Rule>, facts: FactMap)
    requires forall r :: r in rules ==> 0.0 < r.certainty <= 1.0
    ensures var acts := ActivateAll(rules, facts);
      CombineAll(Certainties(SortByPriority(acts))) == CombineAll(Certainties(acts))
  {
    var acts := ActivateAll(rules, facts);
    var ranked := SortByPriority(acts);
    if acts != [] {
      ActivateAllSound(rules, facts);
      var cs := Certainties(acts);
      forall i | 0 <= i < |cs| ensures 0.0 < cs[i] <= 1.0 {
        assert acts[i] in acts;
      }
      CertaintiesPermutation(acts, ranked);
      CombineAllPermutation(cs, Certainties(ranked));
    } else {
      assert |ranked| == |multiset(ranked)| == 0;
    }
  }

  /** The reported certainty of a request is that of its activations in table order. */
  lemma ReportedIgnoresRanking(inputs: RawFacts)
    ensures Reported(Certainties(Activated(inputs))) ==
      Reported(Certainties(ActivateAll(Rules(), FullFacts(inputs))))
  {
    var acts := ActivateAll(Rules(), FullFacts(inputs));
    RankingKeepsCombinedCertainty(Rules(), FullFacts(inputs));
    assert |Activated(inputs)| == |multiset(Activated(inputs))| == |multiset(acts)| == |acts|;
  }

  /**
    The ranked list: exactly the firing rules, each once per table entry,
    sorted by descending priority, and in table order among rules of equal
    priority.
  */
  lemma ActivatedIsRankedActivation(inputs: RawFacts)
    ensures var facts := FullFacts(inputs);
      var ranked := Activated(inputs);
      Sorted(ranked) &&
      multiset(ranked) == multiset(ActivateAll(Rules(), facts)) &&
      (forall p :: WithPriority(ranked, p) == WithPriority(ActivateAll(Rules(), facts), p)) &&
      (forall a :: a in ranked <==>
        a.rule in Rules() && Fires(a.rule, facts) && a.certainty == a.rule.certainty)
  {
    var facts := FullFacts(inputs);
    var acts := ActivateAll(Rules(), facts);
    var ranked := Activated(inputs);
    SortIsSorted(acts);
    forall p ensures WithPriority(ranked, p) == WithPriority(acts, p) {
      SortIsStable(acts, p);
    }
    ActivateAllSound(Rules(), facts);
    ActivateAllComplete(Rules(), facts);
    forall a ensures a in ranked <==> a in acts {
      assert a in ranked <==> a in multiset(ranked);
      assert a in acts <==> a in multiset(acts);
    }
  }

  /**
    With every raw input present, no rule condition raises: each one is
    decided, so no rule is skipped for a missing or ill-typed fact.
  */
  lemma CompleteInputsDecideEveryRule(inputs: RawFacts, id: RuleId)
    requires forall k :: !IsDerived(k) ==> k in inputs
    ensures Condition(id, FullFacts(inputs)).Some?
  {
    var q := Qualitative(inputs);
    var d := FullFacts(inputs);
    forall k | k in Reads(id) ensures k in d && (IsDerived(k) || d[k].Num?) {
      if !IsDerived(k) {
        assert k !in q;
      }
    }
    ConditionFailsOnlyOnItsFacts(id, d);
  }

  /**
    The analysis succeeds exactly when both scores can be computed: the
    certainty combination never divides by zero, because every certainty of
    the table is positive. A failure names a missing input.
  */
  lemma EvaluateFailsOnlyOnMissingInput(inputs: RawFacts)
    ensures Evaluate(inputs).Success? <==>
      Scoring.Visibility(inputs).Success? && Scoring.Clickability(inputs).Success?
    ensures Evaluate(inputs).Failure? ==>
      Evaluate(inputs).error.MissingKey? && Evaluate(inputs).error.key !in inputs
  {
    var cs := Certainties(Activated(inputs));
    ActivatedCertaintiesInUnit(inputs);
    if cs != [] {
      CombineAllPositive(cs);
    }
  }

  /** Inputs holding every raw fact (as the request model's defaults guarantee) always give an analysis. */
  lemma CompleteInputsSucceed(inputs: RawFacts)
    requires forall k :: !IsDerived(k) ==> k in inputs
    ensures Evaluate(inputs).Success?
  {
    EvaluateFailsOnlyOnMissingInput(inputs);
  }

  /**
    The parts of a successful analysis: the ranked activation, both scores
    in [0, 100], at most five recommendations, the conclusions of the
    highest-ranked rules in rank order, and the derived labels.
  */
  lemma AnalysisShape(inputs: RawFacts)
    requires Evaluate(inputs).Success?
    ensures var a := Evaluate(inputs).value;
      a.activated == Activated(inputs) &&
      0 <= a.visibility <= 100 && 0 <= a.clickability <= 100 &&
      |a.recommendations| == (if |a.activated| < 5 then |a.activated| else 5) &&
      (forall i :: 0 <= i < |a.recommendations| ==>
        a.recommendations[i] == Conclusion(a.activated[i].rule.id)) &&
      a.qualitative == Qualitative(inputs)
  {
    EvaluateUnfolds(inputs);
  }

  /**
    The reported certainty of every request: it always exists (no division
    by zero); it is 0.5 when nothing fired, and otherwise 1 - Residual
    rounded to two decimals (the product of the 1 - c_i being what the
    combination leaves unexplained), in (0, 1] and no smaller than any
    single activated certainty.
  */
  lemma ReportedCertainty(inputs: RawFacts)
    ensures var cs := Certainties(Activated(inputs));
      var r := Reported(cs);
      r.Some? &&
      (cs == [] ==> r.value == 0.5) &&
      (cs != [] ==>
        r.value == Round2(1.0 - Residual(cs)) &&
        0.0 < r.value <= 1.0 &&
        (forall i :: 0 <= i < |cs| ==> cs[i] <= r.value))
  {
    ActivatedCertaintiesInUnit(inputs);
    ReportedShape(Certainties(Activated(inputs)));
  }

  /** A successful analysis is assembled from its parts. */
  lemma EvaluateUnfolds(inputs: RawFacts)
    requires Evaluate(inputs).Success?
    ensures var acts := Activated(inputs);
      var vis, click := Scoring.Visibility(inputs), Scoring.Clickability(inputs);
      var cf := Reported(Certainties(acts));
      vis.Success? && click.Success? && cf.Some? &&
      Evaluate(inputs).value ==
        Analysis(acts, vis.value, click.value, cf.value, TopConclusions(acts), Qualitative(inputs))
  {
  }

}
