/**
  Three worked requests: the defaults, a low and poorly contrasted CTA, and an
  undersized CTA. Each states the whole analysis forward chaining returns.
*/
module Scenarios {
  import opened Wrappers
  import opened Facts
  import opened Converter
  import opened KnowledgeBase
  import opened Ranking
  import opened Certainty
  import opened Engine
  import EngineProperties
  import Scoring

  predicate Is(d: FactMap, k: Key, f: Fact) {
    k in d && d[k] == f
  }

  /** The facts some rule reads: the raw numbers as given, the derived ones as labelled. */
  predicate ReadFacts(d: FactMap, raw: RawFacts, labels: map<Key, Label>) {
    RawRead(d, raw) && LabelsRead(d, labels)
  }

  predicate RawRead(d: FactMap, raw: RawFacts) {
    CtaPositionY in raw && Is(d, CtaPositionY, Num(raw[CtaPositionY])) &&
    ScrollDepth in raw && Is(d, ScrollDepth, Num(raw[ScrollDepth])) &&
    ContrastRatio in raw && Is(d, ContrastRatio, Num(raw[ContrastRatio])) &&
    WhitespaceAroundCta in raw && Is(d, WhitespaceAroundCta, Num(raw[WhitespaceAroundCta])) &&
    NumberOfCtas in raw && Is(d, NumberOfCtas, Num(raw[NumberOfCtas])) &&
    CtaWidth in raw && Is(d, CtaWidth, Num(raw[CtaWidth])) &&
    CtaHeight in raw && Is(d, CtaHeight, Num(raw[CtaHeight])) &&
    CtaTextLength in raw && Is(d, CtaTextLength, Num(raw[CtaTextLength])) &&
    ClickableElementsBeforeCta in raw && Is(d, ClickableElementsBeforeCta, Num(raw[ClickableElementsBeforeCta])) &&
    TimeToCta in raw && Is(d, TimeToCta, Num(raw[TimeToCta])) &&
    CtaClickRate in raw && Is(d, CtaClickRate, Num(raw[CtaClickRate]))
  }

  predicate LabelsRead(d: FactMap, labels: map<Key, Label>) {
    ContentLength in labels && Is(d, ContentLength, Lbl(labels[ContentLength])) &&
    CtaTextClarity in labels && Is(d, CtaTextClarity, Lbl(labels[CtaTextClarity])) &&
    CtaColorUniqueness in labels && Is(d, CtaColorUniqueness, Lbl(labels[CtaColorUniqueness])) &&
    VisualHierarchy in labels && Is(d, VisualHierarchy, Lbl(labels[VisualHierarchy])) &&
    MobileFriendly in labels && Is(d, MobileFriendly, Lbl(labels[MobileFriendly])) &&
    LoadingFeedback in labels && Is(d, LoadingFeedback, Lbl(labels[LoadingFeedback]))
  }

  /** Raw inputs that are not derived keys reach the merged facts unchanged. */
  lemma MergeRawRead(inputs: RawFacts, q: map<Key, Label>)
    requires forall k :: k in q ==> IsDerived(k)
    requires forall k :: !IsDerived(k) ==> k in inputs
    ensures RawRead(Merge(inputs, q), inputs)
  {
    var m := Merge(inputs, q);
    forall k | !IsDerived(k) ensures Is(m, k, Num(inputs[k])) {
      assert k !in q;
    }
  }

  /** Labels override whatever the raw inputs hold under the same key. */
  lemma MergeLabelsRead(inputs: RawFacts, q: map<Key, Label>)
    requires forall k :: IsDerived(k) ==> k in q
    ensures LabelsRead(Merge(inputs, q), q)
  {
  }

  /** Merging complete raw inputs with a full set of labels gives the rules what they read. */
  lemma MergeRead(inputs: RawFacts, q: map<Key, Label>)
    requires forall k :: k in q <==> IsDerived(k)
    requires forall k :: !IsDerived(k) ==> k in inputs
    ensures ReadFacts(Merge(inputs, q), inputs, q)
  {
    MergeRawRead(inputs, q);
    MergeLabelsRead(inputs, q);
  }

  /** The merged facts of a scenario whose labels are known. */
  lemma ScenarioFacts(inputs: RawFacts, labels: map<Key, Label>)
    requires forall k :: !IsDerived(k) ==> k in inputs
    requires Qualitative(inputs) == labels
    ensures ReadFacts(FullFacts(inputs), inputs, labels)
  {
    MergeRead(inputs, Qualitative(inputs));
  }

  /** A table in which only entry i fires activates that entry alone. */
  lemma OnlyOneFires(rules: seq<Rule>, facts: FactMap, i: nat)
    requires i < |rules|
    requires Fires(rules[i], facts)
    requires forall j :: 0 <= j < |rules| && j != i ==> !Fires(rules[j], facts)
    ensures ActivateAll(rules, facts) == [ActivatedRule(rules[i], rules[i].certainty)]
  {
    var upTo, after := rules[..i + 1], rules[i + 1..];
    assert rules == upTo + after;
    EngineProperties.ActivateAllAppend(upTo, after, facts);
    assert upTo[..i] == rules[..i];
    EngineProperties.ActivateAllNoneFire(rules[..i], facts);
    forall j | 0 <= j < |after| ensures !Fires(after[j], facts) {
      assert after[j] == rules[i + 1 + j];
    }
    EngineProperties.ActivateAllNoneFire(after, facts);
  }

  /** A table in which exactly entries i and i + 1 fire activates those two, in table order. */
  lemma AdjacentPairFires(rules: seq<Rule>, facts: FactMap, i: nat)
    requires i + 1 < |rules|
    requires Fires(rules[i], facts) && Fires(rules[i + 1], facts)
    requires forall j :: 0 <= j < |rules| && j != i && j != i + 1 ==> !Fires(rules[j], facts)
    ensures ActivateAll(rules, facts) ==
      [ActivatedRule(rules[i], rules[i].certainty), ActivatedRule(rules[i + 1], rules[i + 1].certainty)]
  {
    var head, tail := rules[..i + 1], rules[i + 1..];
    assert rules == head + tail;
    EngineProperties.ActivateAllAppend(head, tail, facts);
    forall j | 0 <= j < |head| && j != i ensures !Fires(head[j], facts) {
    }
    OnlyOneFires(head, facts, i);
    forall j | 0 <= j < |tail| && j != 0 ensures !Fires(tail[j], facts) {
      assert tail[j] == rules[i + 1 + j];
    }
    OnlyOneFires(tail, facts, 0);
  }

  /** Two distinct table entries have distinct positions. */
  lemma PositionInjective(x: RuleId, y: RuleId)
    requires Position(x) == Position(y)
    ensures x == y
  {
  }

  /** When exactly two neighbouring rules of the table hold, activation yields them in table order. */
  lemma ExactlyTwoFire(facts: FactMap, a: RuleId, b: RuleId)
    requires Position(b) == Position(a) + 1
    requires forall id :: Condition(id, facts) == Some(id == a || id == b)
    ensures var rs := Rules();
      ActivateAll(rs, facts) ==
        [ActivatedRule(rs[Position(a)], rs[Position(a)].certainty),
         ActivatedRule(rs[Position(b)], rs[Position(b)].certainty)]
  {
    var rs := Rules();
    var i := Position(a);
    forall j | 0 <= j < |rs| ensures Fires(rs[j], facts) <==> j == i || j == i + 1 {
      var id := rs[j].id;
      assert Position(id) == j;
      if id == a || id == b {
      } else if j == i {
        PositionInjective(id, a);
      } else if j == i + 1 {
        PositionInjective(id, b);
      }
    }
    AdjacentPairFires(rs, facts, i);
  }

  /** Ranking two activations swaps them exactly when the second has the higher priority. */
  lemma RankTwo(x: ActivatedRule, y: ActivatedRule)
    ensures SortByPriority([x, y]) == if Priority(y) > Priority(x) then [y, x] else [x, y]
  {
    assert [x, y][..1] == [x];
    assert SortByPriority([x]) == [x];
  }

  // The activations the scenarios produce: a table entry with its own certainty.
  const FiredV1 := ActivatedRule(Rule(V1, 10, 0.95, Visibility), 0.95)
  const FiredV2 := ActivatedRule(Rule(V2, 9, 0.90, Visibility), 0.90)
  const FiredV6 := ActivatedRule(Rule(V6, 5, 0.70, Visibility), 0.70)
  const FiredC1 := ActivatedRule(Rule(C1, 10, 0.95, Clickability), 0.95)

  // The defaults: what a request that sets no field sends.

  function DefaultLabels(): map<Key, Label> {
    map[ContentLength := Medium, CtaTextClarity := Good, CtaColorUniqueness := Unique,
        VisualHierarchy := Medium, MobileFriendly := Yes, LoadingFeedback := Yes]
  }

  lemma DefaultsCoverRawInputs()
    ensures forall k :: !IsDerived(k) ==> k in Defaults()
  {
    forall k | !IsDerived(k) ensures k in Defaults() {
      Facts.DefaultsComplete(k);
    }
  }

  /** The default CTA (200 by 50) is larger than 1.1, not 1.5, times the default largest element: medium hierarchy. */
  lemma DefaultsLabelled()
    ensures Qualitative(Defaults()) == DefaultLabels()
  {
    var d := Defaults();
    assert GetOr(d, CtaWidth, DefaultWidth) * GetOr(d, CtaHeight, DefaultHeight) == 10000.0;
  }

  /** Against the defaults no condition holds. */
  lemma DefaultsDecide(d: FactMap, id: RuleId)
    requires ReadFacts(d, Defaults(), DefaultLabels())
    ensures Condition(id, d) == Some(false)
  {
  }

  /** Against the defaults nothing is activated. */
  lemma DefaultsActivateNothing(d: FactMap)
    requires ReadFacts(d, Defaults(), DefaultLabels())
    ensures ActivateAll(Rules(), d) == []
  {
    forall j | 0 <= j < |Rules()| ensures !Fires(Rules()[j], d) {
      DefaultsDecide(d, Rules()[j].id);
    }
    EngineProperties.ActivateAllNoneFire(Rules(), d);
  }

  lemma DefaultsRanked()
    ensures Activated(Defaults()) == []
  {
    DefaultsCoverRawInputs();
    DefaultsLabelled();
    ScenarioFacts(Defaults(), DefaultLabels());
    DefaultsActivateNothing(FullFacts(Defaults()));
  }

  /** Neither score loses a point on the defaults; clickability's raw 105 is clamped. */
  lemma DefaultsScores()
    ensures Scoring.Visibility(Defaults()) == Success(100)
    ensures Scoring.Clickability(Defaults()) == Success(100)
  {
  }

  /** The analysis, given what each of its parts comes to. */
  lemma EvaluateFromParts(inputs: RawFacts, acts: seq<ActivatedRule>, vis: int, click: int, cf: real)
    requires Activated(inputs) == acts
    requires Scoring.Visibility(inputs) == Success(vis)
    requires Scoring.Clickability(inputs) == Success(click)
    requires Reported(Certainties(acts)) == Some(cf)
    ensures Evaluate(inputs) ==
      Success(Analysis(acts, vis, click, cf, TopConclusions(acts), Qualitative(inputs)))
  {
  }

  /** Two activations: their certainties combine in one step and both are recommended. */
  lemma TwoActivations(x: ActivatedRule, y: ActivatedRule)
    ensures CombineAll(Certainties([x, y])) == Combine(x.certainty, y.certainty)
    ensures TopConclusions([x, y]) == [Conclusion(x.rule.id), Conclusion(y.rule.id)]
  {
    assert Certainties([x, y]) == [x.certainty, y.certainty];
    CombinePair(x.certainty, y.certainty);
  }

  /** The two combined certainties of the scenarios below are ties, and are reported rounded down. */
  lemma RoundedScenarioCertainties()
    ensures Round2(0.995) == 0.99
    ensures Round2(0.985) == 0.98
  {
    assert (0.995 * 100.0).Floor == 99;
    assert (0.985 * 100.0).Floor == 98;
  }

  /**
    Two rules at the table's only rising ties: V5 with V6 (or any pair of
    certainties 0.75 and 0.70) reports 0.93, M3 with M4 (0.78 and 0.75)
    reports 0.95.
  */
  lemma RisingTies()
    ensures Reported([0.75, 0.70]) == Some(0.93)
    ensures Reported([0.78, 0.75]) == Some(0.95)
  {
    CombinePair(0.75, 0.70);
    CombinePair(0.78, 0.75);
    assert (0.925 * 100.0).Floor == 92;
    assert (0.945 * 100.0).Floor == 94;
  }

  /** Two certainties combine in one step. */
  lemma CombinePair(a: real, b: real)
    ensures CombineAll([a, b]) == Combine(a, b)
  {
    assert [a, b][1..] == [b];
    match Combine(a, b) {
      case None =>
      case Some(n) =>
        assert [b][1..] == [];
        assert FoldFrom(n, []) == Some(n);
    }
  }

  /** A request that sets nothing activates no rule and scores full marks. */
  lemma AllDefaults()
    ensures Evaluate(Defaults()) ==
      Success(Analysis([], 100, 100, 0.5, [], DefaultLabels()))
  {
    DefaultsRanked();
    DefaultsScores();
    DefaultsLabelled();
    assert TopConclusions([]) == [];
    EvaluateFromParts(Defaults(), [], 100, 100, 0.5);
  }

  // Low and poorly contrasted: a CTA below the fold, seen by few, with low contrast.

  function LowContrastLowCta(): RawFacts {
    Defaults()[CtaPositionY := 900.0][ScrollDepth := 40.0][ContrastRatio := 2.5]
  }

  lemma LowContrastLowCtaLabelled()
    ensures Qualitative(LowContrastLowCta()) == DefaultLabels()
  {
    var d := LowContrastLowCta();
    assert GetOr(d, CtaWidth, DefaultWidth) * GetOr(d, CtaHeight, DefaultHeight) == 10000.0;
  }

  /** Exactly V1 (below the fold, little scrolled) and V2 (contrast under 3) hold. */
  lemma LowContrastLowCtaDecide(d: FactMap, id: RuleId)
    requires ReadFacts(d, LowContrastLowCta(), DefaultLabels())
    ensures Condition(id, d) == Some(id == V1 || id == V2)
  {
  }

  /** The activation for the low and poorly contrasted CTA: V1 and V2, in table order. */
  lemma LowContrastLowCtaActivates(d: FactMap)
    requires ReadFacts(d, LowContrastLowCta(), DefaultLabels())
    ensures ActivateAll(Rules(), d) == [FiredV1, FiredV2]
  {
    forall id ensures Condition(id, d) == Some(id == V1 || id == V2) {
      LowContrastLowCtaDecide(d, id);
    }
    ExactlyTwoFire(d, V1, V2);
  }

  /** Visibility loses 30 (position) and 25 (contrast); clickability is clamped at 100. */
  lemma LowContrastLowCtaScores()
    ensures Scoring.Visibility(LowContrastLowCta()) == Success(45)
    ensures Scoring.Clickability(LowContrastLowCta()) == Success(100)
  {
  }

  /** V1 and V2 are activated; V1 (priority 10) ranks before V2 (priority 9). */
  lemma LowContrastLowCtaRanked()
    ensures Activated(LowContrastLowCta()) == [FiredV1, FiredV2]
  {
    var inputs := LowContrastLowCta();
    DefaultsCoverRawInputs();
    LowContrastLowCtaLabelled();
    ScenarioFacts(inputs, DefaultLabels());
    LowContrastLowCtaActivates(FullFacts(inputs));
    RankTwo(FiredV1, FiredV2);
  }

  /**
    Low and poorly contrasted: V1 then V2; the combined certainty 0.95 + 0.90 * 0.05 = 0.995
    is reported as 0.99; both conclusions are recommended, V1's first.
  */
  lemma LowAndPoorlyContrasted()
    ensures Evaluate(LowContrastLowCta()) ==
      Success(Analysis([FiredV1, FiredV2], 45, 100, 0.99, [Conclusion(V1), Conclusion(V2)], DefaultLabels()))
  {
    LowContrastLowCtaRanked();
    LowContrastLowCtaScores();
    LowContrastLowCtaLabelled();
    TwoActivations(FiredV1, FiredV2);
    assert Combine(0.95, 0.90) == Some(0.995);
    RoundedScenarioCertainties();
    EvaluateFromParts(LowContrastLowCta(), [FiredV1, FiredV2], 45, 100, 0.99);
  }

  // Undersized: a 150 by 40 CTA.

  function UndersizedCta(): RawFacts {
    Defaults()[CtaWidth := 150.0][CtaHeight := 40.0]
  }

  function UndersizedLabels(): map<Key, Label> {
    DefaultLabels()[VisualHierarchy := Weak]
  }

  /** A 150 by 40 CTA is no larger than 1.1 times the largest other element: weak hierarchy. */
  lemma UndersizedLabelled()
    ensures Qualitative(UndersizedCta()) == UndersizedLabels()
  {
    var d := UndersizedCta();
    assert GetOr(d, CtaWidth, DefaultWidth) * GetOr(d, CtaHeight, DefaultHeight) == 6000.0;
  }

  /** Exactly C1 (too small) and V6 (weak hierarchy) hold. */
  lemma UndersizedDecide(d: FactMap, id: RuleId)
    requires ReadFacts(d, UndersizedCta(), UndersizedLabels())
    ensures Condition(id, d) == Some(id == V6 || id == C1)
  {
  }

  /** The activation for the undersized CTA: V6 and C1, in table order. */
  lemma UndersizedActivates(d: FactMap)
    requires ReadFacts(d, UndersizedCta(), UndersizedLabels())
    ensures ActivateAll(Rules(), d) == [FiredV6, FiredC1]
  {
    forall id ensures Condition(id, d) == Some(id == V6 || id == C1) {
      UndersizedDecide(d, id);
    }
    ExactlyTwoFire(d, V6, C1);
  }

  /** Clickability is 100 - 30 + 5 = 75: the text-length bonus still applies; visibility is untouched. */
  lemma UndersizedScores()
    ensures Scoring.Visibility(UndersizedCta()) == Success(100)
    ensures Scoring.Clickability(UndersizedCta()) == Success(75)
  {
  }

  /** C1 and V6 are activated, and ranking puts C1 (priority 10) before V6 (priority 5). */
  lemma UndersizedRanked()
    ensures Activated(UndersizedCta()) == [FiredC1, FiredV6]
  {
    var inputs := UndersizedCta();
    DefaultsCoverRawInputs();
    UndersizedLabelled();
    ScenarioFacts(inputs, UndersizedLabels());
    UndersizedActivates(FullFacts(inputs));
    RankTwo(FiredV6, FiredC1);
  }

  /**
    Undersized: C1 then V6; the combined certainty 0.95 + 0.70 * 0.05 = 0.985
    is reported as 0.98; clickability loses the size group only.
  */
  lemma Undersized()
    ensures Evaluate(UndersizedCta()) ==
      Success(Analysis([FiredC1, FiredV6], 100, 75, 0.98, [Conclusion(C1), Conclusion(V6)], UndersizedLabels()))
  {
    UndersizedRanked();
    UndersizedScores();
    UndersizedLabelled();
    TwoActivations(FiredC1, FiredV6);
    assert Combine(0.95, 0.70) == Some(0.985);
    RoundedScenarioCertainties();
    EvaluateFromParts(UndersizedCta(), [FiredC1, FiredV6], 100, 75, 0.98);
  }
}
