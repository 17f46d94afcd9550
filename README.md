# CTA expert system: a verified model of its decision engine

The back end of this landing-page analyser is a small forward-chaining expert
system. It judges how visible and how clickable a page's call-to-action (CTA)
button is. A request carries up to seventeen numeric facts about the page:

- the CTA's position, size and contrast;
- the whitespace around it;
- the number of CTAs;
- the length of the CTA text;
- and so on.

The engine then does the following:

1. **Conversion.** Six threshold ladders turn some of these facts into
   qualitative labels (content length, text clarity, colour uniqueness,
   visual hierarchy, mobile friendliness, loading feedback).
2. **Merging.** The labels are merged over the raw facts.
3. **Activation.** Every rule of a fixed, ordered table of sixteen rules is
   evaluated against the merged facts. A rule whose condition raises is
   skipped.
4. **Ranking.** The activated rules are ranked by descending priority with a
   stable sort.
5. **Scoring.** Two additive scores, visibility and clickability, are
   computed and clamped to [0, 100].
6. **Certainty.** The rules' certainty factors are combined with the MYCIN
   operator, left to right over the ranked list, and the result is rounded
   to two decimals.
7. **Recommendations.** The conclusions of the five best-ranked rules are
   returned.

A service wraps the engine and adds a summary:

- a quality tier for each score;
- a certainty level;
- an overall status based on the average score.

## Structure of the model

| module | what it holds |
|---|---|
| `Wrappers` | `Option` and `Result`. |
| `Facts` | Fact keys, labels and merged fact maps. The Python comparisons inside rule conditions are modelled as `Option<bool>`, where `None` stands for the KeyError or TypeError they raise. Also the request model's defaults. |
| `Converter` | The six ladders. `Qualitative` is the converter as a function. `ConvertInputs` is the same converter filling its dictionary step by step. |
| `KnowledgeBase` | The rule table: ids, priorities, certainties, categories, the condition of every rule, and its conclusion and explanation texts. |
| `Ranking` | The stable descending sort, `SortByPriority`, as insertion into a sorted list, together with the proof that it is the only stable sort. |
| `Certainty` | The combination operator, its left fold, its closed form, and rounding to two decimals. |
| `Scoring` | The two scores as functions of the raw facts. They fail with the first missing required fact. |
| `Engine` | `Evaluate` is `forward_chaining` as a function. The class `InferenceEngine` has the `activated` list field and one method per engine method; each method is proved equal to its function. |
| `EngineProperties` | What one forward-chaining pass guarantees. |
| `Scenarios` | Three complete analyses: the defaults, a low and poorly contrasted CTA, and an undersized CTA. |
| `Service` | The tier functions, the summary, and `ExpertSystemService` with its shared engine. |

The numbers are modelled as follows:

- Every numeric fact is an exact `real`. The request model admits ints and
  floats only, and Python compares ints with floats exactly.
- Scores and priorities are `int`.
- Floating-point error is not modelled.

Some behaviours of the code worth stating on their own:

- A CTA text of at most 5 characters is labelled *medium* clarity
  (BackEnd/main.py:143-148).
- The converter's own default for the largest other element is 150
  (BackEnd/main.py:162). The request model's default is 8000
  (BackEnd/main.py:50).
- The combination operator tests certainties with strict `> 0` and `< 0`
  (BackEnd/main.py:498-503), so a zero certainty takes the mixed-sign
  formula.
- The clickability score reads `cta_height` only when `cta_width` is at
  least 180, because the `or` short-circuits (BackEnd/main.py:448-451).
  Forward chaining therefore succeeds for a narrow CTA without a height.
  `analyze` still fails on such a request, because `generate_explanation`
  subscripts `cta_height`, `scroll_depth` and `cta_click_rate`
  (BackEnd/main.py:531-538). Neither score reads the last two.
- The undersized scenario (a 150 by 40 CTA) scores 75 for clickability:
  -30 for the size, +5 for the text length. It also activates V6 (weak
  hierarchy), because the CTA's area is below 1.1 times the default
  largest element of 8000.

## Model

| member | source | states |
|---|---|---|
| Facts.Merge | BackEnd/main.py:368-369 | The merged facts have exactly the keys of both maps. A derived label overrides a raw value under the same key. A raw-only key keeps its number. |
| Facts.NumberAt | BackEnd/main.py:206-206 | Reading a fact for a numeric comparison succeeds exactly when the key is present and holds a number, and then gives that number. |
| Facts.And | BackEnd/main.py:206-206 | Python `and`: true exactly when both sides are true. A failing left side fails the whole. A false left side decides the result without evaluating (or failing on) the right side. A true left side gives the right side's outcome, failure included. |
| Facts.Or | BackEnd/main.py:262-262 | Python `or`: true exactly when the left side is true, or the left side is false and the right side is true. A failing left side fails the whole. A true left side decides the result. A false left side gives the right side's outcome, failure included. |
| Facts.DefaultsComplete | BackEnd/main.py:37-53 | The request model's defaults give a value to every raw input and to none of the six derived keys. |
| Facts.NamesDistinct | BackEnd/main.py:37-53 | Distinct fact keys have distinct dictionary names. |
| Converter.ContentLengthOf | BackEnd/main.py:133-139 | Short exactly below 200 words, medium on [200, 400), long from 400. |
| Converter.TextClarityOf | BackEnd/main.py:142-148 | Good exactly on (5, 15]. Medium for at most 5 and on (15, 25]. Poor above 25. |
| Converter.ColorUniquenessOf | BackEnd/main.py:151-157 | Unique exactly at 0 similar elements, medium for other values up to 2, similar above 2. |
| Converter.HierarchyOf | BackEnd/main.py:160-170 | Strong exactly when the area exceeds 1.5 times the largest other element, medium when it exceeds only 1.1 times, weak otherwise. |
| Converter.MobileFriendlyOf | BackEnd/main.py:173-178 | Yes exactly when the mobile CTA is at least 180 wide and 48 high. |
| Converter.LoadingFeedbackOf | BackEnd/main.py:181-185 | Yes exactly when has_loading_animation is positive. |
| Converter.Qualitative | BackEnd/main.py:128-187 | The converter returns exactly the six derived keys and never echoes a raw input. |
| Converter.ConvertInputs | BackEnd/main.py:128-187 | Filling the dictionary one ladder at a time gives exactly `Qualitative`, with exactly the six derived keys. |
| Converter.ContentLabelsDependOnlyOnTheirInputs | BackEnd/main.py:130-157 | Content length, text clarity and colour uniqueness each depend only on the input their ladder reads, and the default applies when that input is absent. |
| Converter.LayoutLabelsDependOnlyOnTheirInputs | BackEnd/main.py:159-185 | Hierarchy, mobile friendliness and loading feedback each depend only on the inputs their ladder reads. |
| Converter.EmptyInputs | BackEnd/main.py:159-170 | With no inputs at all, the converter's defaults (a 200 by 50 CTA against 150) give a strong hierarchy and all six labels. |
| KnowledgeBase.VisibilityRules | BackEnd/main.py:202-256 | Rules V1-V6 come at table positions 0-5, with certainties in (0, 1]. |
| KnowledgeBase.ClickabilityRules | BackEnd/main.py:258-311 | Rules C1-C6 come at positions 6-11, with certainties in (0, 1]. |
| KnowledgeBase.MixedRules | BackEnd/main.py:313-348 | Rules M1-M4 come at positions 12-15, with certainties in (0, 1]. |
| KnowledgeBase.Rules | BackEnd/main.py:198-350 | The table has sixteen rules in declaration order, and every certainty lies in (0, 1]. |
| KnowledgeBase.RuleCertaintiesTwoDecimals | BackEnd/main.py:198-350 | Every certainty of the table is a whole number of hundredths. |
| KnowledgeBase.RuleIdsUnique | BackEnd/main.py:198-350 | No two rules share an id. |
| KnowledgeBase.ConditionFailsOnlyOnItsFacts | BackEnd/main.py:206-345 | A condition raises only when a fact it reads is missing, or is a label where it compares numbers. |
| KnowledgeBase.ConditionReadsOnlyItsFacts | BackEnd/main.py:206-345 | A condition's outcome depends only on the facts it reads. |
| Certainty.Combine | BackEnd/main.py:494-503 | One combination step fails (division by zero) exactly when the signs are not both strictly positive or both strictly negative, and the smaller magnitude is 1. |
| Certainty.MixedSign | BackEnd/main.py:502-503 | The mixed-sign formula fails exactly when min(abs(cf), abs(next)) is 1. |
| Certainty.CombineAll | BackEnd/main.py:486-503 | The combined certainty is 0.5 with no activation, and exactly the certainty of the only rule with one activation. |
| Certainty.ResidualInUnit | BackEnd/main.py:494-499 | The product of the 1 - c lies in [0, 1] for certainties in (0, 1]. |
| Certainty.CombinePositive | BackEnd/main.py:498-499 | Two positive certainties combine to 1 - (1 - cf)(1 - next), which lies in (0, 1] and is at least as large as either. |
| Certainty.FoldFromBounds | BackEnd/main.py:492-503 | Folding certainties of (0, 1] into a running value of (0, 1] never fails, stays in (0, 1], never falls below the start, and is at least every certainty seen. |
| Certainty.FoldFromClosedForm | BackEnd/main.py:492-503 | The fold equals 1 - (1 - cf) times the product of the 1 - c. |
| Certainty.CombineAllPositive | BackEnd/main.py:486-503 | For activated certainties in (0, 1], the combination exists, lies in (0, 1] and is at least the largest certainty. |
| Certainty.CombineAllClosedForm | BackEnd/main.py:486-503 | For certainties in (0, 1], 1 minus the combined certainty is the product of the 1 - c. |
| Certainty.ResidualPermutation | BackEnd/main.py:494-503 | The product of the 1 - c is the same for any reordering of the certainties. |
| Certainty.CombineAllPermutation | BackEnd/main.py:486-503 | Certainties of (0, 1] combine to the same value in any order. |
| Certainty.FoldFromSnoc | BackEnd/main.py:494-503 | Folding one more certainty is one more combination step on the previous result. |
| Certainty.CombineAllNeverDecreases | BackEnd/main.py:494-499 | Adding one more positive certainty never lowers the combined value. |
| Certainty.MixedSignDivisionByZero | BackEnd/main.py:502-503 | The mixed-sign branch divides by zero for 1 against -1, and a zero certainty is taken as mixed-sign. |
| Certainty.Round2 | BackEnd/main.py:505-505 | `round(cf, 2)` gives a whole number of hundredths within half a hundredth of cf, and stays in [0, 1] for inputs in [0, 1]. At an exact tie it goes up exactly for the ties whose floating-point sum lies above the tie (0.925 and 0.945), and down otherwise. |
| Certainty.Round2Monotone | BackEnd/main.py:505-505 | Rounding never reverses an order. |
| Certainty.Round2Keeps | BackEnd/main.py:505-505 | A value that already has two decimals is not changed by rounding. |
| Certainty.Reported | BackEnd/main.py:486-505 | The reported certainty is 0.5 with nothing activated. Otherwise it exists exactly when the combination does, and it is the combination rounded. |
| Certainty.ReportedShape | BackEnd/main.py:486-505 | For certainties in (0, 1] with two decimals, the reported value exists. It is 0.5 for none, and otherwise is 1 - Residual rounded, lies in (0, 1], and is at least every certainty. |
| Ranking.Insert | BackEnd/main.py:384-384 | Insertion adds exactly the one element: the multiset grows by x. |
| Ranking.SortByPriority | BackEnd/main.py:384-384 | The sort is a permutation of its input. |
| Ranking.InsertSorted | BackEnd/main.py:384-384 | Inserting into a list in descending priority order keeps it in that order. |
| Ranking.SortIsSorted | BackEnd/main.py:384-384 | The sort's result is non-increasing in priority. |
| Ranking.InsertIsStable | BackEnd/main.py:384-384 | Inserting keeps every priority class in order and puts the new element last in its class. |
| Ranking.SortIsStable | BackEnd/main.py:384-384 | Every priority class keeps the order it had in the input: the sort is stable. |
| Ranking.SortIsTheStableSort | BackEnd/main.py:384-384 | Any arrangement in descending priority order that keeps every class in input order equals `SortByPriority`. So the model computes what Python's stable `sort(key=priority, reverse=True)` computes. |
| Ranking.SortSorted | BackEnd/main.py:384-384 | Sorting a list that is already in order leaves it unchanged. |
| Scoring.Clamp | BackEnd/main.py:441-441 | `max(0, min(100, x))` lies in [0, 100] and is x whenever x already does. |
| Scoring.VisibilityRaw | BackEnd/main.py:402-441 | The unclamped visibility score ranges over [0, 110]. |
| Scoring.ClickabilityRaw | BackEnd/main.py:443-484 | The unclamped clickability score ranges over [0, 110]. |
| Scoring.Visibility | BackEnd/main.py:402-441 | The score exists exactly when position, contrast, whitespace and CTA count are all given. It then lies in [0, 100]. A failure names an absent key. |
| Scoring.Clickability | BackEnd/main.py:443-484 | The score exists exactly when width, text length and clickable elements are given, and height too when the width is at least 180. It then lies in [0, 100]. A failure names an absent key. |
| Scoring.NarrowCtaIgnoresHeight | BackEnd/main.py:448-449 | A width below 180 costs 30 points whatever the height. |
| Scoring.VisibilityMonotone | BackEnd/main.py:402-441 | Moving the CTA down never raises visibility. More contrast or more whitespace never lowers it. More CTAs or more similarly coloured elements never raise it. |
| Scoring.WorstCaseScores | BackEnd/main.py:402-484 | The worst case of every group together reaches exactly 0 for both scores, so the lower clamp never binds. |
| Engine.TopConclusions | BackEnd/main.py:507-515 | At most five recommendations: the conclusions of the first activated rules, in ranked order. |
| Engine.InferenceEngine.constructor | BackEnd/main.py:358-361 | A new engine holds the rule table and an empty activated list. |
| Engine.InferenceEngine.Activate | BackEnd/main.py:371-381 | After the loop, `activated` holds exactly the table's firing rules, in table order. A raising condition is skipped. |
| Engine.InferenceEngine.SortActivated | BackEnd/main.py:384-384 | The in-place sort leaves `SortByPriority` of the old list in `activated`. |
| Engine.InferenceEngine.CombinedCertainty | BackEnd/main.py:486-505 | The loop's result is the rounded combination of the ranked certainties, or 0.5 for none. |
| Engine.InferenceEngine.Recommendations | BackEnd/main.py:507-515 | The appended list has min(5, n) entries, the conclusions of the first ranked rules. |
| Engine.InferenceEngine.VisibilityScore | BackEnd/main.py:402-441 | The step-by-step score equals `Scoring.Visibility`, including which missing key it fails on. |
| Engine.InferenceEngine.ClickabilityScore | BackEnd/main.py:443-484 | The step-by-step score equals `Scoring.Clickability`, including which missing key it fails on. |
| Engine.InferenceEngine.ForwardChaining | BackEnd/main.py:363-400 | The whole pass returns `Evaluate(inputs)`. The activated list is the ranked activation even when a score then raises. |
| EngineProperties.ActivateAllSound | BackEnd/main.py:374-381 | Every activated entry is a table rule that fires, carrying its own certainty. |
| EngineProperties.ActivateAllComplete | BackEnd/main.py:374-381 | Every table rule that fires is activated. |
| EngineProperties.ActivateAllAppend | BackEnd/main.py:374-381 | Activation keeps table order, and a failing or false condition never stops the loop. |
| EngineProperties.ActivateAllNoneFire | BackEnd/main.py:374-381 | When no condition holds, nothing is activated. |
| EngineProperties.RankedCertainties | BackEnd/main.py:376-379 | Ranked certainties lie in (0, 1] and have two decimals when the table's do. |
| EngineProperties.ActivatedCertaintiesInUnit | BackEnd/main.py:376-384 | The certainties of the ranked activation lie in (0, 1] and have two decimals. |
| EngineProperties.ActivatedIsRankedActivation | BackEnd/main.py:371-384 | The ranked list is a permutation of the activation and is non-increasing in priority. It is stable within every priority class, and contains an entry exactly when that entry is a firing table rule with its own certainty. |
| EngineProperties.CompleteInputsDecideEveryRule | BackEnd/main.py:374-381 | With every raw input present, no rule condition raises. |
| EngineProperties.EvaluateFailsOnlyOnMissingInput | BackEnd/main.py:363-400 | An analysis succeeds exactly when both scores can be computed, so the certainty never divides by zero. A failure is a KeyError for an absent input. |
| EngineProperties.CompleteInputsSucceed | BackEnd/main.py:363-400 | Inputs holding every raw fact, as a request does after its defaults are applied, always give an analysis. |
| EngineProperties.AnalysisShape | BackEnd/main.py:363-400 | A successful analysis carries the ranked activation, both scores in [0, 100], min(5, n) recommendations for the top ranked rules, and the converter's labels. |
| EngineProperties.CertaintiesPermutation | BackEnd/main.py:486-503 | Reordering the activated entries reorders their certainties and nothing more. |
| EngineProperties.RankingKeepsCombinedCertainty | BackEnd/main.py:486-503 | Ranking does not change the combined certainty, for any table of certainties in (0, 1]. |
| EngineProperties.ReportedIgnoresRanking | BackEnd/main.py:486-505 | The reported certainty of every request is that of its activations in table order. |
| EngineProperties.ReportedCertainty | BackEnd/main.py:486-505 | The reported certainty of every request exists. It is 0.5 when nothing fired, and otherwise is 1 - Residual rounded, lies in (0, 1], and is no smaller than any activated certainty. |
| Scenarios.DefaultsLabelled | BackEnd/main.py:128-187 | The defaults are labelled medium length, good clarity, unique colour, medium hierarchy (10000 against 8000), mobile friendly, with loading feedback. |
| Scenarios.DefaultsScores | BackEnd/main.py:402-484 | The defaults score 100 on both counts; clickability's raw 105 is clamped. |
| Scenarios.DefaultsRanked | BackEnd/main.py:371-384 | The defaults activate no rule. |
| Scenarios.AllDefaults | BackEnd/main.py:37-53 | A request that sets nothing gets no activation, scores 100 and 100, certainty 0.5 and no recommendation. |
| Scenarios.RisingTies | BackEnd/main.py:486-505 | Certainties 0.75 and 0.70 (V5 with V6, for example) report 0.93, and 0.78 with 0.75 (M3 with M4) report 0.95: these ties round up. |
| Scenarios.LowContrastLowCtaScores | BackEnd/main.py:402-441 | A CTA at 900 px with contrast 2.5 scores 45 on visibility and keeps 100 on clickability. |
| Scenarios.LowContrastLowCtaRanked | BackEnd/main.py:371-384 | V1 and V2 are activated, V1 ranked first. |
| Scenarios.LowAndPoorlyContrasted | BackEnd/main.py:363-400 | The whole analysis is [V1, V2], 45, 100, certainty 0.99 (0.995 rounded), with V1's conclusion first. |
| Scenarios.UndersizedScores | BackEnd/main.py:443-484 | A 150 by 40 CTA scores 75 on clickability (-30, then +5 for the text) and 100 on visibility. |
| Scenarios.UndersizedRanked | BackEnd/main.py:371-384 | C1 and V6 are activated, and ranking puts C1 (priority 10) before V6 (priority 5). |
| Scenarios.Undersized | BackEnd/main.py:363-400 | The whole analysis is [C1, V6], 100, 75, certainty 0.98 (0.985 rounded). |
| Scenarios.RoundedScenarioCertainties | BackEnd/main.py:505-505 | 0.995 and 0.985 are reported as 0.99 and 0.98. |
| Service.QualityTier | BackEnd/main.py:679-688 | Excellent exactly from 85, good on [70, 85), medium on [50, 70), weak below 50. `ExplanationFacility._get_quality_label` at lines 595-604 uses the same ladder. |
| Service.CertaintyLevel | BackEnd/main.py:690-699 | Very high exactly from 0.9, high on [0.8, 0.9), moderate on [0.6, 0.8), low below 0.6. |
| Service.OverallStatus | BackEnd/main.py:656-668 | The status ladder on the fractional average uses the same four bands. |
| Service.QualityTierMonotone | BackEnd/main.py:679-688 | A better score never gets a worse tier. |
| Service.CertaintyLevelMonotone | BackEnd/main.py:690-699 | A higher certainty never gets a lower level. |
| Service.OverallStatusIsTierOfFlooredAverage | BackEnd/main.py:655-668 | Comparing the half-point average with the integer thresholds gives the tier of the floored average. |
| Service.CreateSummary | BackEnd/main.py:649-677 | The summary gives the tier of each score, the level of the reported certainty, the overall status (the tier of the floored average), and the exact average. |
| Service.OverallStatusBetweenTiers | BackEnd/main.py:655-668 | The overall status lies between the two score tiers. |
| Service.FirstMissing | BackEnd/main.py:531-538 | The first key of the sequence that is missing from the inputs, where a run of subscripts raises KeyError: none exactly when all are present, otherwise a missing key all of whose predecessors are present. |
| Service.ExplanationError | BackEnd/main.py:524-538 | The explanation fails exactly when one of the nine subscripted raw inputs is missing, and then with a KeyError naming a missing one. The content word count is read with a default. |
| Service.ExplanationReadsAreRaw | BackEnd/main.py:531-538 | The explanation subscripts raw inputs only. |
| Service.Respond | BackEnd/main.py:617-647 | The engine's error is passed on. Otherwise the explanation's KeyError is raised, or else the analysis is returned with its summary. |
| Service.AnalyzeFailsOnlyOnMissingInput | BackEnd/main.py:617-624 | `analyze` succeeds exactly when both scores can be computed and every input the explanation subscripts is present. A failure always names a missing input. |
| Service.CompleteInputsAnalyze | BackEnd/main.py:617-624 | A request holding every raw field, as both endpoints send, is always analysed. |
| Service.ExplanationErrorWithoutScrollDepth | BackEnd/main.py:531-536 | Without `scroll_depth`, but with the five inputs read before it, the explanation raises KeyError('scroll_depth'). |
| Service.ExplanationNeedsScrollDepth | BackEnd/main.py:617-624 | A request missing only `scroll_depth` gets an analysis from forward chaining, and `analyze` then fails with KeyError('scroll_depth'). |
| Service.ExplanationErrorWithoutHeight | BackEnd/main.py:531-532 | Without `cta_height`, but with the position and the width, the explanation raises KeyError('cta_height'). |
| Service.ExplanationNeedsHeight | BackEnd/main.py:617-624 | A CTA narrower than 180 without a height gets an analysis from forward chaining, and `analyze` then fails with KeyError('cta_height'). |
| Service.ExpertSystemService.constructor | BackEnd/main.py:612-615 | The service owns a freshly allocated engine over the rule table, with an empty activation list. |
| Service.ExpertSystemService.Analyze | BackEnd/main.py:617-647 | `analyze` runs forward chaining on the shared engine, then the explanation's subscripts, then the summary. It returns `AnalyzeSpec`: the engine's error, else the explanation's KeyError, else the analysis with its summary. |
| Service.AnalyzeTwice | BackEnd/main.py:617-647 | The same request analysed twice on the shared engine gives the same response: no state from an earlier request leaks into a later one. |

## Left out

- The FastAPI application, CORS, the Pydantic request and response models, the endpoints and the global service instance (BackEnd/main.py:1-99 and 704-795) are left out. They are HTTP plumbing. The request model's defaults are kept, as `Facts.Defaults`. `Analyze` takes any map of raw facts and does not assume that every field is present; `Service.CompleteInputsAnalyze` states what a complete request, as the endpoints send, is guaranteed.
- The text that `ExplanationFacility.generate_explanation` (BackEnd/main.py:524-592) builds is left out, because it is only formatting. Its KeyErrors are modelled, as `Service.ExplanationError`. Its quality-label ladder is modelled as `Service.QualityTier`.
- The Persian texts of the tiers, the certainty levels and the overall status, and `status_emoji`, are modelled as the enumerations `Tier` and `Level`.
- `Service.CreateSummary`: `average_score` is the exact real average, not its string form `str(round(avg, 1))`. Since the average of two integers is a whole or half number, rounding to one decimal does not change it.
- `Service.ExpertSystemService.Analyze`: the response keeps the ranked `ActivatedRule` values rather than the list of dictionaries built from them (BackEnd/main.py:632-641). Each rule's conclusion and explanation are looked up by id through `KnowledgeBase.Conclusion` and `KnowledgeBase.Explanation`. `Explanation` is response data only: no computation reads it, so no contract is stated about it.
- `Certainty.Round2`: certainties are exact reals, so floating-point error is not modelled in general. Only the direction of exact decimal ties is taken from the floating-point sums. Over this rule table the reachable ties are 0.925 and 0.945, which lie just above the tie in floating point and round up, and 0.955, 0.975, 0.985 and 0.995, which lie just below and round down. Each exact value falls on the same side whichever rules produce it. `TieRoundsUp` lists the two rising ties for this table and would need revisiting if the certainties changed.
- Fact values of other Python types are not modelled. For example, a string sent where a number is expected would make a comparison raise TypeError. The request model admits numbers only, and the derived keys hold labels only.
- Unknown extra keys in the input dictionary are not modelled: no computation reads them.
- The React user interface (src/) is not part of this model.
