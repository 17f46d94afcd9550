/**
  The knowledge base: a fixed, ordered table of sixteen rules, six about
  visibility (V1-V6), six about clickability (C1-C6) and four mixed ones
  (M1-M4). Each rule's condition is a predicate over the merged fact set
  that may fail on a missing or mistyped fact.
*/
module KnowledgeBase {
  import opened Wrappers
  import opened Facts
  import Certainty

  datatype Category = Visibility | Clickability

  datatype RuleId = V1 | V2 | V3 | V4 | V5 | V6 | C1 | C2 | C3 | C4 | C5 | C6 | M1 | M2 | M3 | M4

  /**
    A rule of the table. Its finding and rationale texts are looked up by id
    (Conclusion, Explanation below) rather than stored in every value.
  */
  datatype Rule = Rule(
    id: RuleId,
    priority: int,
    certainty: real,
    category: Category)

  /** A rule that fired, with the certainty it contributed. */
  datatype ActivatedRule = ActivatedRule(rule: Rule, certainty: real)

  /**
    The condition of a rule against a fact set: Some(b) when it evaluates to
    b, None when evaluating it raises.
  */
  function Condition(id: RuleId, d: FactMap): Option<bool> {
    match id
    case V1 => And(Greater(d, CtaPositionY, 800.0), Less(d, ScrollDepth, 50.0))
    case V2 => Less(d, ContrastRatio, 3.0)
    case V3 => Less(d, WhitespaceAroundCta, 30.0)
    case V4 => Greater(d, NumberOfCtas, 1.0)
    case V5 => LabelIs(d, CtaColorUniqueness, Similar)
    case V6 => LabelIs(d, VisualHierarchy, Weak)
    case C1 => Or(Less(d, CtaWidth, 180.0), Less(d, CtaHeight, 44.0))
    case C2 => Greater(d, CtaTextLength, 25.0)
    case C3 => LabelIs(d, CtaTextClarity, Weak)
    case C4 => Greater(d, ClickableElementsBeforeCta, 5.0)
    case C5 => LabelIs(d, MobileFriendly, No)
    case C6 => LabelIs(d, LoadingFeedback, No)
    case M1 => And(Greater(d, TimeToCta, 12.0), LabelIs(d, ContentLength, Long))
    case M2 => And(Less(d, CtaClickRate, 2.0), Less(d, ContrastRatio, 4.0))
    case M3 => And(Greater(d, ScrollDepth, 70.0), Less(d, CtaPositionY, 500.0))
    case M4 => And(Greater(d, CtaClickRate, 5.0), AtLeast(d, CtaWidth, 200.0))
  }

  /** The facts a rule's condition may read. */
  function Reads(id: RuleId): set<Key> {
    match id
    case V1 => {CtaPositionY, ScrollDepth}
    case V2 => {ContrastRatio}
    case V3 => {WhitespaceAroundCta}
    case V4 => {NumberOfCtas}
    case V5 => {CtaColorUniqueness}
    case V6 => {VisualHierarchy}
    case C1 => {CtaWidth, CtaHeight}
    case C2 => {CtaTextLength}
    case C3 => {CtaTextClarity}
    case C4 => {ClickableElementsBeforeCta}
    case C5 => {MobileFriendly}
    case C6 => {LoadingFeedback}
    case M1 => {TimeToCta, ContentLength}
    case M2 => {CtaClickRate, ContrastRatio}
    case M3 => {ScrollDepth, CtaPositionY}
    case M4 => {CtaClickRate, CtaWidth}
  }

  /** The finding a rule reports. */
  function Conclusion(id: RuleId): string {
    ConclusionTexts[Position(id)]
  }

  /** Indexed by Position. */
  const ConclusionTexts: seq<string> := [
    "CTA در موقعیت نامناسب: زیر fold قرار دارد و کاربران به آن نمی‌رسند",
    "کنتراست رنگی CTA بسیار ضعیف است - قابل مشاهده نیست",
    "فضای خالی اطراف CTA ناکافی است - دیده نمی‌شود",
    "وجود چند CTA باعث سردرگمی کاربر می‌شود",
    "رنگ CTA با سایر عناصر مشابه است - تمایز ندارد",
    "سلسله‌مراتب بصری ضعیف - CTA برجسته نیست",
    "اندازه CTA خیلی کوچک است - کلیک مشکل است",
    "متن CTA بیش‌از‌حد طولانی است",
    "متن CTA واضح و انگیزه‌بخش نیست",
    "عناصر کلیک‌پذیر زیادی قبل از CTA وجود دارد",
    "CTA برای موبایل بهینه نشده است",
    "عدم وجود بازخورد بصری پس از کلیک",
    "زمان رسیدن به CTA بیش‌از‌حد طولانی است",
    "نرخ کلیک پایین به دلیل کنتراست ضعیف",
    "موقعیت CTA بهینه است - کاربران به آن می‌رسند",
    "اندازه CTA مناسب است - نرخ کلیک خوب"
  ]

  /** The rationale a rule gives for its finding. */
  function Explanation(id: RuleId): string {
    ExplanationTexts[Position(id)]
  }

  /** Indexed by Position. */
  const ExplanationTexts: seq<string> := [
    "57% کاربران تا عمق 800 پیکسل اسکرول نمی‌کنند. CTA باید در 600 پیکسل اول باشد.",
    "نسبت کنتراست کمتر از 3:1 باعث می‌شود CTA در پس‌زمینه گم شود.",
    "فضای خالی کمتر از 40 پیکسل باعث می‌شود CTA در بین عناصر گم شود.",
    "تحقیقات نشان می‌دهد وجود بیش از یک CTA، conversion را 26% کاهش می‌دهد.",
    "CTA باید رنگی منحصربفرد و متفاوت از سایر عناصر صفحه داشته باشد.",
    "CTA باید بزرگترین و برجسته‌ترین عنصر کلیک‌پذیر صفحه باشد.",
    "حداقل اندازه توصیه‌شده برای CTA: 200×50 پیکسل (موبایل: 48×48)",
    "متن CTA باید حداکثر 2-3 کلمه باشد. از فعل امری کوتاه استفاده کنید.",
    "از عبارات ارزش‌محور مثل 'شروع رایگان' به جای 'ثبت‌نام' استفاده کنید.",
    "هر عنصر کلیک‌پذیر اضافی، احتمال کلیک روی CTA را 8% کاهش می‌دهد.",
    "60% ترافیک از موبایل است. اندازه CTA در موبایل باید حداقل 48×48 پیکسل باشد.",
    "کاربر باید بلافاصله پس از کلیک، بازخورد بصری (loading، تغییر رنگ) ببیند.",
    "کاربران در 8-10 ثانیه اول تصمیم می‌گیرند. محتوا را خلاصه کنید.",
    "افزایش کنتراست به 4.5:1 می‌تواند conversion را تا 35% افزایش دهد.",
    "قرارگیری CTA در 500 پیکسل اول با scroll depth بالا، نشانه طراحی خوب است.",
    "اندازه مناسب CTA منجر به نرخ کلیک بالاتر شده است."
  ]

  /** Where a rule stands in the declaration order of the table. */
  function Position(id: RuleId): nat {
    match id
    case V1 => 0
    case V2 => 1
    case V3 => 2
    case V4 => 3
    case V5 => 4
    case V6 => 5
    case C1 => 6
    case C2 => 7
    case C3 => 8
    case C4 => 9
    case C5 => 10
    case C6 => 11
    case M1 => 12
    case M2 => 13
    case M3 => 14
    case M4 => 15
  }

  /** V1-V6. */
  function VisibilityRules(): (rs: seq<Rule>)
    ensures |rs| == 6
    ensures forall i :: 0 <= i < |rs| ==> Position(rs[i].id) == 0 + i
    ensures forall r :: r in rs ==> 0.0 < r.certainty <= 1.0
  {
    [
      Rule(V1, 10, 0.95, Visibility),
      Rule(V2, 9, 0.90, Visibility),
      Rule(V3, 8, 0.85, Visibility),
      Rule(V4, 7, 0.80, Visibility),
      Rule(V5, 6, 0.75, Visibility),
      Rule(V6, 5, 0.70, Visibility)
    ]
  }

  /** C1-C6. */
  function ClickabilityRules(): (rs: seq<Rule>)
    ensures |rs| == 6
    ensures forall i :: 0 <= i < |rs| ==> Position(rs[i].id) == 6 + i
    ensures forall r :: r in rs ==> 0.0 < r.certainty <= 1.0
  {
    [
      Rule(C1, 10, 0.95, Clickability),
      Rule(C2, 9, 0.90, Clickability),
      Rule(C3, 8, 0.85, Clickability),
      Rule(C4, 7, 0.80, Clickability),
      Rule(C5, 6, 0.75, Clickability),
      Rule(C6, 5, 0.70, Clickability)
    ]
  }

  /** M1-M4, which combine facts of both kinds. */
  function MixedRules(): (rs: seq<Rule>)
    ensures |rs| == 4
    ensures forall i :: 0 <= i < |rs| ==> Position(rs[i].id) == 12 + i
    ensures forall r :: r in rs ==> 0.0 < r.certainty <= 1.0
  {
    [
      Rule(M1, 9, 0.88, Visibility),
      Rule(M2, 8, 0.82, Clickability),
      Rule(M3, 7, 0.78, Visibility),
      Rule(M4, 6, 0.75, Clickability)
    ]
  }

  /** The rule table, in declaration order. */
  function Rules(): (rs: seq<Rule>)
    ensures |rs| == 16
    ensures forall i :: 0 <= i < |rs| ==> Position(rs[i].id) == i
    ensures forall r :: r in rs ==> 0.0 < r.certainty <= 1.0
  {
    VisibilityRules() + ClickabilityRules() + MixedRules()
  }

  /** Every certainty of the table is a whole number of hundredths. */
  lemma RuleCertaintiesTwoDecimals()
    ensures forall r :: r in Rules() ==> Certainty.TwoDecimals(r.certainty)
  {
    var rs := Rules();
    forall r | r in rs ensures Certainty.TwoDecimals(r.certainty) {
      var i :| 0 <= i < |rs| && rs[i] == r;
      Certainty.Round2Keeps(r.certainty);
    }
  }

  /** Rule ids are unique across the table. */
  lemma RuleIdsUnique()
    ensures forall i, j :: 0 <= i < j < |Rules()| ==> Rules()[i].id != Rules()[j].id
  {
    var rs := Rules();
    forall i, j | 0 <= i < j < |rs| ensures rs[i].id != rs[j].id {
      assert Position(rs[i].id) != Position(rs[j].id);
    }
  }

  /**
    A condition only fails when a fact it reads is missing, or is a label
    where it compares numbers; a fact it does not read never matters.
  */
  lemma ConditionFailsOnlyOnItsFacts(id: RuleId, d: FactMap)
    requires forall k :: k in Reads(id) ==> k in d && (IsDerived(k) || d[k].Num?)
    ensures Condition(id, d).Some?
  {
  }

  lemma ConditionReadsOnlyItsFacts(id: RuleId, d: FactMap, e: FactMap)
    requires forall k :: k in Reads(id) ==> (k in d <==> k in e) && (k in d ==> d[k] == e[k])
    ensures Condition(id, d) == Condition(id, e)
  {
  }
}
