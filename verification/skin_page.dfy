/**
 * The skin-analysis page: five yes/no quiz answers, a priority decision that
 * turns them into one of five skin-type labels, and the list of tips shown for
 * the label (plus a sun-protection tip for skin that burns easily).
 */
module SkinPage {
  import opened Numbers

  /** The quiz answers; the page starts with all five unchecked. */
  datatype QuizState = QuizState(oily: bool, dry: bool, sensitive: bool, acne: bool, sunburns: bool)

  /** The five checkbox names, `keyof QuizState`. */
  datatype QuizKey = Oily | Dry | Sensitive | Acne | Sunburns

  const InitialQuiz: QuizState := QuizState(false, false, false, false, false)

  /** The answer stored under one key. */
  function Answer(quiz: QuizState, key: QuizKey): bool {
    match key
    case Oily => quiz.oily
    case Dry => quiz.dry
    case Sensitive => quiz.sensitive
    case Acne => quiz.acne
    case Sunburns => quiz.sunburns
  }

  /**
   * handleQuizChange's `{ ...quiz, [key]: checked }`: the toggled answer
   * becomes `checked` and the other four stay as they were.
   */
  function HandleQuizChange(quiz: QuizState, key: QuizKey, checked: bool): (next: QuizState)
    ensures Answer(next, key) == checked
    ensures forall k :: k != key ==> Answer(next, k) == Answer(quiz, k)
  {
    match key
    case Oily => quiz.(oily := checked)
    case Dry => quiz.(dry := checked)
    case Sensitive => quiz.(sensitive := checked)
    case Acne => quiz.(acne := checked)
    case Sunburns => quiz.(sunburns := checked)
  }

  /** Two quiz states with the same five answers are the same state. */
  lemma AnswersDetermineQuiz(p: QuizState, q: QuizState)
    requires forall k :: Answer(p, k) == Answer(q, k)
    ensures p == q
  {
    assert Answer(p, Oily) == Answer(q, Oily) && Answer(p, Dry) == Answer(q, Dry);
    assert Answer(p, Sensitive) == Answer(q, Sensitive) && Answer(p, Acne) == Answer(q, Acne);
    assert Answer(p, Sunburns) == Answer(q, Sunburns);
  }

  /** Unticking a box just ticked, or ticking it back, restores the earlier answers. */
  lemma ChangeUndone(quiz: QuizState, key: QuizKey, checked: bool)
    ensures HandleQuizChange(HandleQuizChange(quiz, key, checked), key, Answer(quiz, key)) == quiz
  {
    var back := HandleQuizChange(HandleQuizChange(quiz, key, checked), key, Answer(quiz, key));
    AnswersDetermineQuiz(back, quiz);
  }

  // ---------------------------------------------------------------------------
  // detectSkinTypeFromQuiz
  // ---------------------------------------------------------------------------

  /** The labels the detection returns; `NotDetermined` stands for a missing quiz. */
  datatype SkinType = NotDetermined | SensitiveSkin | OilyAcneProne | OilySkin | DrySkin | NormalCombination {
    function Label(): string {
      match this
      case NotDetermined => "Not determined"
      case SensitiveSkin => "Sensitive"
      case OilyAcneProne => "Oily / Acne-prone"
      case OilySkin => "Oily"
      case DrySkin => "Dry"
      case NormalCombination => "Normal / Combination"
    }
  }

  /**
   * The skin type of the quiz answers: sensitive skin first, then oily skin
   * with acne, oily skin, dry skin, and normal or combination skin otherwise.
   * The sunburn answer plays no part.
   */
  function DetectSkinTypeFromQuiz(quiz: Option<QuizState>): (t: SkinType)
    ensures t == NotDetermined <==> quiz.None?
    ensures quiz.Some? ==> (t == SensitiveSkin <==> quiz.value.sensitive)
    ensures quiz.Some? ==> (t == OilyAcneProne <==> !quiz.value.sensitive && quiz.value.oily && quiz.value.acne)
    ensures quiz.Some? ==> (t == OilySkin <==> !quiz.value.sensitive && quiz.value.oily && !quiz.value.acne)
    ensures quiz.Some? ==> (t == DrySkin <==> !quiz.value.sensitive && !quiz.value.oily && quiz.value.dry)
    ensures quiz.Some? ==> (t == NormalCombination <==> !quiz.value.sensitive && !quiz.value.oily && !quiz.value.dry)
  {
    match quiz
    case None => NotDetermined
    case Some(q) =>
      if q.sensitive then SensitiveSkin
      else if q.oily && q.acne then OilyAcneProne
      else if q.oily then OilySkin
      else if q.dry then DrySkin
      else NormalCombination
  }

  /** Whether the skin burns easily never changes the skin type. */
  lemma SunburnsIrrelevant(quiz: QuizState, burns: bool)
    ensures DetectSkinTypeFromQuiz(Some(quiz.(sunburns := burns))) == DetectSkinTypeFromQuiz(Some(quiz))
  {
  }

  // ---------------------------------------------------------------------------
  // The tips list
  // ---------------------------------------------------------------------------

  const SpfTip: string := "Use broad-spectrum SPF 30+ daily and reapply when outdoors."
  const OilyTip: string := "Use gentle, water-based cleansers and non-comedogenic moisturizers."
  const AcneTip: string := "Consider products with salicylic acid and niacinamide."
  const HeavyOilTip: string := "Avoid heavy oils and pore-clogging ingredients."
  const DryTip: string := "Use occlusive moisturizers, hyaluronic acid serums, and avoid harsh soaps."
  const SensitiveTip: string := "Patch-test new products and avoid fragrance-heavy formulas."
  const NormalTip: string := "Maintain a balanced routine: gentle cleanser, light moisturizer, SPF."

  /**
   * The list items rendered for a skin type: the page tests the label against
   * each of the five names in turn and renders that name's items when it
   * matches. The SPF tip is never part of a group.
   */
  function TipGroup(t: SkinType): (tips: seq<string>)
    ensures SpfTip !in tips
    ensures t == OilyAcneProne ==> tips == [AcneTip, HeavyOilTip]
  {
    (if t == OilySkin then [OilyTip] else [])
    + (if t == OilyAcneProne then [AcneTip, HeavyOilTip] else [])
    + (if t == DrySkin then [DryTip] else [])
    + (if t == SensitiveSkin then [SensitiveTip] else [])
    + (if t == NormalCombination then [NormalTip] else [])
  }

  /**
   * Every skin type renders exactly one group, of one or two items (two only
   * for oily skin with acne); the missing-quiz label renders none.
   */
  lemma TipGroupShape(t: SkinType)
    ensures t != NotDetermined ==> 1 <= |TipGroup(t)| <= 2
    ensures |TipGroup(t)| == 2 <==> t == OilyAcneProne
    ensures t == NotDetermined ==> TipGroup(t) == []
  {
  }

  /** The whole list: the skin type's group, then the SPF tip when the skin burns easily. */
  function Tips(t: SkinType, sunburns: bool): (tips: seq<string>)
    ensures |tips| == |TipGroup(t)| + (if sunburns then 1 else 0)
    ensures tips[..|TipGroup(t)|] == TipGroup(t)
    ensures sunburns ==> tips[|tips| - 1] == SpfTip
  {
    TipGroup(t) + (if sunburns then [SpfTip] else [])
  }

  /**
   * The page opens with every box unticked: normal or combination skin, with
   * its single tip and no SPF tip.
   */
  lemma InitialQuizShown()
    ensures DetectSkinTypeFromQuiz(Some(InitialQuiz)) == NormalCombination
    ensures Tips(DetectSkinTypeFromQuiz(Some(InitialQuiz)), InitialQuiz.sunburns) == [NormalTip]
  {
  }

  /**
   * The page's quiz is never null (it starts all unchecked and each change
   * builds another quiz), so the label shown is one of the five skin types
   * and the list holds its one group and, for skin that burns easily, the
   * SPF tip: between one and three items.
   */
  lemma ShownTips(quiz: QuizState)
    ensures var t := DetectSkinTypeFromQuiz(Some(quiz));
      t != NotDetermined && 1 <= |Tips(t, quiz.sunburns)| <= 3
      && (quiz.sunburns <==> |Tips(t, quiz.sunburns)| == |TipGroup(t)| + 1)
  {
    TipGroupShape(DetectSkinTypeFromQuiz(Some(quiz)));
  }
}
