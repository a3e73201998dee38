/**
 * The STAR of Well-Being questionnaire and its scoring.
 *
 * Twelve items, each an "Inherent" (natural strength) or a "Coherent"
 * (learned behaviour) attribute, are answered on a four-star scale scored
 * 0..3. Each category reports its raw total, its rounded share of 3 per
 * answer given and a well-being level; each named attribute reports its raw
 * total and rounded share; the overall level pools both categories. A fixed
 * set of rules turns a result into an ordered list of advice texts.
 */
module Star {
  import opened Wrappers
  import opened Percent
  import opened Text

  datatype StarCategory = Inherent | Coherent

  /** The option keys '1'..'4'. */
  datatype StarKey = One | Two | Three | Four

  datatype StarOption = StarOption(stars: int, text: string, score: int)

  datatype StarOptions = StarOptions(one: StarOption, two: StarOption, three: StarOption, four: StarOption)

  datatype StarQuestion = StarQuestion(
    id: int, level: int, category: StarCategory, attribute: string, text: string, options: StarOptions)

  datatype StarUserAnswer = StarUserAnswer(questionId: int, selectedOption: StarKey, score: int)

  datatype WellbeingLevel = Low | Moderate | High | Excellent

  datatype AttributeScore = AttributeScore(score: int, percentage: int)

  datatype InherentAttributes = InherentAttributes(
    resilience: AttributeScore, optimism: AttributeScore,
    emotionalIntelligence: AttributeScore, selfAwareness: AttributeScore)

  datatype CoherentAttributes = CoherentAttributes(
    mindfulness: AttributeScore, healthyRelationships: AttributeScore,
    workLifeBalance: AttributeScore, healthyHabits: AttributeScore)

  datatype InherentResult = InherentResult(
    score: int, percentage: int, level: WellbeingLevel, attributes: InherentAttributes)

  datatype CoherentResult = CoherentResult(
    score: int, percentage: int, level: WellbeingLevel, attributes: CoherentAttributes)

  datatype StarAssessmentResult = StarAssessmentResult(
    inherent: InherentResult, coherent: CoherentResult, overallScore: int, overallLevel: WellbeingLevel)

  /** The option a key selects. */
  function StarOptionOf(q: StarQuestion, k: StarKey): StarOption
  {
    match k
    case One => q.options.one
    case Two => q.options.two
    case Three => q.options.three
    case Four => q.options.four
  }

  /** The number of stars a key shows. */
  function KeyStars(k: StarKey): nat
  {
    match k
    case One => 1
    case Two => 2
    case Three => 3
    case Four => 4
  }

  function LevelRank(l: WellbeingLevel): nat
  {
    match l
    case Low => 0
    case Moderate => 1
    case High => 2
    case Excellent => 3
  }

  const StarStandardOptions: StarOptions := StarOptions(
    StarOption(1, "Never", 0),
    StarOption(2, "Sometimes", 1),
    StarOption(3, "Often", 2),
    StarOption(4, "Almost Always", 3))

  /** The twelve items in questionnaire order, three per level. */
  const StarQuestions: seq<StarQuestion> := [
    StarQuestion(101, 1, Inherent, "Resilience", "I bounce back quickly from setbacks and challenges", StarStandardOptions),
    StarQuestion(102, 1, Inherent, "Optimism", "I generally expect positive outcomes in my life", StarStandardOptions),
    StarQuestion(103, 1, Coherent, "Mindfulness", "I practice being present and aware in the moment", StarStandardOptions),
    StarQuestion(104, 2, Inherent, "Emotional_Intelligence", "I understand and manage my emotions effectively", StarStandardOptions),
    StarQuestion(105, 2, Coherent, "Healthy_Relationships", "I maintain positive and supportive relationships", StarStandardOptions),
    StarQuestion(106, 2, Inherent, "Self_Awareness", "I have a clear understanding of my strengths and weaknesses", StarStandardOptions),
    StarQuestion(107, 3, Coherent, "Work_Life_Balance", "I maintain a healthy balance between work and personal life", StarStandardOptions),
    StarQuestion(108, 3, Coherent, "Healthy_Habits", "I consistently practice healthy habits (exercise, nutrition, sleep)", StarStandardOptions),
    StarQuestion(109, 3, Inherent, "Resilience", "I learn and grow from difficult experiences", StarStandardOptions),
    StarQuestion(110, 4, Coherent, "Mindfulness", "I regularly engage in mindfulness or meditation practices", StarStandardOptions),
    StarQuestion(111, 4, Inherent, "Optimism", "I maintain a positive outlook even during challenging times", StarStandardOptions),
    StarQuestion(112, 4, Inherent, "Emotional_Intelligence", "I can empathize with and understand others' perspectives", StarStandardOptions)
  ]

  // ---------------------------------------------------------------------
  // Catalog lookups and filters
  // ---------------------------------------------------------------------

  // The lookup, maximum, filter and sum helpers below repeat the DASS-21 ones
  // over the STAR types, as the two source files each define their own.
  /** The first question of `qs` with the given id (`find`). */
  function FindStar(qs: seq<StarQuestion>, id: int): (r: Option<StarQuestion>)
    ensures r.Some? ==> r.value.id == id && r.value in qs
  {
    if qs == [] then None
    else if qs[0].id == id then Some(qs[0])
    else FindStar(qs[1..], id)
  }

  /** The lookup fails exactly when no question has the id. */
  lemma {:induction false} FindStarNone(qs: seq<StarQuestion>, id: int)
    ensures FindStar(qs, id).None? <==> forall i :: 0 <= i < |qs| ==> qs[i].id != id
  {
    if qs != [] && qs[0].id != id {
      FindStarNone(qs[1..], id);
      assert forall i :: 1 <= i < |qs| ==> qs[i] == qs[1..][i - 1];
    }
  }

  /** The questions of `qs` at `level`, in order. */
  function FilterStarLevel(qs: seq<StarQuestion>, level: int): (r: seq<StarQuestion>)
    ensures |r| <= |qs|
  {
    if qs == [] then []
    else if qs[0].level == level then [qs[0]] + FilterStarLevel(qs[1..], level)
    else FilterStarLevel(qs[1..], level)
  }

  /** Every question the level filter keeps is at that level. */
  lemma {:induction false} FilterStarLevelSpec(qs: seq<StarQuestion>, level: int)
    ensures forall i :: 0 <= i < |FilterStarLevel(qs, level)| ==> FilterStarLevel(qs, level)[i].level == level
  {
    if qs != [] {
      FilterStarLevelSpec(qs[1..], level);
    }
  }

  /** The questions of `qs` in category `c`, in order. */
  function FilterStarCategory(qs: seq<StarQuestion>, c: StarCategory): (r: seq<StarQuestion>)
    ensures |r| <= |qs|
    ensures forall i :: 0 <= i < |r| ==> r[i].category == c
  {
    if qs == [] then []
    else if qs[0].category == c then [qs[0]] + FilterStarCategory(qs[1..], c)
    else FilterStarCategory(qs[1..], c)
  }

  /** The questions of `qs` whose attribute equals `attribute` up to case, in order. */
  function FilterStarAttribute(qs: seq<StarQuestion>, attribute: string): (r: seq<StarQuestion>)
    ensures |r| <= |qs|
    ensures forall i :: 0 <= i < |r| ==> ToLower(r[i].attribute) == ToLower(attribute)
  {
    if qs == [] then []
    else if ToLower(qs[0].attribute) == ToLower(attribute) then [qs[0]] + FilterStarAttribute(qs[1..], attribute)
    else FilterStarAttribute(qs[1..], attribute)
  }

  function GetStarQuestionsByLevel(level: int): seq<StarQuestion>
  {
    FilterStarLevel(StarQuestions, level)
  }

  function GetStarQuestionsByCategory(c: StarCategory): seq<StarQuestion>
  {
    FilterStarCategory(StarQuestions, c)
  }

  function GetStarQuestionsByAttribute(attribute: string): seq<StarQuestion>
  {
    FilterStarAttribute(StarQuestions, attribute)
  }

  function GetTotalStarQuestions(): (r: nat)
    ensures r == 12
  {
    |StarQuestions|
  }

  /** The largest level in a non-empty list of questions (`Math.max`). */
  function MaxStarLevelOf(qs: seq<StarQuestion>): (r: int)
    requires |qs| > 0
    ensures forall i :: 0 <= i < |qs| ==> qs[i].level <= r
    ensures exists i :: 0 <= i < |qs| && qs[i].level == r
  {
    if |qs| == 1 then qs[0].level
    else
      var rest := MaxStarLevelOf(qs[1..]);
      if qs[0].level >= rest then qs[0].level else rest
  }

  function GetMaxStarLevel(): int
  {
    MaxStarLevelOf(StarQuestions)
  }

  // ---------------------------------------------------------------------
  // Scoring
  // ---------------------------------------------------------------------

  /** The category of an answer's question in `catalog`; None when no question has its id.
      The scoring functions take the catalog as a parameter; `CalculateStarResults`
      passes `StarQuestions`. */
  function CategoryIn(catalog: seq<StarQuestion>, a: StarUserAnswer): Option<StarCategory>
  {
    match FindStar(catalog, a.questionId)
    case None => None
    case Some(q) => Some(q.category)
  }

  /** The answer's question exists and its attribute equals `attribute` up to case. */
  predicate HasAttribute(catalog: seq<StarQuestion>, a: StarUserAnswer, attribute: string)
  {
    match FindStar(catalog, a.questionId)
    case None => false
    case Some(q) => ToLower(q.attribute) == ToLower(attribute)
  }

  /** The answers whose question is in category `c`, in order. */
  function AnswersInCategory(catalog: seq<StarQuestion>, answers: seq<StarUserAnswer>, c: StarCategory)
    : (r: seq<StarUserAnswer>)
    ensures |r| <= |answers|
  {
    if answers == [] then []
    else if CategoryIn(catalog, answers[0]) == Some(c) then [answers[0]] + AnswersInCategory(catalog, answers[1..], c)
    else AnswersInCategory(catalog, answers[1..], c)
  }

  /** Every answer kept is one of the answers given, in category `c`. */
  lemma {:induction false} AnswersInCategorySpec(catalog: seq<StarQuestion>, answers: seq<StarUserAnswer>, c: StarCategory)
    ensures forall i :: 0 <= i < |AnswersInCategory(catalog, answers, c)| ==>
              AnswersInCategory(catalog, answers, c)[i] in answers &&
              CategoryIn(catalog, AnswersInCategory(catalog, answers, c)[i]) == Some(c)
  {
    if answers != [] {
      AnswersInCategorySpec(catalog, answers[1..], c);
    }
  }

  /** The answers whose question carries `attribute` (up to case), in order. */
  function AnswersWithAttribute(catalog: seq<StarQuestion>, answers: seq<StarUserAnswer>, attribute: string)
    : (r: seq<StarUserAnswer>)
    ensures |r| <= |answers|
  {
    if answers == [] then []
    else if HasAttribute(catalog, answers[0], attribute) then [answers[0]] + AnswersWithAttribute(catalog, answers[1..], attribute)
    else AnswersWithAttribute(catalog, answers[1..], attribute)
  }

  /** Every answer kept is one of the answers given, carrying `attribute`. */
  lemma {:induction false} AnswersWithAttributeSpec(catalog: seq<StarQuestion>, answers: seq<StarUserAnswer>, attribute: string)
    ensures forall i :: 0 <= i < |AnswersWithAttribute(catalog, answers, attribute)| ==>
              AnswersWithAttribute(catalog, answers, attribute)[i] in answers &&
              HasAttribute(catalog, AnswersWithAttribute(catalog, answers, attribute)[i], attribute)
  {
    if answers != [] {
      AnswersWithAttributeSpec(catalog, answers[1..], attribute);
    }
  }

  predicate ScoresInRange(answers: seq<StarUserAnswer>)
  {
    forall i :: 0 <= i < |answers| ==> 0 <= answers[i].score <= 3
  }

  /** The sum of the recorded scores (`reduce`). */
  function SumScores(answers: seq<StarUserAnswer>): (r: int)
    ensures ScoresInRange(answers) ==> 0 <= r <= 3 * |answers|
  {
    if answers == [] then 0 else answers[0].score + SumScores(answers[1..])
  }

  /** `calculateAttributeScore`: the raw total of the answers carrying the
      attribute and its rounded share of 3 per such answer; {0, 0} when none does. */
  function CalculateAttributeScore(catalog: seq<StarQuestion>, answers: seq<StarUserAnswer>, attribute: string)
    : (r: AttributeScore)
    ensures AnswersWithAttribute(catalog, answers, attribute) == [] ==> r == AttributeScore(0, 0)
    ensures ScoresInRange(answers) ==> 0 <= r.percentage <= 100 && 0 <= r.score
  {
    var attributeAnswers := AnswersWithAttribute(catalog, answers, attribute);
    if attributeAnswers == [] then AttributeScore(0, 0)
    else
      var rawScore := SumScores(attributeAnswers);
      assert ScoresInRange(answers) ==> 0 <= rawScore <= 3 * |attributeAnswers| &&
                                        0 <= RoundedPercent(rawScore, 3 * |attributeAnswers|) <= 100 by {
        if ScoresInRange(answers) {
          AnswersWithAttributeSpec(catalog, answers, attribute);
          assert ScoresInRange(attributeAnswers) by {
            forall i | 0 <= i < |attributeAnswers| ensures 0 <= attributeAnswers[i].score <= 3 {
              assert attributeAnswers[i] in answers;
            }
          }
          RoundedPercentInRange(rawScore, 3 * |attributeAnswers|);
        }
      }
      AttributeScore(rawScore, RoundedPercent(rawScore, 3 * |attributeAnswers|))
  }

  /** `getWellbeingLevel` applied to the unrounded percentage `total / max * 100`
      (0 when `max` is 0), checked from the top band down. */
  function WellbeingLevelOf(total: int, max: int): WellbeingLevel
  {
    if PercentAtLeast(total, max, 80) then Excellent
    else if PercentAtLeast(total, max, 60) then High
    else if PercentAtLeast(total, max, 40) then Moderate
    else Low
  }

  /** `getWellbeingLevel` applied to an integer percentage. */
  function LevelOfPercent(p: int): WellbeingLevel
  {
    if p >= 80 then Excellent else if p >= 60 then High else if p >= 40 then Moderate else Low
  }

  /** The attribute names the scoring passes to `calculateAttributeScore`. */
  const ResilienceName: string := "Resilience"
  const OptimismName: string := "Optimism"
  const EmotionalIntelligenceName: string := "Emotional_Intelligence"
  const SelfAwarenessName: string := "Self_Awareness"
  const MindfulnessName: string := "Mindfulness"
  const HealthyRelationshipsName: string := "Healthy_Relationships"
  const WorkLifeBalanceName: string := "Work_Life_Balance"
  const HealthyHabitsName: string := "Healthy_Habits"

  /** The four Inherent attribute scores, from the Inherent answers. */
  function InherentAttributesOf(catalog: seq<StarQuestion>, inherentAnswers: seq<StarUserAnswer>): InherentAttributes
  {
    InherentAttributes(
      CalculateAttributeScore(catalog, inherentAnswers, ResilienceName),
      CalculateAttributeScore(catalog, inherentAnswers, OptimismName),
      CalculateAttributeScore(catalog, inherentAnswers, EmotionalIntelligenceName),
      CalculateAttributeScore(catalog, inherentAnswers, SelfAwarenessName))
  }

  /** The four Coherent attribute scores, from the Coherent answers. */
  function CoherentAttributesOf(catalog: seq<StarQuestion>, coherentAnswers: seq<StarUserAnswer>): CoherentAttributes
  {
    CoherentAttributes(
      CalculateAttributeScore(catalog, coherentAnswers, MindfulnessName),
      CalculateAttributeScore(catalog, coherentAnswers, HealthyRelationshipsName),
      CalculateAttributeScore(catalog, coherentAnswers, WorkLifeBalanceName),
      CalculateAttributeScore(catalog, coherentAnswers, HealthyHabitsName))
  }

  /** The Inherent section of the result, from the Inherent answers. Its
      level is taken from the unrounded percentage; the reported percentage
      is rounded. */
  function InherentResultOf(catalog: seq<StarQuestion>, inherentAnswers: seq<StarUserAnswer>): InherentResult
  {
    var total := SumScores(inherentAnswers);
    var max := |inherentAnswers| * 3;
    InherentResult(total, RoundedPercent(total, max), WellbeingLevelOf(total, max),
                   InherentAttributesOf(catalog, inherentAnswers))
  }

  /** The Coherent section of the result, from the Coherent answers. */
  function CoherentResultOf(catalog: seq<StarQuestion>, coherentAnswers: seq<StarUserAnswer>): CoherentResult
  {
    var total := SumScores(coherentAnswers);
    var max := |coherentAnswers| * 3;
    CoherentResult(total, RoundedPercent(total, max), WellbeingLevelOf(total, max),
                   CoherentAttributesOf(catalog, coherentAnswers))
  }

  /** The overall level: the band of both totals pooled over both maxima. */
  function PooledLevel(inherentAnswers: seq<StarUserAnswer>, coherentAnswers: seq<StarUserAnswer>): WellbeingLevel
  {
    WellbeingLevelOf(SumScores(inherentAnswers) + SumScores(coherentAnswers),
                     |inherentAnswers| * 3 + |coherentAnswers| * 3)
  }

  /** The body of `calculateStarResults`, looking questions up in `catalog`:
      the overall level is the band of the pooled totals. */
  function StarResultsWith(catalog: seq<StarQuestion>, answers: seq<StarUserAnswer>): StarAssessmentResult
  {
    var inherentAnswers := AnswersInCategory(catalog, answers, Inherent);
    var coherentAnswers := AnswersInCategory(catalog, answers, Coherent);
    StarAssessmentResult(
      InherentResultOf(catalog, inherentAnswers),
      CoherentResultOf(catalog, coherentAnswers),
      SumScores(inherentAnswers) + SumScores(coherentAnswers),
      PooledLevel(inherentAnswers, coherentAnswers))
  }

  /** `calculateStarResults`: the answers scored against the STAR catalog. */
  function CalculateStarResults(answers: seq<StarUserAnswer>): StarAssessmentResult
  {
    StarResultsWith(StarQuestions, answers)
  }

  // ---------------------------------------------------------------------
  // Views of a result by category and by attribute
  // ---------------------------------------------------------------------

  function ScoreOf(r: StarAssessmentResult, c: StarCategory): int
  {
    match c
    case Inherent => r.inherent.score
    case Coherent => r.coherent.score
  }

  function PercentageOf(r: StarAssessmentResult, c: StarCategory): int
  {
    match c
    case Inherent => r.inherent.percentage
    case Coherent => r.coherent.percentage
  }

  function LevelOf(r: StarAssessmentResult, c: StarCategory): WellbeingLevel
  {
    match c
    case Inherent => r.inherent.level
    case Coherent => r.coherent.level
  }

  /** The eight attributes a result reports. */
  datatype Attribute =
    | Resilience | Optimism | EmotionalIntelligence | SelfAwareness
    | Mindfulness | HealthyRelationships | WorkLifeBalance | HealthyHabits

  /** The category whose answers an attribute is scored from. */
  function AttributeCategory(a: Attribute): StarCategory
  {
    match a
    case Resilience | Optimism | EmotionalIntelligence | SelfAwareness => Inherent
    case _ => Coherent
  }

  /** The name the scoring passes for an attribute. */
  function AttributeName(a: Attribute): string
  {
    match a
    case Resilience => ResilienceName
    case Optimism => OptimismName
    case EmotionalIntelligence => EmotionalIntelligenceName
    case SelfAwareness => SelfAwarenessName
    case Mindfulness => MindfulnessName
    case HealthyRelationships => HealthyRelationshipsName
    case WorkLifeBalance => WorkLifeBalanceName
    case HealthyHabits => HealthyHabitsName
  }

  function AttributeOf(r: StarAssessmentResult, a: Attribute): AttributeScore
  {
    match a
    case Resilience => r.inherent.attributes.resilience
    case Optimism => r.inherent.attributes.optimism
    case EmotionalIntelligence => r.inherent.attributes.emotionalIntelligence
    case SelfAwareness => r.inherent.attributes.selfAwareness
    case Mindfulness => r.coherent.attributes.mindfulness
    case HealthyRelationships => r.coherent.attributes.healthyRelationships
    case WorkLifeBalance => r.coherent.attributes.workLifeBalance
    case HealthyHabits => r.coherent.attributes.healthyHabits
  }

  // ---------------------------------------------------------------------
  // Reference definitions: one pass over the answers, no filtering
  // ---------------------------------------------------------------------

  /** The sum of the scores of the answers whose question is in category `c`. */
  function CategoryTotal(catalog: seq<StarQuestion>, answers: seq<StarUserAnswer>, c: StarCategory): int
  {
    if answers == [] then 0
    else (if CategoryIn(catalog, answers[0]) == Some(c) then answers[0].score else 0)
         + CategoryTotal(catalog, answers[1..], c)
  }

  function CategoryCount(catalog: seq<StarQuestion>, answers: seq<StarUserAnswer>, c: StarCategory): nat
  {
    if answers == [] then 0
    else (if CategoryIn(catalog, answers[0]) == Some(c) then 1 else 0) + CategoryCount(catalog, answers[1..], c)
  }

  /** The pooled total of the answers in either category. */
  function OverallTotal(catalog: seq<StarQuestion>, answers: seq<StarUserAnswer>): int
  {
    CategoryTotal(catalog, answers, Inherent) + CategoryTotal(catalog, answers, Coherent)
  }

  /** The pooled maximum: 3 points per answer in either category. */
  function OverallMax(catalog: seq<StarQuestion>, answers: seq<StarUserAnswer>): int
  {
    3 * (CategoryCount(catalog, answers, Inherent) + CategoryCount(catalog, answers, Coherent))
  }

  /** The answer's question is in category `c` and carries `attribute` up to case. */
  predicate Counts(catalog: seq<StarQuestion>, a: StarUserAnswer, c: StarCategory, attribute: string)
  {
    match FindStar(catalog, a.questionId)
    case None => false
    case Some(q) => q.category == c && ToLower(q.attribute) == ToLower(attribute)
  }

  function AttributeTotal(catalog: seq<StarQuestion>, answers: seq<StarUserAnswer>, c: StarCategory, attribute: string): int
  {
    if answers == [] then 0
    else (if Counts(catalog, answers[0], c, attribute) then answers[0].score else 0)
         + AttributeTotal(catalog, answers[1..], c, attribute)
  }

  function AttributeCount(catalog: seq<StarQuestion>, answers: seq<StarUserAnswer>, c: StarCategory, attribute: string): nat
  {
    if answers == [] then 0
    else (if Counts(catalog, answers[0], c, attribute) then 1 else 0)
         + AttributeCount(catalog, answers[1..], c, attribute)
  }

  // ---------------------------------------------------------------------
  // Lemmas: the filtered sums agree with the one-pass reference
  // ---------------------------------------------------------------------

  lemma {:induction false} SumScoresAppend(x: seq<StarUserAnswer>, y: seq<StarUserAnswer>)
    ensures SumScores(x + y) == SumScores(x) + SumScores(y)
  {
    if x == [] {
      assert x + y == y;
    } else {
      assert (x + y)[0] == x[0] && (x + y)[1..] == x[1..] + y;
      SumScoresAppend(x[1..], y);
    }
  }

  lemma {:induction false} CategoryFilterSum(catalog: seq<StarQuestion>, answers: seq<StarUserAnswer>, c: StarCategory)
    ensures SumScores(AnswersInCategory(catalog, answers, c)) == CategoryTotal(catalog, answers, c)
    ensures |AnswersInCategory(catalog, answers, c)| == CategoryCount(catalog, answers, c)
    ensures |AnswersInCategory(catalog, answers, c)| * 3 == 3 * CategoryCount(catalog, answers, c)
  {
    if answers != [] {
      CategoryFilterSum(catalog, answers[1..], c);
      if CategoryIn(catalog, answers[0]) == Some(c) {
        SumScoresAppend([answers[0]], AnswersInCategory(catalog, answers[1..], c));
      }
    }
  }

  /** Filtering by category and then by attribute keeps exactly the answers that count for both. */
  lemma {:induction false} AttributeFilterSum(catalog: seq<StarQuestion>, answers: seq<StarUserAnswer>, c: StarCategory, attribute: string)
    ensures var f := AnswersWithAttribute(catalog, AnswersInCategory(catalog, answers, c), attribute);
            SumScores(f) == AttributeTotal(catalog, answers, c, attribute) &&
            |f| == AttributeCount(catalog, answers, c, attribute)
  {
    if answers != [] {
      AttributeFilterSum(catalog, answers[1..], c, attribute);
      var a := answers[0];
      var rest := AnswersInCategory(catalog, answers[1..], c);
      if CategoryIn(catalog, a) == Some(c) {
        assert AnswersInCategory(catalog, answers, c) == [a] + rest;
        assert ([a] + rest)[0] == a && ([a] + rest)[1..] == rest;
        if HasAttribute(catalog, a, attribute) {
          SumScoresAppend([a], AnswersWithAttribute(catalog, rest, attribute));
        }
      }
    }
  }

  /** Each category reports its one-pass total as its score. */
  lemma {:induction false} CategoryScoreSpec(catalog: seq<StarQuestion>, answers: seq<StarUserAnswer>, c: StarCategory)
    ensures ScoreOf(StarResultsWith(catalog, answers), c) == CategoryTotal(catalog, answers, c)
  {
    CategoryFilterSum(catalog, answers, c);
  }

  /** Each category reports the rounded share of its total in 3 points per
      answer in the category, and 0 when it has no answers. */
  lemma {:induction false} CategoryPercentageSpec(catalog: seq<StarQuestion>, answers: seq<StarUserAnswer>, c: StarCategory)
    ensures PercentageOf(StarResultsWith(catalog, answers), c) ==
              RoundedPercent(CategoryTotal(catalog, answers, c), 3 * CategoryCount(catalog, answers, c))
    ensures CategoryCount(catalog, answers, c) == 0 ==> PercentageOf(StarResultsWith(catalog, answers), c) == 0
  {
    CategoryFilterSum(catalog, answers, c);
  }

  /** Each category's level is the band of its unrounded share. */
  lemma {:induction false} CategoryLevelSpec(catalog: seq<StarQuestion>, answers: seq<StarUserAnswer>, c: StarCategory)
    ensures LevelOf(StarResultsWith(catalog, answers), c) ==
              WellbeingLevelOf(CategoryTotal(catalog, answers, c), 3 * CategoryCount(catalog, answers, c))
  {
    CategoryFilterSum(catalog, answers, c);
  }

  /** The overall score adds the two category totals. */
  lemma {:induction false} OverallScoreSpec(catalog: seq<StarQuestion>, answers: seq<StarUserAnswer>)
    ensures StarResultsWith(catalog, answers).overallScore == OverallTotal(catalog, answers)
  {
    CategoryFilterSum(catalog, answers, Inherent);
    CategoryFilterSum(catalog, answers, Coherent);
  }

  /** The overall level is the band of the pooled share (both totals over 3
      points per answer in either category), not of the mean of the two
      percentages. */
  lemma {:induction false} OverallLevelSpec(catalog: seq<StarQuestion>, answers: seq<StarUserAnswer>)
    ensures StarResultsWith(catalog, answers).overallLevel ==
              WellbeingLevelOf(OverallTotal(catalog, answers), OverallMax(catalog, answers))
  {
    var ia, ca := AnswersInCategory(catalog, answers, Inherent), AnswersInCategory(catalog, answers, Coherent);
    assert StarResultsWith(catalog, answers).overallLevel == PooledLevel(ia, ca);
    CategoryFilterSum(catalog, answers, Inherent);
    CategoryFilterSum(catalog, answers, Coherent);
    assert SumScores(ia) + SumScores(ca) == OverallTotal(catalog, answers);
    assert |ia| * 3 + |ca| * 3 == OverallMax(catalog, answers);
  }

  /** Each attribute reports the one-pass total of the answers in its
      category that carry it, and that total's rounded share of 3 per such
      answer; {0, 0} when no answer carries it. */
  lemma {:induction false} AttributeSpec(catalog: seq<StarQuestion>, answers: seq<StarUserAnswer>, a: Attribute)
    ensures var total := AttributeTotal(catalog, answers, AttributeCategory(a), AttributeName(a));
            var count := AttributeCount(catalog, answers, AttributeCategory(a), AttributeName(a));
            AttributeOf(StarResultsWith(catalog, answers), a) ==
              if count == 0 then AttributeScore(0, 0) else AttributeScore(total, RoundedPercent(total, 3 * count))
  {
    var c := AttributeCategory(a);
    AttributeFilterSum(catalog, answers, c, AttributeName(a));
    assert AttributeOf(StarResultsWith(catalog, answers), a) ==
             CalculateAttributeScore(catalog, AnswersInCategory(catalog, answers, c), AttributeName(a));
  }

  /** With every score in 0..3 every reported percentage lies in 0..100. */
  lemma {:induction false} StarPercentagesInRange(catalog: seq<StarQuestion>, answers: seq<StarUserAnswer>, c: StarCategory)
    requires ScoresInRange(answers)
    ensures 0 <= PercentageOf(StarResultsWith(catalog, answers), c) <= 100
    ensures 0 <= ScoreOf(StarResultsWith(catalog, answers), c)
  {
    var total, count := CategoryTotal(catalog, answers, c), CategoryCount(catalog, answers, c);
    CategoryTotalInRange(catalog, answers, c);
    RoundedPercentInRange(total, 3 * count);
    CategoryPercentageSpec(catalog, answers, c);
    CategoryScoreSpec(catalog, answers, c);
  }

  /** With every score in 0..3 a category's total lies between 0 and 3 per answer in it. */
  lemma {:induction false} CategoryTotalInRange(catalog: seq<StarQuestion>, answers: seq<StarUserAnswer>, c: StarCategory)
    requires ScoresInRange(answers)
    ensures 0 <= CategoryTotal(catalog, answers, c) <= 3 * CategoryCount(catalog, answers, c)
  {
    if answers != [] {
      assert ScoresInRange(answers[1..]) by {
        forall i | 0 <= i < |answers[1..]| ensures 0 <= answers[1..][i].score <= 3 {
          assert answers[1..][i] == answers[i + 1];
        }
      }
      CategoryTotalInRange(catalog, answers[1..], c);
    }
  }

  /** Raising the score of one answer, the others fixed, keeps the counts
      and never lowers a category's total. */
  lemma {:induction false} RaiseScoreTotals(catalog: seq<StarQuestion>, x: seq<StarUserAnswer>, a: StarUserAnswer,
                                            y: seq<StarUserAnswer>, s: int, c: StarCategory)
    requires a.score <= s
    ensures CategoryCount(catalog, x + [a.(score := s)] + y, c) == CategoryCount(catalog, x + [a] + y, c)
    ensures CategoryTotal(catalog, x + [a] + y, c) <= CategoryTotal(catalog, x + [a.(score := s)] + y, c)
  {
    var b := a.(score := s);
    if x == [] {
      assert x + [a] + y == [a] + y && ([a] + y)[0] == a && ([a] + y)[1..] == y;
      assert x + [b] + y == [b] + y && ([b] + y)[0] == b && ([b] + y)[1..] == y;
    } else {
      assert (x + [a] + y)[0] == x[0] && (x + [a] + y)[1..] == x[1..] + [a] + y;
      assert (x + [b] + y)[0] == x[0] && (x + [b] + y)[1..] == x[1..] + [b] + y;
      RaiseScoreTotals(catalog, x[1..], a, y, s, c);
    }
  }

  /** Raising the score of one answer, the others fixed, never lowers a
      category's score, percentage or level. */
  lemma RaisingScoreNeverLowers(catalog: seq<StarQuestion>, x: seq<StarUserAnswer>, a: StarUserAnswer,
                                y: seq<StarUserAnswer>, s: int, c: StarCategory)
    requires a.score <= s
    ensures ScoreOf(StarResultsWith(catalog, x + [a] + y), c) <= ScoreOf(StarResultsWith(catalog, x + [a.(score := s)] + y), c)
    ensures PercentageOf(StarResultsWith(catalog, x + [a] + y), c) <=
              PercentageOf(StarResultsWith(catalog, x + [a.(score := s)] + y), c)
    ensures LevelRank(LevelOf(StarResultsWith(catalog, x + [a] + y), c)) <=
              LevelRank(LevelOf(StarResultsWith(catalog, x + [a.(score := s)] + y), c))
  {
    var before, after := x + [a] + y, x + [a.(score := s)] + y;
    RaiseScoreTotals(catalog, x, a, y, s, c);
    CategoryScoreSpec(catalog, before, c);
    CategoryScoreSpec(catalog, after, c);
    CategoryPercentageSpec(catalog, before, c);
    CategoryPercentageSpec(catalog, after, c);
    CategoryLevelSpec(catalog, before, c);
    CategoryLevelSpec(catalog, after, c);
    var t1, t2, max := CategoryTotal(catalog, before, c), CategoryTotal(catalog, after, c), 3 * CategoryCount(catalog, before, c);
    RoundedPercentMonotone(t1, t2, max);
    LevelMonotone(t1, t2, max);
  }

  /** No answers: every score and percentage is 0 and every level is Low. */
  lemma {:induction false} EmptyAnswers(catalog: seq<StarQuestion>)
    ensures var r := StarResultsWith(catalog, []);
            (forall c :: ScoreOf(r, c) == 0 && PercentageOf(r, c) == 0 && LevelOf(r, c) == Low) &&
            (forall a :: AttributeOf(r, a) == AttributeScore(0, 0)) &&
            r.overallScore == 0 && r.overallLevel == Low
  {
    var r := StarResultsWith(catalog, []);
    forall c ensures ScoreOf(r, c) == 0 && PercentageOf(r, c) == 0 && LevelOf(r, c) == Low {
      CategoryScoreSpec(catalog, [], c);
      CategoryPercentageSpec(catalog, [], c);
      CategoryLevelSpec(catalog, [], c);
    }
    OverallScoreSpec(catalog, []);
    OverallLevelSpec(catalog, []);
    forall a ensures AttributeOf(r, a) == AttributeScore(0, 0) {
      AttributeSpec(catalog, [], a);
    }
  }

  // ---------------------------------------------------------------------
  // Lemmas: well-being levels
  // ---------------------------------------------------------------------

  /** The level bands on the unrounded percentage: [80, ..), [60, 80), [40, 60), (.., 40). */
  lemma LevelBands(total: int, max: int)
    requires max > 0
    ensures WellbeingLevelOf(total, max) == Excellent <==> 100 * total >= 80 * max
    ensures WellbeingLevelOf(total, max) == High <==> 60 * max <= 100 * total < 80 * max
    ensures WellbeingLevelOf(total, max) == Moderate <==> 40 * max <= 100 * total < 60 * max
    ensures WellbeingLevelOf(total, max) == Low <==> 100 * total < 40 * max
  {
  }

  /** A larger total never gives a lower level. */
  lemma LevelMonotone(t1: int, t2: int, max: int)
    requires t1 <= t2 && max >= 0
    ensures LevelRank(WellbeingLevelOf(t1, max)) <= LevelRank(WellbeingLevelOf(t2, max))
  {
  }

  /** Over fewer than 40 points (at most 13 answers) rounding never crosses a
      band boundary, so the level is the band of the displayed percentage. */
  lemma {:induction false} LevelAgreesWithRounded(total: int, max: int)
    requires 0 < max < 40
    ensures WellbeingLevelOf(total, max) == LevelOfPercent(RoundedPercent(total, max))
  {
    var p := RoundedPercent(total, max);
    forall t | t == 40 || t == 60 || t == 80
      ensures p >= t <==> PercentAtLeast(total, max, t)
    {
      if PercentAtLeast(total, max, t) {
        RoundedReachesThreshold(total, max, t);
      }
      if !PercentAtLeast(total, max, t) {
        RoundingStaysBelow(total, max, t / 20, p);
      }
    }
  }

  /** Below a band edge `20k` with a maximum under 40, the unrounded share is at
      least a fifth of a point short of the edge, so rounding stays below it. */
  lemma RoundingStaysBelow(total: int, max: int, k: int, p: int)
    requires 0 < max < 40 && 100 * total < 20 * k * max
    requires 2 * max * p <= 200 * total + max
    ensures p < 20 * k
  {
    var m, n := k * max, p * max;
    assert 100 * total < 20 * m && 2 * n <= 200 * total + max;
    // 5 * total < m between integers gives 5 * total + 1 <= m
    assert 200 * total + 40 <= 40 * m;
    if p >= 20 * k {
      MulMonotone(20 * k, p, max);
      assert false;
    }
  }

  /** With 14 answers (42 points) a total of 25 shows as 60 % yet is only
      Moderate: the level is taken before rounding. */
  lemma RoundedLevelMismatch()
    ensures RoundedPercent(25, 42) == 60 && LevelOfPercent(60) == High
    ensures WellbeingLevelOf(25, 42) == Moderate
  {
    RoundedPercentUnique(25, 42, 60);
  }

  // ---------------------------------------------------------------------
  // Lemmas: the catalog
  // ---------------------------------------------------------------------

  lemma StarCatalogIds()
    ensures |StarQuestions| == 12
    ensures forall i :: 0 <= i < |StarQuestions| ==> StarQuestions[i].id == 101 + i
  {
  }

  /** Three questions per level, levels 1 to 4 in order. */
  lemma StarCatalogLevels()
    ensures forall i :: 0 <= i < |StarQuestions| ==> StarQuestions[i].level == i / 3 + 1
    ensures forall i, j :: 0 <= i <= j < |StarQuestions| ==> StarQuestions[i].level <= StarQuestions[j].level
  {
  }

  /** Key n shows n stars and scores n - 1 on every question. */
  lemma StarOptionScores()
    ensures forall i, k :: 0 <= i < |StarQuestions| ==>
              StarOptionOf(StarQuestions[i], k).stars == KeyStars(k) &&
              StarOptionOf(StarQuestions[i], k).score == KeyStars(k) - 1
  {
  }

  /** What the category filter keeps of one question. */
  function CategoryHit(q: StarQuestion, c: StarCategory): seq<StarQuestion>
  {
    if q.category == c then [q] else []
  }

  lemma {:induction false} StarCategoryAppend(x: seq<StarQuestion>, y: seq<StarQuestion>, c: StarCategory)
    ensures FilterStarCategory(x + y, c) == FilterStarCategory(x, c) + FilterStarCategory(y, c)
  {
    if x == [] {
      assert x + y == y;
    } else {
      assert (x + y)[0] == x[0] && (x + y)[1..] == x[1..] + y;
      StarCategoryAppend(x[1..], y, c);
    }
  }

  /** The category filter on a block of three questions. */
  lemma StarCategoryBlock(b: seq<StarQuestion>, c: StarCategory)
    requires |b| == 3
    ensures FilterStarCategory(b, c) == CategoryHit(b[0], c) + CategoryHit(b[1], c) + CategoryHit(b[2], c)
  {
    assert b[1..][1..] == [b[2]] && [b[2]][1..] == [];
    assert FilterStarCategory([b[2]], c) == CategoryHit(b[2], c);
  }

  /** The catalog as four blocks of three questions. */
  lemma StarCatalogBlocks()
    ensures var q := StarQuestions;
            q == [q[0], q[1], q[2]] + [q[3], q[4], q[5]] + [q[6], q[7], q[8]] + [q[9], q[10], q[11]]
  {
  }

  /** The category filter on the catalog, question by question. */
  lemma StarCategorySplit(c: StarCategory)
    ensures var q := StarQuestions;
            GetStarQuestionsByCategory(c) ==
              (CategoryHit(q[0], c) + CategoryHit(q[1], c) + CategoryHit(q[2], c)) +
              (CategoryHit(q[3], c) + CategoryHit(q[4], c) + CategoryHit(q[5], c)) +
              (CategoryHit(q[6], c) + CategoryHit(q[7], c) + CategoryHit(q[8], c)) +
              (CategoryHit(q[9], c) + CategoryHit(q[10], c) + CategoryHit(q[11], c))
  {
    var q := StarQuestions;
    var b1, b2, b3, b4 := [q[0], q[1], q[2]], [q[3], q[4], q[5]], [q[6], q[7], q[8]], [q[9], q[10], q[11]];
    StarCatalogBlocks();
    StarCategoryAppend(b1 + b2 + b3, b4, c);
    StarCategoryAppend(b1 + b2, b3, c);
    StarCategoryAppend(b1, b2, c);
    StarCategoryBlock(b1, c);
    StarCategoryBlock(b2, c);
    StarCategoryBlock(b3, c);
    StarCategoryBlock(b4, c);
  }

  /** Seven Inherent and five Coherent questions, in catalog order. */
  lemma StarQuestionsByCategory()
    ensures GetStarQuestionsByCategory(Inherent) ==
              [StarQuestions[0], StarQuestions[1], StarQuestions[3], StarQuestions[5],
               StarQuestions[8], StarQuestions[10], StarQuestions[11]]
    ensures GetStarQuestionsByCategory(Coherent) ==
              [StarQuestions[2], StarQuestions[4], StarQuestions[6], StarQuestions[7], StarQuestions[9]]
    ensures |GetStarQuestionsByCategory(Inherent)| == 7 && |GetStarQuestionsByCategory(Coherent)| == 5
  {
    StarCategorySplit(Inherent);
    StarCategorySplit(Coherent);
  }

  lemma {:induction false} StarLevelAppend(x: seq<StarQuestion>, y: seq<StarQuestion>, level: int)
    ensures FilterStarLevel(x + y, level) == FilterStarLevel(x, level) + FilterStarLevel(y, level)
  {
    if x == [] {
      assert x + y == y;
    } else {
      assert (x + y)[0] == x[0] && (x + y)[1..] == x[1..] + y;
      StarLevelAppend(x[1..], y, level);
    }
  }

  /** A block of three questions of one level: kept whole by that level's filter, dropped by any other. */
  lemma StarLevelBlock(b: seq<StarQuestion>, blockLevel: int, level: int)
    requires |b| == 3 && b[0].level == blockLevel && b[1].level == blockLevel && b[2].level == blockLevel
    ensures FilterStarLevel(b, level) == if level == blockLevel then b else []
  {
    assert b[1..][1..] == [b[2]] && [b[2]][1..] == [];
    assert FilterStarLevel([b[2]], level) == if level == blockLevel then [b[2]] else [];
    if level == blockLevel {
      assert [b[0]] + ([b[1]] + [b[2]]) == b;
    }
  }

  /** The level of each catalog entry. */
  predicate LevelsInBlocks(q: seq<StarQuestion>)
  {
    |q| == 12 &&
    q[0].level == 1 && q[1].level == 1 && q[2].level == 1 &&
    q[3].level == 2 && q[4].level == 2 && q[5].level == 2 &&
    q[6].level == 3 && q[7].level == 3 && q[8].level == 3 &&
    q[9].level == 4 && q[10].level == 4 && q[11].level == 4
  }

  /** Twelve questions in four blocks of three, levels 1 to 4: the level
      filter returns the level's block, in order, and nothing for any other level. */
  lemma LevelFilterOnBlocks(q: seq<StarQuestion>, level: int)
    requires LevelsInBlocks(q)
    ensures FilterStarLevel(q, level) ==
              if level == 1 then q[0..3] else if level == 2 then q[3..6]
              else if level == 3 then q[6..9] else if level == 4 then q[9..12] else []
  {
    FilterInBlocks(q, level);
    BlocksFiltered(q, level);
  }

  /** Each block of three, filtered on its own. */
  lemma BlocksFiltered(q: seq<StarQuestion>, level: int)
    requires LevelsInBlocks(q)
    ensures FilterStarLevel(q[0..3], level) == if level == 1 then q[0..3] else []
    ensures FilterStarLevel(q[3..6], level) == if level == 2 then q[3..6] else []
    ensures FilterStarLevel(q[6..9], level) == if level == 3 then q[6..9] else []
    ensures FilterStarLevel(q[9..12], level) == if level == 4 then q[9..12] else []
  {
    StarLevelBlockAt(q, 0, 1, level);
    StarLevelBlockAt(q, 3, 2, level);
    StarLevelBlockAt(q, 6, 3, level);
    StarLevelBlockAt(q, 9, 4, level);
  }

  /** The level filter on twelve elements is the filter on each block of three. */
  lemma FilterInBlocks(q: seq<StarQuestion>, level: int)
    requires |q| == 12
    ensures FilterStarLevel(q, level) ==
              FilterStarLevel(q[0..3], level) + FilterStarLevel(q[3..6], level) +
              FilterStarLevel(q[6..9], level) + FilterStarLevel(q[9..12], level)
  {
    assert q == q[0..3] + q[3..6] + q[6..9] + q[9..12];
    StarLevelBlocks(q[0..3], q[3..6], q[6..9], q[9..12], level);
  }

  /** The block of three at `lo`, all at `blockLevel`, under the level filter. */
  lemma StarLevelBlockAt(q: seq<StarQuestion>, lo: nat, blockLevel: int, level: int)
    requires lo + 3 <= |q|
    requires q[lo].level == blockLevel && q[lo + 1].level == blockLevel && q[lo + 2].level == blockLevel
    ensures FilterStarLevel(q[lo..lo + 3], level) == if level == blockLevel then q[lo..lo + 3] else []
  {
    StarLevelBlock(q[lo..lo + 3], blockLevel, level);
  }

  /** Filtering four consecutive blocks is filtering each of them. */
  lemma StarLevelBlocks(b1: seq<StarQuestion>, b2: seq<StarQuestion>, b3: seq<StarQuestion>, b4: seq<StarQuestion>, level: int)
    ensures FilterStarLevel(b1 + b2 + b3 + b4, level) ==
              FilterStarLevel(b1, level) + FilterStarLevel(b2, level) + FilterStarLevel(b3, level) + FilterStarLevel(b4, level)
  {
    StarLevelAppend(b1 + b2 + b3, b4, level);
    StarLevelAppend(b1 + b2, b3, level);
    StarLevelAppend(b1, b2, level);
  }

  /** The catalog's level filter returns the level's block of three, in
      order, and nothing for any other level. */
  lemma StarQuestionsByLevel(level: int)
    ensures 1 <= level <= 4 ==> GetStarQuestionsByLevel(level) == StarQuestions[3 * (level - 1)..3 * level]
    ensures !(1 <= level <= 4) ==> GetStarQuestionsByLevel(level) == []
  {
    StarCatalogInBlocks();
    LevelFilterOnBlockSlices(StarQuestions, level);
  }

  /** `LevelFilterOnBlocks` with the block of `level` written as one slice. */
  lemma LevelFilterOnBlockSlices(q: seq<StarQuestion>, level: int)
    requires LevelsInBlocks(q)
    ensures 1 <= level <= 4 ==> FilterStarLevel(q, level) == q[3 * (level - 1)..3 * level]
    ensures !(1 <= level <= 4) ==> FilterStarLevel(q, level) == []
  {
    LevelFilterOnBlocks(q, level);
  }

  /** The catalog's levels: three questions at each of the levels 1 to 4. */
  lemma StarCatalogInBlocks()
    ensures LevelsInBlocks(StarQuestions)
  {
  }

  lemma MaxStarLevelIsFour()
    ensures GetMaxStarLevel() == 4
  {
    var r := GetMaxStarLevel();
    assert StarQuestions[11].level == 4;
    var i :| 0 <= i < |StarQuestions| && StarQuestions[i].level == r;
  }

  /** Attribute lookups ignore case: names equal up to case select the same questions. */
  lemma {:induction false} AttributeFilterIgnoresCase(qs: seq<StarQuestion>, a1: string, a2: string)
    requires ToLower(a1) == ToLower(a2)
    ensures FilterStarAttribute(qs, a1) == FilterStarAttribute(qs, a2)
  {
    if qs != [] {
      AttributeFilterIgnoresCase(qs[1..], a1, a2);
    }
  }

  /** The attribute filter keeps every question whose attribute matches. */
  lemma {:induction false} AttributeFilterComplete(qs: seq<StarQuestion>, attribute: string, i: int)
    requires 0 <= i < |qs| && ToLower(qs[i].attribute) == ToLower(attribute)
    ensures qs[i] in FilterStarAttribute(qs, attribute)
  {
    if i > 0 {
      AttributeFilterComplete(qs[1..], attribute, i - 1);
    }
  }

  /** What the attribute filter keeps of one question. */
  function AttributeHit(q: StarQuestion, attribute: string): seq<StarQuestion>
  {
    if ToLower(q.attribute) == ToLower(attribute) then [q] else []
  }

  lemma {:induction false} StarAttributeAppend(x: seq<StarQuestion>, y: seq<StarQuestion>, attribute: string)
    ensures FilterStarAttribute(x + y, attribute) == FilterStarAttribute(x, attribute) + FilterStarAttribute(y, attribute)
  {
    if x == [] {
      assert x + y == y;
    } else {
      assert (x + y)[0] == x[0] && (x + y)[1..] == x[1..] + y;
      StarAttributeAppend(x[1..], y, attribute);
    }
  }

  /** The attribute filter on a block of three questions. */
  lemma StarAttributeBlock(b: seq<StarQuestion>, attribute: string)
    requires |b| == 3
    ensures FilterStarAttribute(b, attribute) ==
              AttributeHit(b[0], attribute) + AttributeHit(b[1], attribute) + AttributeHit(b[2], attribute)
  {
    assert b[1..][1..] == [b[2]] && [b[2]][1..] == [];
    assert FilterStarAttribute([b[2]], attribute) == AttributeHit(b[2], attribute);
  }

  /** The attribute filter on the catalog, question by question. */
  lemma StarAttributeSplit(attribute: string)
    ensures var q := StarQuestions;
            GetStarQuestionsByAttribute(attribute) ==
              (AttributeHit(q[0], attribute) + AttributeHit(q[1], attribute) + AttributeHit(q[2], attribute)) +
              (AttributeHit(q[3], attribute) + AttributeHit(q[4], attribute) + AttributeHit(q[5], attribute)) +
              (AttributeHit(q[6], attribute) + AttributeHit(q[7], attribute) + AttributeHit(q[8], attribute)) +
              (AttributeHit(q[9], attribute) + AttributeHit(q[10], attribute) + AttributeHit(q[11], attribute))
  {
    var q := StarQuestions;
    var b1, b2, b3, b4 := [q[0], q[1], q[2]], [q[3], q[4], q[5]], [q[6], q[7], q[8]], [q[9], q[10], q[11]];
    StarCatalogBlocks();
    StarAttributeAppend(b1 + b2 + b3, b4, attribute);
    StarAttributeAppend(b1 + b2, b3, attribute);
    StarAttributeAppend(b1, b2, attribute);
    StarAttributeBlock(b1, attribute);
    StarAttributeBlock(b2, attribute);
    StarAttributeBlock(b3, attribute);
    StarAttributeBlock(b4, attribute);
  }

  /** The attribute lower-cased, for each catalog entry. */
  lemma StarAttributesListed()
    ensures var q := StarQuestions;
            ToLower(q[0].attribute) == "resilience" && ToLower(q[8].attribute) == "resilience" &&
            |q[1].attribute| == 8 && |q[2].attribute| == 11 && |q[3].attribute| == 22 &&
            |q[4].attribute| == 21 && |q[5].attribute| == 14 && |q[6].attribute| == 17 &&
            |q[7].attribute| == 14 && |q[9].attribute| == 11 && |q[10].attribute| == 8 &&
            |q[11].attribute| == 22
  {
  }

  /** Both Resilience questions, in catalog order, whatever the case of the requested name. */
  lemma ResilienceQuestions(attribute: string)
    requires ToLower(attribute) == "resilience"
    ensures GetStarQuestionsByAttribute(attribute) == [StarQuestions[0], StarQuestions[8]]
  {
    StarAttributeSplit(attribute);
    StarAttributesListed();
  }
}
