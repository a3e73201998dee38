/**
 * The DASS-21 question catalog and its scoring engine (Depression Anxiety
 * Stress Scales, short form; Lovibond & Lovibond, DASS manual).
 *
 * Each of the 21 items belongs to one of three scales and is answered on a
 * four-point frequency scale scored 0..3. A scale's score is twice the sum
 * of its answers (the manual's rule for bringing DASS-21 onto the DASS-42
 * range), its percentage is that score over the maximum of the answers
 * actually given, and its severity band comes from the manual's cut-offs.
 */
module Dass {
  import opened Wrappers
  import opened Percent

  datatype Category = Depression | Anxiety | Stress

  /** The four answer options, in increasing frequency. */
  datatype OptionKey = Never | Sometimes | Often | AlmostAlways

  datatype Choice = Choice(text: string, score: int)

  datatype Options = Options(never: Choice, sometimes: Choice, often: Choice, almostAlways: Choice)

  datatype Question = Question(id: int, level: int, category: Category, text: string, options: Options)

  /** An answer as the session records it: the question, the chosen key and that option's score. */
  datatype UserAnswer = UserAnswer(questionId: int, selectedOption: OptionKey, score: int)

  datatype Severity = Normal | Mild | Moderate | Severe | ExtremelySevere

  /** The score and rounded percentage of one scale, before its severity is attached. */
  datatype CategoryScore = CategoryScore(score: int, percentage: int)

  datatype CategoryResult = CategoryResult(score: int, percentage: int, status: Severity)

  datatype OverallStatus = Healthy | AtRisk

  datatype AssessmentResult = AssessmentResult(
    depression: CategoryResult,
    anxiety: CategoryResult,
    stress: CategoryResult,
    overallScore: int,
    overallStatus: OverallStatus)

  /** The option a key selects. */
  function OptionChoice(q: Question, k: OptionKey): Choice
  {
    match k
    case Never => q.options.never
    case Sometimes => q.options.sometimes
    case Often => q.options.often
    case AlmostAlways => q.options.almostAlways
  }

  /** The position of a key on the frequency scale. */
  function KeyRank(k: OptionKey): nat
  {
    match k
    case Never => 0
    case Sometimes => 1
    case Often => 2
    case AlmostAlways => 3
  }

  /** The position of a band in the order Normal < Mild < ... < Extremely Severe. */
  function SeverityRank(s: Severity): nat
  {
    match s
    case Normal => 0
    case Mild => 1
    case Moderate => 2
    case Severe => 3
    case ExtremelySevere => 4
  }

  /** The display label of a band. */
  function SeverityName(s: Severity): string
  {
    match s
    case Normal => "Normal"
    case Mild => "Mild"
    case Moderate => "Moderate"
    case Severe => "Severe"
    case ExtremelySevere => "Extremely Severe"
  }

  const StandardOptions: Options := Options(
    Choice("Did not apply to me at all", 0),
    Choice("Applied to me to some degree, or some of the time", 1),
    Choice("Applied to me to a considerable degree, or a good part of time", 2),
    Choice("Applied to me very much, or most of the time", 3))

  /** The item texts, kept apart so that the catalog below is a list of
      short terms. */
  const Item1Text: string := "I found it hard to wind down"
  const Item2Text: string := "I was aware of dryness of my mouth"
  const Item3Text: string := "I couldn't seem to experience any positive feeling at all"
  const Item4Text: string := "I experienced breathing difficulty (e.g., excessively rapid breathing, breathlessness in the absence of physical exertion)"
  const Item5Text: string := "I found it difficult to work up the initiative to do things"
  const Item6Text: string := "I tended to over-react to situations"
  const Item7Text: string := "I experienced trembling (e.g., in the hands)"
  const Item8Text: string := "I felt that I was using a lot of nervous energy"
  const Item9Text: string := "I was worried about situations in which I might panic and make a fool of myself"
  const Item10Text: string := "I felt that I had nothing to look forward to"
  const Item11Text: string := "I found myself getting agitated"
  const Item12Text: string := "I found it difficult to relax"
  const Item13Text: string := "I felt down-hearted and blue"
  const Item14Text: string := "I was intolerant of anything that kept me from getting on with what I was doing"
  const Item15Text: string := "I felt I was close to panic"
  const Item16Text: string := "I was unable to become enthusiastic about anything"
  const Item17Text: string := "I felt I wasn't worth much as a person"
  const Item18Text: string := "I felt that I was rather touchy"
  const Item19Text: string := "I was aware of the action of my heart in the absence of physical exertion (e.g., sense of heart rate increase, heart missing a beat)"
  const Item20Text: string := "I felt scared without any good reason"
  const Item21Text: string := "I felt that life was meaningless"

  /** The 21 items in questionnaire order. */
  const Questions: seq<Question> := [
    Question(1, 1, Stress, Item1Text, StandardOptions),
    Question(2, 1, Anxiety, Item2Text, StandardOptions),
    Question(3, 1, Depression, Item3Text, StandardOptions),
    Question(4, 1, Anxiety, Item4Text, StandardOptions),
    Question(5, 1, Depression, Item5Text, StandardOptions),
    Question(6, 2, Stress, Item6Text, StandardOptions),
    Question(7, 2, Anxiety, Item7Text, StandardOptions),
    Question(8, 2, Stress, Item8Text, StandardOptions),
    Question(9, 2, Anxiety, Item9Text, StandardOptions),
    Question(10, 2, Depression, Item10Text, StandardOptions),
    Question(11, 3, Stress, Item11Text, StandardOptions),
    Question(12, 3, Stress, Item12Text, StandardOptions),
    Question(13, 3, Depression, Item13Text, StandardOptions),
    Question(14, 3, Stress, Item14Text, StandardOptions),
    Question(15, 3, Anxiety, Item15Text, StandardOptions),
    Question(16, 4, Depression, Item16Text, StandardOptions),
    Question(17, 4, Depression, Item17Text, StandardOptions),
    Question(18, 4, Stress, Item18Text, StandardOptions),
    Question(19, 4, Anxiety, Item19Text, StandardOptions),
    Question(20, 4, Anxiety, Item20Text, StandardOptions),
    Question(21, 4, Depression, Item21Text, StandardOptions)
  ]

  // ---------------------------------------------------------------------
  // Catalog lookups
  // ---------------------------------------------------------------------

  /** The first question of `qs` with the given id, as `Array.prototype.find` returns it. */
  function FindIn(qs: seq<Question>, id: int): (r: Option<Question>)
    ensures r.Some? ==> r.value.id == id && r.value in qs
  {
    if qs == [] then None
    else if qs[0].id == id then Some(qs[0])
    else FindIn(qs[1..], id)
  }

  /** The lookup fails exactly when no question has the id, and otherwise
      returns the first one that has it. */
  lemma {:induction false} FindInSpec(qs: seq<Question>, id: int)
    ensures FindIn(qs, id).None? <==> forall i :: 0 <= i < |qs| ==> qs[i].id != id
    ensures FindIn(qs, id).Some? ==>
              exists i :: 0 <= i < |qs| && qs[i] == FindIn(qs, id).value && forall j :: 0 <= j < i ==> qs[j].id != id
  {
    if qs != [] && qs[0].id != id {
      FindInSpec(qs[1..], id);
      if FindIn(qs, id).Some? {
        var i :| 0 <= i < |qs[1..]| && qs[1..][i] == FindIn(qs, id).value && forall j :: 0 <= j < i ==> qs[1..][j].id != id;
        assert qs[i + 1] == FindIn(qs, id).value;
      }
    } else if qs != [] {
      assert qs[0] == FindIn(qs, id).value;
    }
  }

  function FindQuestion(id: int): Option<Question>
  {
    FindIn(Questions, id)
  }

  /** The scale an answer counts toward when its question is looked up in
      `catalog`; None when the catalog has no question with that id. The
      scoring functions below take the catalog they look questions up in as
      a parameter; `CalculateResults` passes `Questions`. */
  function CategoryIn(catalog: seq<Question>, a: UserAnswer): Option<Category>
  {
    match FindIn(catalog, a.questionId)
    case None => None
    case Some(q) => Some(q.category)
  }

  function CategoryOf(a: UserAnswer): Option<Category>
  {
    CategoryIn(Questions, a)
  }

  /** The questions of `qs` at `level`, in order (`filter`). */
  function FilterLevel(qs: seq<Question>, level: int): (r: seq<Question>)
    ensures |r| <= |qs|
    ensures forall i :: 0 <= i < |r| ==> r[i].level == level
  {
    if qs == [] then []
    else if qs[0].level == level then [qs[0]] + FilterLevel(qs[1..], level)
    else FilterLevel(qs[1..], level)
  }

  function GetQuestionsByLevel(level: int): seq<Question>
  {
    FilterLevel(Questions, level)
  }

  function GetTotalQuestions(): (r: nat)
    ensures r == 21
  {
    |Questions|
  }

  /** The largest level in a non-empty list of questions (`Math.max`). */
  function MaxLevelOf(qs: seq<Question>): (r: int)
    requires |qs| > 0
    ensures forall i :: 0 <= i < |qs| ==> qs[i].level <= r
    ensures exists i :: 0 <= i < |qs| && qs[i].level == r
  {
    if |qs| == 1 then qs[0].level
    else
      var rest := MaxLevelOf(qs[1..]);
      if qs[0].level >= rest then qs[0].level else rest
  }

  function GetMaxLevel(): int
  {
    MaxLevelOf(Questions)
  }

  // ---------------------------------------------------------------------
  // Scoring
  // ---------------------------------------------------------------------

  /** The answers that count toward scale `c`, in order (`filter`). */
  function AnswersIn(catalog: seq<Question>, answers: seq<UserAnswer>, c: Category): (r: seq<UserAnswer>)
    ensures |r| <= |answers|
  {
    if answers == [] then []
    else if CategoryIn(catalog, answers[0]) == Some(c) then [answers[0]] + AnswersIn(catalog, answers[1..], c)
    else AnswersIn(catalog, answers[1..], c)
  }

  /** Every answer kept is one of the answers given, on scale `c`. */
  lemma {:induction false} AnswersInSpec(catalog: seq<Question>, answers: seq<UserAnswer>, c: Category)
    ensures forall i :: 0 <= i < |AnswersIn(catalog, answers, c)| ==>
              AnswersIn(catalog, answers, c)[i] in answers && CategoryIn(catalog, AnswersIn(catalog, answers, c)[i]) == Some(c)
  {
    if answers != [] {
      AnswersInSpec(catalog, answers[1..], c);
    }
  }

  predicate ScoresInRange(answers: seq<UserAnswer>)
  {
    forall i :: 0 <= i < |answers| ==> 0 <= answers[i].score <= 3
  }

  /** The sum of the recorded scores (`reduce`). */
  function SumScores(answers: seq<UserAnswer>): (r: int)
    ensures ScoresInRange(answers) ==> 0 <= r <= 3 * |answers|
  {
    if answers == [] then 0 else answers[0].score + SumScores(answers[1..])
  }

  /** `calculateCategoryScore`: the doubled sum, and its share of the doubled
      maximum of the answers given, rounded. */
  function CalculateCategoryScore(categoryAnswers: seq<UserAnswer>): (r: CategoryScore)
    // doubling score and maximum alike leaves the percentage that of the raw sum
    ensures r.percentage == RoundedPercent(SumScores(categoryAnswers), 3 * |categoryAnswers|)
    ensures categoryAnswers == [] ==> r == CategoryScore(0, 0)
    ensures ScoresInRange(categoryAnswers) ==>
              0 <= r.score <= 6 * |categoryAnswers| && 0 <= r.percentage <= 100
  {
    var rawScore := SumScores(categoryAnswers);
    var finalScore := rawScore * 2;
    var maxPossibleScore := |categoryAnswers| * 3 * 2;
    RoundedPercentScale(rawScore, 3 * |categoryAnswers|, 2);
    assert ScoresInRange(categoryAnswers) ==> 0 <= RoundedPercent(rawScore, 3 * |categoryAnswers|) <= 100 by {
      if ScoresInRange(categoryAnswers) {
        RoundedPercentInRange(rawScore, 3 * |categoryAnswers|);
      }
    }
    CategoryScore(finalScore, RoundedPercent(finalScore, maxPossibleScore))
  }

  /** `getSeverityStatus`: the first band, checked in ascending order, whose
      inclusive upper bound the doubled score does not exceed. */
  function SeverityStatus(score: int, c: Category): Severity
  {
    match c
    case Depression =>
      if score <= 9 then Normal
      else if score <= 13 then Mild
      else if score <= 20 then Moderate
      else if score <= 27 then Severe
      else ExtremelySevere
    case Anxiety =>
      if score <= 7 then Normal
      else if score <= 9 then Mild
      else if score <= 14 then Moderate
      else if score <= 19 then Severe
      else ExtremelySevere
    case Stress =>
      if score <= 14 then Normal
      else if score <= 18 then Mild
      else if score <= 25 then Moderate
      else if score <= 33 then Severe
      else ExtremelySevere
  }

  function CategoryOutcome(catalog: seq<Question>, answers: seq<UserAnswer>, c: Category): CategoryResult
  {
    var s := CalculateCategoryScore(AnswersIn(catalog, answers, c));
    CategoryResult(s.score, s.percentage, SeverityStatus(s.score, c))
  }

  /** The body of `calculateResults`, looking questions up in `catalog`. The
      overall status compares the mean of the three percentages with 40. */
  function ResultsWith(catalog: seq<Question>, answers: seq<UserAnswer>): AssessmentResult
  {
    var depression := CategoryOutcome(catalog, answers, Depression);
    var anxiety := CategoryOutcome(catalog, answers, Anxiety);
    var stress := CategoryOutcome(catalog, answers, Stress);
    var overallScore := depression.score + anxiety.score + stress.score;
    var overallPercentage := (depression.percentage + anxiety.percentage + stress.percentage) as real / 3.0;
    AssessmentResult(depression, anxiety, stress, overallScore,
                     if overallPercentage < 40.0 then Healthy else AtRisk)
  }

  /** `calculateResults`: the answers scored against the DASS-21 catalog. */
  function CalculateResults(answers: seq<UserAnswer>): AssessmentResult
  {
    ResultsWith(Questions, answers)
  }

  /** The part of a result that belongs to scale `c`. */
  function ResultFor(r: AssessmentResult, c: Category): CategoryResult
  {
    match c
    case Depression => r.depression
    case Anxiety => r.anxiety
    case Stress => r.stress
  }

  // ---------------------------------------------------------------------
  // Reference definitions: one pass over the answers, no filtering
  // ---------------------------------------------------------------------

  /** The sum of the scores of the answers whose question is on scale `c`. */
  function CategoryTotal(catalog: seq<Question>, answers: seq<UserAnswer>, c: Category): int
  {
    if answers == [] then 0
    else (if CategoryIn(catalog, answers[0]) == Some(c) then answers[0].score else 0)
         + CategoryTotal(catalog, answers[1..], c)
  }

  /** The number of answers whose question is on scale `c`. */
  function CategoryCount(catalog: seq<Question>, answers: seq<UserAnswer>, c: Category): nat
  {
    if answers == [] then 0
    else (if CategoryIn(catalog, answers[0]) == Some(c) then 1 else 0) + CategoryCount(catalog, answers[1..], c)
  }

  /** The number of answers whose question is in the catalog at all. */
  function KnownCount(catalog: seq<Question>, answers: seq<UserAnswer>): nat
  {
    if answers == [] then 0
    else (if CategoryIn(catalog, answers[0]).Some? then 1 else 0) + KnownCount(catalog, answers[1..])
  }

  /** The inclusive bounds of the manual's severity table, by scale and band;
      the top band has no upper bound. */
  function TableLower(c: Category, s: Severity): int
  {
    match (c, s)
    case (_, Normal) => 0
    case (Depression, Mild) => 10
    case (Depression, Moderate) => 14
    case (Depression, Severe) => 21
    case (Depression, ExtremelySevere) => 28
    case (Anxiety, Mild) => 8
    case (Anxiety, Moderate) => 10
    case (Anxiety, Severe) => 15
    case (Anxiety, ExtremelySevere) => 20
    case (Stress, Mild) => 15
    case (Stress, Moderate) => 19
    case (Stress, Severe) => 26
    case (Stress, ExtremelySevere) => 34
  }

  function TableUpper(c: Category, s: Severity): int
    requires s != ExtremelySevere
  {
    TableLower(c, match s
      case Normal => Mild
      case Mild => Moderate
      case Moderate => Severe
      case _ => ExtremelySevere) - 1
  }

  predicate InTableBand(score: int, c: Category, s: Severity)
  {
    TableLower(c, s) <= score && (s == ExtremelySevere || score <= TableUpper(c, s))
  }

  // ---------------------------------------------------------------------
  // Lemmas: the filtered sums agree with the one-pass reference
  // ---------------------------------------------------------------------

  lemma {:induction false} SumScoresAppend(x: seq<UserAnswer>, y: seq<UserAnswer>)
    ensures SumScores(x + y) == SumScores(x) + SumScores(y)
  {
    if x == [] {
      assert x + y == y;
    } else {
      assert (x + y)[0] == x[0] && (x + y)[1..] == x[1..] + y;
      SumScoresAppend(x[1..], y);
    }
  }

  lemma {:induction false} FilterThenSum(catalog: seq<Question>, answers: seq<UserAnswer>, c: Category)
    ensures SumScores(AnswersIn(catalog, answers, c)) == CategoryTotal(catalog, answers, c)
    ensures |AnswersIn(catalog, answers, c)| == CategoryCount(catalog, answers, c)
  {
    if answers != [] {
      FilterThenSum(catalog, answers[1..], c);
      if CategoryIn(catalog, answers[0]) == Some(c) {
        SumScoresAppend([answers[0]], AnswersIn(catalog, answers[1..], c));
      }
    }
  }

  /** What `calculateResults` reports for each scale, stated on the one-pass
      reference: twice the scale's total, its rounded share of 3 per answer
      given (0 with no answers), and the band of the doubled total. */
  lemma ResultsSpec(catalog: seq<Question>, answers: seq<UserAnswer>, c: Category)
    ensures ResultFor(ResultsWith(catalog, answers), c).score == 2 * CategoryTotal(catalog, answers, c)
    ensures ResultFor(ResultsWith(catalog, answers), c).percentage ==
              RoundedPercent(CategoryTotal(catalog, answers, c), 3 * CategoryCount(catalog, answers, c))
    ensures CategoryCount(catalog, answers, c) == 0 ==> ResultFor(ResultsWith(catalog, answers), c).percentage == 0
    ensures ResultFor(ResultsWith(catalog, answers), c).status ==
              SeverityStatus(2 * CategoryTotal(catalog, answers, c), c)
  {
    FilterThenSum(catalog, answers, c);
  }

  /** With every score in 0..3, every reported percentage lies in 0..100 and
      no scaled score is negative. */
  lemma {:induction false} PercentagesInRange(catalog: seq<Question>, answers: seq<UserAnswer>, c: Category)
    requires ScoresInRange(answers)
    ensures 0 <= ResultFor(ResultsWith(catalog, answers), c).percentage <= 100
    ensures 0 <= ResultFor(ResultsWith(catalog, answers), c).score
  {
    var filtered := AnswersIn(catalog, answers, c);
    AnswersInSpec(catalog, answers, c);
    assert ScoresInRange(filtered) by {
      forall i | 0 <= i < |filtered| ensures 0 <= filtered[i].score <= 3 {
        assert filtered[i] in answers;
      }
    }
  }

  lemma {:induction false} ZeroTotal(catalog: seq<Question>, answers: seq<UserAnswer>, c: Category)
    requires forall i :: 0 <= i < |answers| ==> answers[i].score == 0
    ensures CategoryTotal(catalog, answers, c) == 0
  {
    if answers != [] {
      ZeroTotal(catalog, answers[1..], c);
    }
  }

  /** All-zero answers score 0, show 0 % and the lowest band on every scale,
      and the overall status is Healthy. */
  lemma AllZeroAnswers(catalog: seq<Question>, answers: seq<UserAnswer>)
    requires forall i :: 0 <= i < |answers| ==> answers[i].score == 0
    ensures forall c :: ResultFor(ResultsWith(catalog, answers), c) == CategoryResult(0, 0, Normal)
    ensures ResultsWith(catalog, answers).overallScore == 0
    ensures ResultsWith(catalog, answers).overallStatus == Healthy
  {
    var r := ResultsWith(catalog, answers);
    forall c ensures ResultFor(r, c) == CategoryResult(0, 0, Normal) {
      ZeroTotal(catalog, answers, c);
      ResultsSpec(catalog, answers, c);
      if CategoryCount(catalog, answers, c) > 0 {
        RoundedPercentEnds(3 * CategoryCount(catalog, answers, c));
      }
    }
    assert ResultFor(r, Depression) == r.depression;
    assert ResultFor(r, Anxiety) == r.anxiety;
    assert ResultFor(r, Stress) == r.stress;
  }

  /** Answers that all belong to scale `c` and all carry the same score `s`
      total `s` per answer. */
  lemma {:induction false} UniformTotal(catalog: seq<Question>, answers: seq<UserAnswer>, c: Category, s: int)
    requires forall i :: 0 <= i < |answers| ==> CategoryIn(catalog, answers[i]) == Some(c) && answers[i].score == s
    ensures CategoryTotal(catalog, answers, c) == s * |answers|
    ensures CategoryCount(catalog, answers, c) == |answers|
  {
    if answers != [] {
      UniformTotal(catalog, answers[1..], c, s);
      assert s * |answers| == s * (|answers| - 1) + s;
    }
  }

  /** Answering any non-empty set of a scale's items "almost always" gives
      100 %, and seven such answers on the Depression scale give 42 and
      Extremely Severe. */
  lemma AllMaxInCategory(catalog: seq<Question>, answers: seq<UserAnswer>, c: Category)
    requires |answers| > 0
    requires forall i :: 0 <= i < |answers| ==> CategoryIn(catalog, answers[i]) == Some(c) && answers[i].score == 3
    ensures ResultFor(ResultsWith(catalog, answers), c).percentage == 100
    ensures ResultFor(ResultsWith(catalog, answers), c).score == 6 * |answers|
    ensures c == Depression && |answers| == 7 ==>
              ResultFor(ResultsWith(catalog, answers), c) == CategoryResult(42, 100, ExtremelySevere)
  {
    UniformTotal(catalog, answers, c, 3);
    ResultsSpec(catalog, answers, c);
    RoundedPercentEnds(3 * |answers|);
  }

  /** No two questions of `qs` share an id. */
  predicate IdsDistinct(qs: seq<Question>)
  {
    forall i, j :: 0 <= i < j < |qs| ==> qs[i].id != qs[j].id
  }

  /** In a catalog without repeated ids, looking up a question's id finds that question. */
  lemma FindInDistinct(qs: seq<Question>, i: int)
    requires IdsDistinct(qs) && 0 <= i < |qs|
    ensures FindIn(qs, qs[i].id) == Some(qs[i])
  {
    var id := qs[i].id;
    FindInSpec(qs, id);
    var j :| 0 <= j < |qs| && qs[j] == FindIn(qs, id).value && forall k :: 0 <= k < j ==> qs[k].id != id;
    if j < i {
      assert qs[j].id == id;
    }
  }

  /** When every answer on scale `c` scores `s`, the scale's total is `s`
      per answer on it, whatever the other scales' answers are. */
  lemma {:induction false} CategoryUniform(catalog: seq<Question>, answers: seq<UserAnswer>, c: Category, s: int)
    requires forall i :: 0 <= i < |answers| && CategoryIn(catalog, answers[i]) == Some(c) ==> answers[i].score == s
    ensures CategoryTotal(catalog, answers, c) == s * CategoryCount(catalog, answers, c)
  {
    if answers != [] {
      assert forall i :: 0 <= i < |answers[1..]| ==> answers[1..][i] == answers[i + 1];
      CategoryUniform(catalog, answers[1..], c, s);
      var n := CategoryCount(catalog, answers[1..], c);
      assert s * (n + 1) == s * n + s;
    }
  }

  /** A scale whose answers all score 0 reports {0, 0, Normal}, whatever
      the other scales' answers are. */
  lemma ZeroInCategory(catalog: seq<Question>, answers: seq<UserAnswer>, c: Category)
    requires forall i :: 0 <= i < |answers| && CategoryIn(catalog, answers[i]) == Some(c) ==> answers[i].score == 0
    ensures ResultFor(ResultsWith(catalog, answers), c) == CategoryResult(0, 0, Normal)
  {
    CategoryUniform(catalog, answers, c, 0);
    ResultsSpec(catalog, answers, c);
    var n := CategoryCount(catalog, answers, c);
    if n > 0 {
      RoundedPercentEnds(3 * n);
    }
  }

  /** A scale with answers that all score 3 reports 100% and a doubled score
      of 6 per answer on it, whatever the other scales' answers are; seven
      such Depression answers give {42, 100, Extremely Severe}. */
  lemma MaxInCategory(catalog: seq<Question>, answers: seq<UserAnswer>, c: Category)
    requires CategoryCount(catalog, answers, c) > 0
    requires forall i :: 0 <= i < |answers| && CategoryIn(catalog, answers[i]) == Some(c) ==> answers[i].score == 3
    ensures ResultFor(ResultsWith(catalog, answers), c).percentage == 100
    ensures ResultFor(ResultsWith(catalog, answers), c).score == 6 * CategoryCount(catalog, answers, c)
    ensures c == Depression && CategoryCount(catalog, answers, c) == 7 ==>
              ResultFor(ResultsWith(catalog, answers), c) == CategoryResult(42, 100, ExtremelySevere)
  {
    CategoryUniform(catalog, answers, c, 3);
    ResultsSpec(catalog, answers, c);
    RoundedPercentEnds(3 * CategoryCount(catalog, answers, c));
  }

  /** Raising the score of one answer, the others fixed, keeps the counts
      and never lowers a scale's total. */
  lemma {:induction false} RaiseScoreTotals(catalog: seq<Question>, x: seq<UserAnswer>, a: UserAnswer, y: seq<UserAnswer>, s: int, c: Category)
    requires a.score <= s
    ensures CategoryCount(catalog, x + [a.(score := s)] + y, c) == CategoryCount(catalog, x + [a] + y, c)
    ensures CategoryTotal(catalog, x + [a] + y, c) <= CategoryTotal(catalog, x + [a.(score := s)] + y, c)
  {
    var b := a.(score := s);
    if x == [] {
      assert x + [a] + y == [a] + y && ([a] + y)[0] == a && ([a] + y)[1..] == y;
      assert x + [b] + y == [b] + y && ([b] + y)[0] == b && ([b] + y)[1..] == y;
    } else {
      assert (x + [a] + y)[0] == x[0] && (x + [a] + y)[1..] == x[1..] + [a] + y;
      assert (x + [b] + y)[0] == x[0] && (x + [b] + y)[1..] == x[1..] + [b] + y;
      RaiseScoreTotals(catalog, x[1..], a, y, s, c);
    }
  }

  /** Raising the score of one answer, the others fixed, never lowers any
      scale's score or percentage, nor makes its band less severe. */
  lemma RaisingScoreNeverLowers(catalog: seq<Question>, x: seq<UserAnswer>, a: UserAnswer, y: seq<UserAnswer>, s: int, c: Category)
    requires a.score <= s
    ensures ResultFor(ResultsWith(catalog, x + [a] + y), c).score <= ResultFor(ResultsWith(catalog, x + [a.(score := s)] + y), c).score
    ensures ResultFor(ResultsWith(catalog, x + [a] + y), c).percentage <=
              ResultFor(ResultsWith(catalog, x + [a.(score := s)] + y), c).percentage
    ensures SeverityRank(ResultFor(ResultsWith(catalog, x + [a] + y), c).status) <=
              SeverityRank(ResultFor(ResultsWith(catalog, x + [a.(score := s)] + y), c).status)
  {
    var before, after := x + [a] + y, x + [a.(score := s)] + y;
    RaiseScoreTotals(catalog, x, a, y, s, c);
    ResultsSpec(catalog, before, c);
    ResultsSpec(catalog, after, c);
    var t1, t2 := CategoryTotal(catalog, before, c), CategoryTotal(catalog, after, c);
    RoundedPercentMonotone(t1, t2, 3 * CategoryCount(catalog, before, c));
    SeverityMonotone(2 * t1, 2 * t2, c);
  }

  /** The lookup finds exactly the ids 1..21, each at its own position. */
  lemma FindQuestionById(id: int)
    ensures FindQuestion(id).Some? <==> 1 <= id <= 21
    ensures FindQuestion(id).Some? ==> FindQuestion(id).value == Questions[id - 1]
  {
    CatalogIds();
    FindInSpec(Questions, id);
    if 1 <= id <= 21 {
      assert Questions[id - 1].id == id;
    }
  }

  /** The seven Depression items answered "almost always". */
  const DepressionAllMax: seq<UserAnswer> := [
    UserAnswer(3, AlmostAlways, 3), UserAnswer(5, AlmostAlways, 3), UserAnswer(10, AlmostAlways, 3),
    UserAnswer(13, AlmostAlways, 3), UserAnswer(16, AlmostAlways, 3), UserAnswer(17, AlmostAlways, 3),
    UserAnswer(21, AlmostAlways, 3)]

  lemma DepressionAllMaxIsExtremelySevere()
    ensures CalculateResults(DepressionAllMax).depression == CategoryResult(42, 100, ExtremelySevere)
  {
    forall i | 0 <= i < |DepressionAllMax|
      ensures CategoryOf(DepressionAllMax[i]) == Some(Depression) && DepressionAllMax[i].score == 3
    {
      ItemCategoryListed(DepressionAllMax[i].questionId, Depression);
      CategoryOfById(DepressionAllMax[i]);
    }
    AllMaxInCategory(Questions, DepressionAllMax, Depression);
  }

  /** A lone Depression answer "often" (score 2) scales to 4 out of a
      possible 6, shown as 67 %, in the Normal band. */
  lemma SingleOftenDepressionAnswer(a: UserAnswer)
    requires a.questionId in ItemsOf(Depression) && a.score == 2
    ensures CalculateResults([a]).depression == CategoryResult(4, 67, Normal)
  {
    ItemCategoryListed(a.questionId, Depression);
    CategoryOfById(a);
    UniformTotal(Questions, [a], Depression, 2);
    ResultsSpec(Questions, [a], Depression);
    RoundedPercentUnique(2, 3, 67);
  }

  // ---------------------------------------------------------------------
  // Lemmas: severity bands
  // ---------------------------------------------------------------------

  /** The if-chain picks exactly the band of the manual's table that holds
      the score (both directions). */
  lemma SeverityMatchesTable(score: int, c: Category, s: Severity)
    requires score >= 0
    ensures SeverityStatus(score, c) == s <==> InTableBand(score, c, s)
  {
  }

  /** A higher scaled score never gives a less severe band. */
  lemma SeverityMonotone(score1: int, score2: int, c: Category)
    requires score1 <= score2
    ensures SeverityRank(SeverityStatus(score1, c)) <= SeverityRank(SeverityStatus(score2, c))
  {
  }

  // ---------------------------------------------------------------------
  // Lemmas: which answers count
  // ---------------------------------------------------------------------

  /** An answer counts toward the scale its item number is listed under when
      that number is 1..21, and toward no scale otherwise. */
  lemma CategoryOfById(a: UserAnswer)
    ensures CategoryOf(a) == if 1 <= a.questionId <= 21 then Some(ItemCategory(a.questionId)) else None
  {
    FindQuestionById(a.questionId);
    CatalogCategories();
    if 1 <= a.questionId <= 21 {
      assert Questions[a.questionId - 1].id == a.questionId;
    }
  }

  lemma {:induction false} AnswersInAppend(catalog: seq<Question>, x: seq<UserAnswer>, y: seq<UserAnswer>, c: Category)
    ensures AnswersIn(catalog, x + y, c) == AnswersIn(catalog, x, c) + AnswersIn(catalog, y, c)
  {
    if x == [] {
      assert x + y == y;
    } else {
      assert (x + y)[0] == x[0] && (x + y)[1..] == x[1..] + y;
      AnswersInAppend(catalog, x[1..], y, c);
    }
  }

  /** An answer whose question is not in the catalog changes no part of the
      result, wherever it stands in the list. */
  lemma UnknownAnswerIgnored(catalog: seq<Question>, x: seq<UserAnswer>, a: UserAnswer, y: seq<UserAnswer>)
    requires FindIn(catalog, a.questionId).None?
    ensures ResultsWith(catalog, x + [a] + y) == ResultsWith(catalog, x + y)
  {
    forall c ensures AnswersIn(catalog, x + [a] + y, c) == AnswersIn(catalog, x + y, c) {
      AnswersInAppend(catalog, x + [a], y, c);
      AnswersInAppend(catalog, x, [a], c);
      AnswersInAppend(catalog, x, y, c);
    }
    assert AnswersIn(catalog, x + [a] + y, Depression) == AnswersIn(catalog, x + y, Depression);
    assert AnswersIn(catalog, x + [a] + y, Anxiety) == AnswersIn(catalog, x + y, Anxiety);
    assert AnswersIn(catalog, x + [a] + y, Stress) == AnswersIn(catalog, x + y, Stress);
  }

  /** Every known answer counts toward exactly one scale: the three scale
      counts add up to the number of known answers. */
  lemma {:induction false} PartitionByCategory(catalog: seq<Question>, answers: seq<UserAnswer>)
    ensures CategoryCount(catalog, answers, Depression) + CategoryCount(catalog, answers, Anxiety)
            + CategoryCount(catalog, answers, Stress) == KnownCount(catalog, answers)
  {
    if answers != [] {
      PartitionByCategory(catalog, answers[1..]);
      match CategoryIn(catalog, answers[0])
      case None =>
      case Some(c) =>
        match c { case Depression => case Anxiety => case Stress => }
    }
  }

  // ---------------------------------------------------------------------
  // Lemmas: overall score and status
  // ---------------------------------------------------------------------

  /** The overall score is the sum of the three scaled scores; the status is
      Healthy exactly when the three percentages add up to less than 120, so
      a mean of exactly 40 is At Risk. */
  lemma OverallStatusThreshold(catalog: seq<Question>, answers: seq<UserAnswer>)
    ensures var r := ResultsWith(catalog, answers);
            r.overallScore == r.depression.score + r.anxiety.score + r.stress.score &&
            (r.overallStatus == Healthy <==> r.depression.percentage + r.anxiety.percentage + r.stress.percentage < 120)
  {
  }

  // ---------------------------------------------------------------------
  // Lemmas: the catalog
  // ---------------------------------------------------------------------

  lemma CatalogIds()
    ensures |Questions| == 21
    ensures forall i :: 0 <= i < |Questions| ==> Questions[i].id == i + 1
  {
  }

  /** Levels run from 1 to 4 and never decrease along the catalog. */
  lemma CatalogLevels()
    ensures Questions[0].level == 1 && Questions[20].level == 4
    ensures forall i, j :: 0 <= i <= j < |Questions| ==> Questions[i].level <= Questions[j].level
  {
    CatalogLevelBlocks();
  }

  /** Every question scores its options 0..3 in frequency order. */
  lemma CatalogOptionScores()
    ensures forall i, k :: 0 <= i < |Questions| ==> OptionChoice(Questions[i], k).score == KeyRank(k)
  {
  }

  /** The item numbers of each scale, as the questionnaire lists them. */
  function ItemsOf(c: Category): set<int>
  {
    match c
    case Stress => {1, 6, 8, 11, 12, 14, 18}
    case Anxiety => {2, 4, 7, 9, 15, 19, 20}
    case Depression => {3, 5, 10, 13, 16, 17, 21}
  }

  /** The scale of item `id`, decided by comparing with the item numbers
      (Stress for any number on no list). */
  function ItemCategory(id: int): Category
  {
    if id == 3 || id == 5 || id == 10 || id == 13 || id == 16 || id == 17 || id == 21 then Depression
    else if id == 2 || id == 4 || id == 7 || id == 9 || id == 15 || id == 19 || id == 20 then Anxiety
    else Stress
  }

  /** Items 1 to 21 each fall on exactly the scale whose list holds them. */
  lemma ItemCategoryListed(id: int, c: Category)
    requires 1 <= id <= 21
    ensures ItemCategory(id) == c <==> id in ItemsOf(c)
  {
  }

  /** Every catalog entry is on the scale its item number is listed under. */
  lemma CatalogCategories()
    ensures forall i :: 0 <= i < |Questions| ==> Questions[i].category == ItemCategory(Questions[i].id)
  {
  }

  /** Each scale lists seven items. */
  lemma SevenItemsPerCategory(c: Category)
    ensures |ItemsOf(c)| == 7
  {
  }

  lemma {:induction false} FilterLevelAppend(x: seq<Question>, y: seq<Question>, level: int)
    ensures FilterLevel(x + y, level) == FilterLevel(x, level) + FilterLevel(y, level)
  {
    if x == [] {
      assert x + y == y;
    } else {
      assert (x + y)[0] == x[0] && (x + y)[1..] == x[1..] + y;
      FilterLevelAppend(x[1..], y, level);
    }
  }

  lemma {:induction false} FilterLevelAll(qs: seq<Question>, level: int)
    requires forall i :: 0 <= i < |qs| ==> qs[i].level == level
    ensures FilterLevel(qs, level) == qs
  {
    if qs != [] {
      FilterLevelAll(qs[1..], level);
    }
  }

  lemma FilterLevelNone(qs: seq<Question>, level: int)
    requires forall i :: 0 <= i < |qs| ==> qs[i].level != level
    ensures FilterLevel(qs, level) == []
  {
  }

  /** The start of each level's block in the catalog. */
  function LevelStart(level: int): nat
  {
    if level <= 1 then 0 else if level == 2 then 5 else if level == 3 then 10 else if level == 4 then 15 else 21
  }

  /** Items 1-5, 6-10, 11-15 and 16-21 are at levels 1, 2, 3 and 4. */
  lemma CatalogLevelBlocks()
    ensures |Questions| == 21
    ensures forall i :: 0 <= i < 5 ==> Questions[i].level == 1
    ensures forall i :: 5 <= i < 10 ==> Questions[i].level == 2
    ensures forall i :: 10 <= i < 15 ==> Questions[i].level == 3
    ensures forall i :: 15 <= i < 21 ==> Questions[i].level == 4
  {
  }

  /** On 21 questions in blocks of 5, 5, 5 and 6 at levels 1 to 4, the level
      filter keeps exactly the requested level's block. */
  lemma FilterLevelOnBlocks(q: seq<Question>, level: int)
    requires |q| == 21
    requires forall i :: 0 <= i < 5 ==> q[i].level == 1
    requires forall i :: 5 <= i < 10 ==> q[i].level == 2
    requires forall i :: 10 <= i < 15 ==> q[i].level == 3
    requires forall i :: 15 <= i < 21 ==> q[i].level == 4
    ensures FilterLevel(q, level) ==
              if level == 1 then q[0..5] else if level == 2 then q[5..10]
              else if level == 3 then q[10..15] else if level == 4 then q[15..21] else []
  {
    FilterLevelInBlocks(q, level);
    FilterLevelBlock(q[0..5], 1, level);
    FilterLevelBlock(q[5..10], 2, level);
    FilterLevelBlock(q[10..15], 3, level);
    FilterLevelBlock(q[15..21], 4, level);
  }

  /** The level filter on 21 questions is the filter on each of the four blocks. */
  lemma FilterLevelInBlocks(q: seq<Question>, level: int)
    requires |q| == 21
    ensures FilterLevel(q, level) ==
              FilterLevel(q[0..5], level) + FilterLevel(q[5..10], level) +
              FilterLevel(q[10..15], level) + FilterLevel(q[15..21], level)
  {
    assert q == q[0..5] + q[5..10] + q[10..15] + q[15..21];
    FilterLevelFour(q[0..5], q[5..10], q[10..15], q[15..21], level);
  }

  /** Filtering four consecutive lists is filtering each of them. */
  lemma FilterLevelFour(b1: seq<Question>, b2: seq<Question>, b3: seq<Question>, b4: seq<Question>, level: int)
    ensures FilterLevel(b1 + b2 + b3 + b4, level) ==
              FilterLevel(b1, level) + FilterLevel(b2, level) + FilterLevel(b3, level) + FilterLevel(b4, level)
  {
    FilterLevelAppend(b1 + b2 + b3, b4, level);
    FilterLevelAppend(b1 + b2, b3, level);
    FilterLevelAppend(b1, b2, level);
  }

  /** A block all at `blockLevel` is kept whole by that level's filter and dropped by any other. */
  lemma FilterLevelBlock(b: seq<Question>, blockLevel: int, level: int)
    requires forall i :: 0 <= i < |b| ==> b[i].level == blockLevel
    ensures FilterLevel(b, level) == if level == blockLevel then b else []
  {
    if level == blockLevel {
      FilterLevelAll(b, level);
    } else {
      FilterLevelNone(b, level);
    }
  }

  /** `getQuestionsByLevel` returns the catalog's block of that level, in
      order: items 1-5, 6-10, 11-15 and 16-21 for levels 1 to 4, and nothing
      for any other level. */
  lemma QuestionsByLevelBlocks(level: int)
    ensures 1 <= level <= 4 ==> GetQuestionsByLevel(level) == Questions[LevelStart(level)..LevelStart(level + 1)]
    ensures !(1 <= level <= 4) ==> GetQuestionsByLevel(level) == []
  {
    CatalogLevelBlocks();
    FilterLevelOnBlocks(Questions, level);
  }

  lemma MaxLevelIsFour()
    ensures GetMaxLevel() == 4
  {
    var r := GetMaxLevel();
    CatalogLevelBlocks();
    assert Questions[20].level <= r;
    var i :| 0 <= i < |Questions| && Questions[i].level == r;
  }
}
