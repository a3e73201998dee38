/**
 * The assessment session: the application's top-level state machine. It
 * walks the user through the 21 DASS-21 questions one at a time, records
 * one answer per question, scores the list after the last one, and moves
 * between the start, question, results and booking screens.
 */
module Session {
  import opened Wrappers
  import opened Dass
  import Booking

  /** The four screens, in the order the application checks for them. */
  datatype Screen = ResultsScreen | BookingScreen | StartScreen | AssessmentScreen

  /** One line of the answers summary kept with the results: the question's
      text, the key chosen, and the question's level and scale (text "",
      level 1 and no scale, shown as "General", for an unknown question). */
  datatype AnswerSummary = AnswerSummary(question: string, answer: OptionKey, level: int, category: Option<Category>)

  /** The results stored when the last question is answered. */
  datatype StoredResults = StoredResults(result: AssessmentResult, answers: seq<AnswerSummary>)

  /** The answer recorded for question `q` when key `k` is selected. */
  function AnswerTo(q: Question, k: OptionKey): (a: UserAnswer)
    ensures a.questionId == q.id && a.selectedOption == k
    ensures (forall k' :: OptionChoice(q, k').score == KeyRank(k')) ==> a.score == KeyRank(k)
  {
    UserAnswer(q.id, k, OptionChoice(q, k).score)
  }

  /** The summary line of an answer, its question looked up in `catalog`. */
  function Summarize(catalog: seq<Question>, a: UserAnswer): AnswerSummary
  {
    match FindIn(catalog, a.questionId)
    case Some(q) => AnswerSummary(q.text, a.selectedOption, q.level, Some(q.category))
    case None => AnswerSummary("", a.selectedOption, 1, None)
  }

  /** The results object built after the last answer: the scores of the
      whole list, and one summary line per answer. The session passes the
      DASS-21 catalog, so that the scores are `CalculateResults(answers)`. */
  function StoredFor(catalog: seq<Question>, answers: seq<UserAnswer>): (r: StoredResults)
    // These clauses unfold the body element by element; what the summaries
    // quote is stated by `StoredSummaries`.
    ensures r.result == ResultsWith(catalog, answers)
    ensures |r.answers| == |answers|
    ensures forall i :: 0 <= i < |answers| ==> r.answers[i] == Summarize(catalog, answers[i])
  {
    StoredResults(ResultsWith(catalog, answers),
                  seq(|answers|, i requires 0 <= i < |answers| => Summarize(catalog, answers[i])))
  }

  /** Levels never decrease along the catalog. */
  predicate LevelsSorted(catalog: seq<Question>)
  {
    |catalog| <= 1 || (catalog[0].level <= catalog[1].level && LevelsSorted(catalog[1..]))
  }

  /** Every question scores its options 0..3 in frequency order. */
  predicate ScoredByRank(catalog: seq<Question>)
  {
    catalog == [] ||
    ((forall k :: OptionChoice(catalog[0], k).score == KeyRank(k)) && ScoredByRank(catalog[1..]))
  }

  /** The shape of the catalog the session relies on: at least one
      question, the first at level 1, levels that never decrease, and
      options scored 0..3. */
  predicate CatalogShape(catalog: seq<Question>)
  {
    |catalog| > 0 && catalog[0].level == 1 && LevelsSorted(catalog) && ScoredByRank(catalog)
  }

  lemma {:induction false} LevelsSortedFrom(catalog: seq<Question>)
    requires forall i, j :: 0 <= i <= j < |catalog| ==> catalog[i].level <= catalog[j].level
    ensures LevelsSorted(catalog)
  {
    if |catalog| > 1 {
      LevelsSortedFrom(catalog[1..]);
    }
  }

  lemma {:induction false} ScoredByRankFrom(catalog: seq<Question>)
    requires forall i, k :: 0 <= i < |catalog| ==> OptionChoice(catalog[i], k).score == KeyRank(k)
    ensures ScoredByRank(catalog)
  {
    if catalog != [] {
      assert forall k :: OptionChoice(catalog[0], k).score == KeyRank(k);
      ScoredByRankFrom(catalog[1..]);
    }
  }

  /** The DASS-21 catalog has that shape. */
  lemma QuestionsShape()
    ensures CatalogShape(Questions) && |Questions| == 21
  {
    CatalogLevels();
    CatalogOptionScores();
    LevelsSortedFrom(Questions);
    ScoredByRankFrom(Questions);
  }

  /** The scores of a catalog scored by rank are 0..3. */
  lemma {:induction false} ScoredByRankAt(catalog: seq<Question>, i: int, k: OptionKey)
    requires ScoredByRank(catalog) && 0 <= i < |catalog|
    ensures OptionChoice(catalog[i], k).score == KeyRank(k)
  {
    if i > 0 {
      ScoredByRankAt(catalog[1..], i - 1, k);
    }
  }

  /** The i-th answer of the list answers the i-th question of `catalog`,
      and records the score of the option chosen. */
  predicate AnswersFollow(catalog: seq<Question>, answers: seq<UserAnswer>)
  {
    |answers| <= |catalog| &&
    forall i :: 0 <= i < |answers| ==> answers[i] == AnswerTo(catalog[i], answers[i].selectedOption)
  }

  /** Answering the next question of the catalog keeps a list in step with it. */
  lemma AppendFollows(catalog: seq<Question>, answers: seq<UserAnswer>, k: OptionKey)
    requires AnswersFollow(catalog, answers) && |answers| < |catalog|
    ensures AnswersFollow(catalog, answers + [AnswerTo(catalog[|answers|], k)])
  {
  }

  /** Withdrawing the last answer keeps a list in step with the catalog. */
  lemma DropLastFollows(catalog: seq<Question>, answers: seq<UserAnswer>)
    requires AnswersFollow(catalog, answers) && |answers| > 0
    ensures AnswersFollow(catalog, answers[..|answers| - 1])
  {
  }

  /** The level shown after moving from a question at `level` to the
      question `next`: raised to the next question's level when that is
      higher, kept otherwise. */
  function RaisedLevel(level: int, next: Question): int
  {
    if next.level > level then next.level else level
  }

  /** The level shown after moving back to the question `prev`: lowered to
      its level when that is lower, kept otherwise. */
  function LoweredLevel(level: int, prev: Question): int
  {
    if prev.level < level then prev.level else level
  }

  /** Because the catalog's levels never decrease, the level kept while
      moving forward or back is always the current question's own level. */
  lemma {:induction false} LevelFollowsQuestion(catalog: seq<Question>, i: int)
    requires LevelsSorted(catalog) && 0 <= i < |catalog| - 1
    ensures RaisedLevel(catalog[i].level, catalog[i + 1]) == catalog[i + 1].level
    ensures LoweredLevel(catalog[i + 1].level, catalog[i]) == catalog[i].level
  {
    if i > 0 {
      LevelFollowsQuestion(catalog[1..], i - 1);
    }
  }

  /** A list that answers every question of the catalog in order: every
      answer is counted toward a scale, every score is 0..3, and every
      reported percentage is 0..100. */
  lemma {:induction false} CompletedAnswers(catalog: seq<Question>, answers: seq<UserAnswer>)
    requires ScoredByRank(catalog)
    requires AnswersFollow(catalog, answers) && |answers| == |catalog|
    ensures ScoresInRange(answers)
    ensures KnownCount(catalog, answers) == |catalog|
    ensures forall c :: 0 <= ResultFor(ResultsWith(catalog, answers), c).percentage <= 100
  {
    assert ScoresInRange(answers) by {
      forall i | 0 <= i < |answers| ensures 0 <= answers[i].score <= 3 {
        ScoredByRankAt(catalog, i, answers[i].selectedOption);
      }
    }
    KnownPrefix(catalog, answers, |answers|);
    assert answers[..|answers|] == answers;
    forall c ensures 0 <= ResultFor(ResultsWith(catalog, answers), c).percentage <= 100 {
      PercentagesInRange(catalog, answers, c);
    }
  }

  lemma {:induction false} KnownPrefix(catalog: seq<Question>, answers: seq<UserAnswer>, n: nat)
    requires AnswersFollow(catalog, answers) && n <= |answers|
    ensures KnownCount(catalog, answers[..n]) == n
  {
    if n > 0 {
      KnownPrefix(catalog, answers, n - 1);
      var a := answers[n - 1];
      assert a.questionId == catalog[n - 1].id;
      FindInSpec(catalog, a.questionId);
      KnownAppend(catalog, answers[..n - 1], a);
      assert answers[..n] == answers[..n - 1] + [a];
    }
  }

  lemma {:induction false} KnownAppend(catalog: seq<Question>, x: seq<UserAnswer>, a: UserAnswer)
    ensures KnownCount(catalog, x + [a]) == KnownCount(catalog, x) + (if CategoryIn(catalog, a).Some? then 1 else 0)
  {
    if x == [] {
      assert x + [a] == [a];
    } else {
      assert (x + [a])[1..] == x[1..] + [a];
      KnownAppend(catalog, x[1..], a);
    }
  }

  /** With a catalog whose ids are distinct, the stored results are the
      scores of the whole list, and the summary of the i-th answer quotes
      the i-th question's text, level and scale with the key chosen. */
  lemma StoredSummaries(catalog: seq<Question>, answers: seq<UserAnswer>)
    requires AnswersFollow(catalog, answers) && IdsDistinct(catalog)
    ensures StoredFor(catalog, answers).result == ResultsWith(catalog, answers)
    ensures |StoredFor(catalog, answers).answers| == |answers|
    ensures forall i :: 0 <= i < |answers| ==>
              StoredFor(catalog, answers).answers[i] ==
                AnswerSummary(catalog[i].text, answers[i].selectedOption, catalog[i].level, Some(catalog[i].category))
  {
    forall i | 0 <= i < |answers|
      ensures StoredFor(catalog, answers).answers[i] ==
                AnswerSummary(catalog[i].text, answers[i].selectedOption, catalog[i].level, Some(catalog[i].category))
    {
      FindInDistinct(catalog, i);
    }
  }

  /** The summary stored for an answer to the i-th question quotes that
      question's text, level and scale. */
  lemma SummaryQuotesQuestion(answers: seq<UserAnswer>, i: int)
    requires AnswersFollow(Questions, answers) && 0 <= i < |answers|
    ensures StoredFor(Questions, answers).answers[i] ==
              AnswerSummary(Questions[i].text, answers[i].selectedOption, Questions[i].level, Some(Questions[i].category))
  {
    CatalogIds();
    FindQuestionById(i + 1);
    assert answers[i].questionId == Questions[i].id;
  }

  /** The application's session state. */
  class AssessmentSession {
    /** The question catalog the session walks through. */
    const catalog: seq<Question>
    var showAssessment: bool
    var showResults: bool
    var showBooking: bool
    var currentQuestionIndex: int
    var currentLevel: int
    var answers: seq<UserAnswer>
    /** The option picked for the current question but not yet recorded (none: ''). */
    var selectedAnswer: Option<OptionKey>
    var assessmentResults: Option<StoredResults>

    /** The screen rendered: results first, then booking, then the start
        screen when no assessment is under way, else the current question. */
    function CurrentScreen(): Screen
      reads this
    {
      if showResults then ResultsScreen
      else if showBooking then BookingScreen
      else if !showAssessment then StartScreen
      else AssessmentScreen
    }

    /** The session invariant: at most one screen flag is set; the index is
        a question of the catalog and the level is that question's level;
        the answers answer the catalog's questions in order; while
        answering, there is one answer per question before the current one;
        on the start screen nothing is answered; and on the results and
        booking screens all 21 answers are in and their results stored. */
    ghost predicate Valid()
      reads this
    {
      CatalogShape(catalog) &&
      !(showResults && showBooking) && !(showAssessment && (showResults || showBooking)) &&
      0 <= currentQuestionIndex < |catalog| &&
      currentLevel == catalog[currentQuestionIndex].level &&
      AnswersFollow(catalog, answers) &&
      (showAssessment ==> |answers| == currentQuestionIndex) &&
      (!showAssessment && !showResults && !showBooking ==>
         answers == [] && currentQuestionIndex == 0 && selectedAnswer.None?) &&
      (showResults || showBooking ==>
         |answers| == |catalog| && currentQuestionIndex == |catalog| - 1 && assessmentResults.Some?)
    }

    /** The session as the application starts: the start screen, nothing answered. */
    constructor()
      ensures Valid()
      ensures catalog == Questions && CurrentScreen() == StartScreen
      ensures !showAssessment && !showResults && !showBooking
      ensures currentQuestionIndex == 0 && currentLevel == 1 && answers == []
      ensures selectedAnswer == None && assessmentResults == None
    {
      QuestionsShape();
      catalog := Questions;
      showAssessment := false;
      showResults := false;
      showBooking := false;
      currentQuestionIndex := 0;
      currentLevel := 1;
      answers := [];
      selectedAnswer := None;
      assessmentResults := None;
    }

    /** `handleStartAssessment`: show the first question with nothing
        answered. Stored results and the booking flag are left as they are
        (the start button is shown only off the booking screen). */
    method StartAssessment()
      requires CatalogShape(catalog) && !showBooking
      modifies this
      ensures Valid()
      ensures CurrentScreen() == AssessmentScreen
      ensures showAssessment && !showResults && !showBooking
      ensures currentQuestionIndex == 0 && currentLevel == 1 && answers == [] && selectedAnswer == None
      ensures assessmentResults == old(assessmentResults)
    {
      showAssessment := true;
      showResults := false;
      currentQuestionIndex := 0;
      currentLevel := 1;
      answers := [];
      selectedAnswer := None;
    }

    /** `handleAnswerSelect`: pick an option for the current question. */
    method AnswerSelect(value: OptionKey)
      requires Valid() && CurrentScreen() == AssessmentScreen
      modifies this
      ensures Valid()
      ensures selectedAnswer == Some(value)
      ensures CurrentScreen() == AssessmentScreen
      ensures currentQuestionIndex == old(currentQuestionIndex) && currentLevel == old(currentLevel)
      ensures answers == old(answers) && assessmentResults == old(assessmentResults)
    {
      selectedAnswer := Some(value);
    }

    /** `handleNextQuestion`. Without a pick nothing happens. With one, the
        answer to the current question is appended; after the last question
        the whole list is scored and the results screen shown, the index
        staying on the last question; otherwise the next question is shown
        with the pick cleared and the level raised to that question's level
        when it is higher. */
    method NextQuestion()
      requires Valid() && CurrentScreen() == AssessmentScreen
      modifies this
      ensures Valid()
      ensures old(selectedAnswer).None? ==>
                CurrentScreen() == AssessmentScreen && answers == old(answers) &&
                currentQuestionIndex == old(currentQuestionIndex) && currentLevel == old(currentLevel) &&
                selectedAnswer == None && assessmentResults == old(assessmentResults)
      ensures old(selectedAnswer).Some? ==>
                answers == old(answers) + [AnswerTo(catalog[old(currentQuestionIndex)], old(selectedAnswer).value)]
      ensures old(selectedAnswer).Some? && old(currentQuestionIndex) == |catalog| - 1 ==>
                CurrentScreen() == ResultsScreen && currentQuestionIndex == old(currentQuestionIndex) &&
                currentLevel == old(currentLevel) && selectedAnswer == old(selectedAnswer) &&
                assessmentResults == Some(StoredFor(catalog, answers))
      ensures old(selectedAnswer).Some? && old(currentQuestionIndex) < |catalog| - 1 ==>
                CurrentScreen() == AssessmentScreen && currentQuestionIndex == old(currentQuestionIndex) + 1 &&
                currentLevel == RaisedLevel(old(currentLevel), catalog[currentQuestionIndex]) &&
                selectedAnswer == None && assessmentResults == old(assessmentResults)
    {
      if selectedAnswer.None? {
        return;
      }
      var currentQuestion := catalog[currentQuestionIndex];
      var newAnswer := AnswerTo(currentQuestion, selectedAnswer.value);
      AppendFollows(catalog, answers, selectedAnswer.value);
      var updatedAnswers := answers + [newAnswer];
      answers := updatedAnswers;
      if currentQuestionIndex >= |catalog| - 1 {
        assessmentResults := Some(StoredFor(catalog, updatedAnswers));
        showResults := true;
        showAssessment := false;
        return;
      }
      var nextIndex := currentQuestionIndex + 1;
      LevelFollowsQuestion(catalog, currentQuestionIndex);
      currentQuestionIndex := nextIndex;
      var nextQuestion := catalog[nextIndex];
      if nextQuestion.level > currentLevel {
        currentLevel := nextQuestion.level;
      }
      selectedAnswer := None;
    }

    /** `handlePrevQuestion`. Past the first question: drop the last answer,
        show the previous question with the pick cleared, and lower the
        level to that question's level when it is lower. On the first
        question: go back to the start screen with everything reset. */
    method PrevQuestion()
      requires Valid() && CurrentScreen() == AssessmentScreen
      modifies this
      ensures Valid()
      ensures old(currentQuestionIndex) > 0 ==>
                CurrentScreen() == AssessmentScreen && answers == old(answers)[..|old(answers)| - 1] &&
                currentQuestionIndex == old(currentQuestionIndex) - 1 &&
                currentLevel == LoweredLevel(old(currentLevel), catalog[currentQuestionIndex]) &&
                selectedAnswer == None
      ensures old(currentQuestionIndex) == 0 ==>
                CurrentScreen() == StartScreen && !showAssessment && !showResults &&
                currentQuestionIndex == 0 && currentLevel == 1 && answers == [] && selectedAnswer == None
      ensures assessmentResults == old(assessmentResults) && showBooking == old(showBooking)
    {
      if currentQuestionIndex > 0 {
        DropLastFollows(catalog, answers);
        var updatedAnswers := answers[..|answers| - 1];
        answers := updatedAnswers;
        var prevIndex := currentQuestionIndex - 1;
        LevelFollowsQuestion(catalog, prevIndex);
        currentQuestionIndex := prevIndex;
        var prevQuestion := catalog[prevIndex];
        if prevQuestion.level < currentLevel {
          currentLevel := prevQuestion.level;
        }
        selectedAnswer := None;
      } else {
        showAssessment := false;
        showResults := false;
        currentQuestionIndex := 0;
        currentLevel := 1;
        answers := [];
        selectedAnswer := None;
      }
    }

    /** `handleRetakeAssessment`: leave the results and start over. */
    method RetakeAssessment()
      requires Valid() && CurrentScreen() == ResultsScreen
      modifies this
      ensures Valid()
      ensures CurrentScreen() == AssessmentScreen
      ensures currentQuestionIndex == 0 && currentLevel == 1 && answers == [] && selectedAnswer == None
      ensures assessmentResults == old(assessmentResults)
    {
      showResults := false;
      StartAssessment();
    }

    /** `handleBookConsultation`: from the results to the booking screen. */
    method BookConsultation()
      requires Valid() && CurrentScreen() == ResultsScreen
      modifies this
      ensures Valid()
      ensures CurrentScreen() == BookingScreen && showBooking && !showResults
      ensures answers == old(answers) && assessmentResults == old(assessmentResults)
      ensures currentQuestionIndex == old(currentQuestionIndex) && currentLevel == old(currentLevel)
    {
      showBooking := true;
      showResults := false;
    }

    /** `handleBookingBack`: from the booking screen back to the results. */
    method BookingBack()
      requires Valid() && CurrentScreen() == BookingScreen
      modifies this
      ensures Valid()
      ensures CurrentScreen() == ResultsScreen && showResults && !showBooking
      ensures answers == old(answers) && assessmentResults == old(assessmentResults)
      ensures currentQuestionIndex == old(currentQuestionIndex) && currentLevel == old(currentLevel)
    {
      showBooking := false;
      showResults := true;
    }

    /** `handleBookingComplete`: the confirmed booking is handed over (and
        only logged); the session returns to the results. */
    method BookingComplete(booking: Booking.BookingForm)
      requires Valid() && CurrentScreen() == BookingScreen
      modifies this
      ensures Valid()
      ensures CurrentScreen() == ResultsScreen && showResults && !showBooking
      ensures answers == old(answers) && assessmentResults == old(assessmentResults)
      ensures currentQuestionIndex == old(currentQuestionIndex) && currentLevel == old(currentLevel)
    {
      showBooking := false;
      showResults := true;
    }

    /** The progress bar's width, `((index + 1) / 21) * 100` per cent. */
    function ProgressPercentage(): (p: real)
      requires Valid()
      reads this
      ensures 0.0 < p <= 100.0
      ensures p == 100.0 <==> currentQuestionIndex == |catalog| - 1
    {
      (currentQuestionIndex + 1) as real / |catalog| as real * 100.0
    }
  }

  /** On the results screen every question of the catalog has been
      answered, in order; every answer counts toward a scale; and the
      results rendered there, the scores of the whole list, show every
      percentage in 0..100. (A session's catalog is the DASS-21 catalog, so
      those results are `CalculateResults(answers)`.) */
  lemma CompletedSession(s: AssessmentSession)
    requires s.Valid() && s.CurrentScreen() == ResultsScreen
    ensures |s.answers| == |s.catalog|
    ensures forall i :: 0 <= i < |s.answers| ==> s.answers[i].questionId == s.catalog[i].id
    ensures KnownCount(s.catalog, s.answers) == |s.catalog|
    ensures forall c :: 0 <= ResultFor(ResultsWith(s.catalog, s.answers), c).percentage <= 100
    ensures s.assessmentResults.Some?
  {
    CompletedAnswers(s.catalog, s.answers);
  }

  /** Answering every question with the same key, starting from the start
      screen, ends on the results screen with one answer per question in
      catalog order and the scores of those answers stored. */
  method AnswerAll(s: AssessmentSession, k: OptionKey)
    requires s.Valid() && s.CurrentScreen() == StartScreen
    modifies s
    ensures s.Valid() && s.CurrentScreen() == ResultsScreen
    ensures |s.answers| == |s.catalog|
    ensures forall i :: 0 <= i < |s.catalog| ==> s.answers[i] == AnswerTo(s.catalog[i], k)
    ensures s.assessmentResults == Some(StoredFor(s.catalog, s.answers))
  {
    s.StartAssessment();
    var n := 0;
    while n < |s.catalog|
      invariant 0 <= n <= |s.catalog|
      invariant s.Valid()
      invariant n < |s.catalog| ==> s.CurrentScreen() == AssessmentScreen && s.currentQuestionIndex == n
      invariant n == |s.catalog| ==> s.CurrentScreen() == ResultsScreen
      invariant n == |s.catalog| ==> s.assessmentResults == Some(StoredFor(s.catalog, s.answers))
      invariant |s.answers| == n
      invariant forall i :: 0 <= i < n ==> s.answers[i] == AnswerTo(s.catalog[i], k)
      decreases |s.catalog| - n
    {
      s.AnswerSelect(k);
      s.NextQuestion();
      n := n + 1;
    }
  }
}
