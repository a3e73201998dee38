# Magiteque assessment front end — a verified Dafny model

Magiteque is a React front end for two questionnaires and what comes after them:

- **DASS-21**: the 21-item Depression Anxiety Stress Scales. Each answer scores 0..3. Each scale's sum is doubled to the DASS-42 range, given as a rounded percentage of the answered maximum, and classified with the DASS severity cut-offs. An overall Healthy / At Risk flag is derived from the three percentages.
- **STAR of Well-Being**: a 12-item questionnaire. It reports unscaled Inherent and Coherent totals, per-attribute scores, four well-being levels, and an ordered list of advice messages.

The application itself walks the user through the DASS-21 questions one at a time. It shows the results, and from there offers a consultation booking form and a form that e-mails the results.

This project models that core in Dafny and proves its properties:

| file | module | models |
|---|---|---|
| `wrappers.dfy` | `Wrappers` | `Option` |
| `percent.dfy` | `Percent` | `Math.round(100 * a / b)` and the unrounded threshold tests, in exact integer arithmetic |
| `text.dfy` | `Text` | `toLowerCase` and `includes` on strings |
| `dass.dfy` | `Dass` | `src/data/questions.ts`: the catalog, `calculateResults` and the query helpers |
| `star.dfy` | `Star` | `src/data/star-assessment.ts`: the catalog, `calculateStarResults` and the filter helpers |
| `insights.dfy` | `StarInsights` | `getStarInsights` (a method that pushes onto a list, proved against a function) |
| `session.dfy` | `Session` | the session handlers of `src/App.tsx`, as the class `AssessmentSession` |
| `booking.dfy` | `Booking` | `src/components/BookingScreen.tsx`, as the class `BookingScreen` plus the month loop |
| `email.dfy` | `Email` | `getStatusColor` and the form state of `src/components/EmailSystem.tsx` |

Percentages are exact. For `b > 0`:
- `Math.round(100 * a / b)` is `floor((200a + b) / 2b)`.
- A test such as "percentage >= 80" on the unrounded percentage is `100a >= 80b`.

## Model

| member | source | states |
|---|---|---|
| Percent.FloorDivSpec | src/data/questions.ts:354-356 | the floor quotient used for rounding lies within one divisor of the dividend |
| Percent.RoundedPercent | src/data/questions.ts:354-356 | a percentage with no maximum is 0 (the `maxPossibleScore > 0` guard); otherwise it is the integer nearest `100a/b`, halves rounding up (`Math.round`) |
| Percent.RoundedPercentUnique | src/data/questions.ts:356 | any integer within half a point of `100a/b` (halves up) is the rounded percentage |
| Percent.RoundedPercentInRange | src/data/questions.ts:354-356 | a share `0 <= a <= b` rounds to a percentage in 0..100 |
| Percent.RoundedPercentEnds | src/data/questions.ts:354-356 | a full score rounds to 100 and a zero score to 0 |
| Percent.RoundedPercentMonotone | src/data/questions.ts:354-356 | a larger score never gets a smaller rounded percentage |
| Percent.RoundedPercentScale | src/data/questions.ts:352-356 | scaling score and maximum by the same factor (the DASS doubling) leaves the percentage unchanged |
| Percent.RoundedReachesThreshold | src/data/star-assessment.ts:283-288 | an unrounded percentage at or above a whole threshold also rounds to at least that threshold |
| Text.LowerChar | src/components/EmailSystem.tsx:137 | upper-case ASCII letters move down by 32; every other character is kept; the result is never upper case |
| Text.ToLowerIdempotent | src/components/EmailSystem.tsx:137 | lower-casing twice is lower-casing once |
| Text.ToLowerIgnoresCase | src/components/EmailSystem.tsx:137 | strings equal up to case lower-case to the same string |
| Text.ContainsSpec | src/components/EmailSystem.tsx:138-142 | the substring test holds exactly when the word occurs at some position |
| Text.ContainsFound | src/components/EmailSystem.tsx:138-142 | a successful substring test has a position where the word occurs |
| Text.ContainsAt | src/components/EmailSystem.tsx:138-142 | an occurrence at any position makes the substring test succeed |
| Text.NotContainsFirstChar | src/components/EmailSystem.tsx:138-142 | a word whose first letter appears at no candidate position does not occur |
| Text.NotContainsLonger | src/components/EmailSystem.tsx:138-142 | a word longer than the text does not occur |
| Dass.FindIn | src/data/questions.ts:335 | a question found by `find` has the id looked for and is in the catalog |
| Dass.FindInSpec | src/data/questions.ts:335 | the lookup fails exactly when no question has the id; otherwise it returns the first question with that id |
| Dass.FindInDistinct | src/App.tsx:56 | in a list with distinct ids, looking up an entry's id finds that entry |
| Dass.FilterLevel | src/data/questions.ts:402-404 | the filter keeps only questions at the level and never grows the list |
| Dass.GetQuestionsByLevel | src/data/questions.ts:402-404 | definition (stated by `QuestionsByLevelBlocks`) |
| Dass.GetTotalQuestions | src/data/questions.ts:406-408 | the catalog holds 21 questions |
| Dass.MaxLevelOf | src/data/questions.ts:410-412 | the maximum level bounds every level and is the level of some question |
| Dass.GetMaxLevel | src/data/questions.ts:410-412 | definition (stated by `MaxLevelIsFour`) |
| Dass.AnswersIn | src/data/questions.ts:334-347 | a category filter never grows the answer list |
| Dass.AnswersInSpec | src/data/questions.ts:334-347 | every answer a category filter keeps is a given answer whose question is in that category |
| Dass.SumScores | src/data/questions.ts:350 | with scores in 0..3 the raw sum lies in 0..3 per answer |
| Dass.CalculateCategoryScore | src/data/questions.ts:349-357 | the percentage is the rounded share of the raw sum in 3 per answer; no answers give {0, 0}; with scores in 0..3 the doubled score is at most 6 per answer and the percentage is in 0..100 |
| Dass.SeverityStatus | src/data/questions.ts:359-379 | definition (the DASS cut-off table, stated by `SeverityMatchesTable`) |
| Dass.CategoryOutcome | src/data/questions.ts:381-387 | definition (score, percentage and status of one scale) |
| Dass.ResultsWith | src/data/questions.ts:333-400 | definition (`calculateResults` over a given catalog; its properties are in `ResultsSpec`) |
| Dass.CalculateResults | src/data/questions.ts:333-400 | definition (`ResultsWith` over the 21-item catalog) |
| Dass.SumScoresAppend | src/data/questions.ts:350 | the sum over two lists joined is the sum of their sums |
| Dass.FilterThenSum | src/data/questions.ts:334-350 | filtering by category and summing equals the one-pass category total; the filtered length is the one-pass count |
| Dass.ResultsSpec | src/data/questions.ts:333-400 | for each scale, compared with a one-pass reference: score = twice the total; percentage = rounded share of the total in 3 per answer, 0 with no answers; status = severity of the doubled score |
| Dass.PercentagesInRange | src/data/questions.ts:353-356 | with every score in 0..3, every scale's percentage is in 0..100 and its score is non-negative |
| Dass.ZeroTotal | src/data/questions.ts:350 | answers that all score 0 give every scale a zero total |
| Dass.AllZeroAnswers | src/data/questions.ts:333-400 | all-zero answers give every scale {0, 0, Normal}, overall score 0 and status Healthy |
| Dass.UniformTotal | src/data/questions.ts:334-350 | answers that all fall in scale `c` with score `s` give total `s` times their number and count all of them |
| Dass.AllMaxInCategory | src/data/questions.ts:349-365 | answers of 3 on one scale give 100% and a doubled score of 6 per answer; seven Depression answers give {42, 100, Extremely Severe} |
| Dass.CategoryUniform | src/data/questions.ts:349-352 | when every answer on a scale has the same score s, the scale's total is s times its answer count |
| Dass.ZeroInCategory | src/data/questions.ts:349-387 | when every answer on a scale scores 0, whatever the other scales hold, that scale is {0, 0, Normal} |
| Dass.MaxInCategory | src/data/questions.ts:349-387 | when a scale has answers and each scores 3, whatever the other scales hold, it gets 100% and a doubled score of 6 per answer; seven Depression answers give {42, 100, Extremely Severe} |
| Dass.RaiseScoreTotals | src/data/questions.ts:334-352 | raising one answer's score keeps every scale's answer count and never lowers its total |
| Dass.RaisingScoreNeverLowers | src/data/questions.ts:334-387 | raising one answer's score never lowers any scale's score, percentage or severity |
| Dass.FindQuestionById | src/data/questions.ts:335 | a question is found exactly for ids 1..21, and id `n` finds the n-th catalog entry |
| Dass.DepressionAllMaxIsExtremelySevere | src/data/questions.ts:333-400 | the seven Depression items all answered "almost always" score {42, 100, Extremely Severe} |
| Dass.SingleOftenDepressionAnswer | src/data/questions.ts:349-365 | one Depression answer of 2 gives score 4, 67% (rounded from 66.7) and Normal |
| Dass.SeverityMatchesTable | src/data/questions.ts:324-330 | each band of `getSeverityStatus` is exactly the inclusive score range of the DASS-21 interpretation table, per scale |
| Dass.SeverityMonotone | src/data/questions.ts:359-379 | a higher doubled score never gives a less severe band on any scale |
| Dass.CategoryOfById | src/data/questions.ts:334-347 | an answer's scale is the listed scale of its item for ids 1..21, and none for every other id |
| Dass.AnswersInAppend | src/data/questions.ts:334-347 | the category filter distributes over joined answer lists |
| Dass.UnknownAnswerIgnored | src/data/questions.ts:334-347 | inserting an answer whose id is in no question leaves every result unchanged |
| Dass.PartitionByCategory | src/data/questions.ts:334-347 | every answer to a known question counts toward exactly one of the three scales |
| Dass.OverallStatusThreshold | src/data/questions.ts:389-391 | the overall score is the sum of the three doubled scores; the status is Healthy exactly when the three percentages add up to less than 120 |
| Dass.CatalogIds | src/data/questions.ts:43-322 | 21 questions with ids 1..21 in order |
| Dass.CatalogLevels | src/data/questions.ts:43-322 | levels start at 1, end at 4 and never decrease along the catalog |
| Dass.CatalogOptionScores | src/data/questions.ts:55-60 | every question scores never, sometimes, often and almost always as 0, 1, 2 and 3 |
| Dass.ItemCategoryListed | src/data/questions.ts:43-322 | the scale table of items 1..21 agrees with the item sets per scale |
| Dass.CatalogCategories | src/data/questions.ts:43-322 | each catalog question's scale is its item's listed scale |
| Dass.SevenItemsPerCategory | src/data/questions.ts:43-322 | each scale has seven items |
| Dass.FilterLevelAppend | src/data/questions.ts:402-404 | the level filter distributes over joined lists |
| Dass.FilterLevelAll | src/data/questions.ts:402-404 | a list at one level is kept whole by that level's filter |
| Dass.FilterLevelNone | src/data/questions.ts:402-404 | a list with no question at the level filters to nothing |
| Dass.CatalogLevelBlocks | src/data/questions.ts:43-322 | items 1-5, 6-10, 11-15 and 16-21 are at levels 1, 2, 3 and 4 |
| Dass.FilterLevelOnBlocks | src/data/questions.ts:402-404 | on a 21-question list in those four level blocks, the level filter returns exactly that level's block |
| Dass.FilterLevelInBlocks | src/data/questions.ts:402-404 | filtering 21 questions is filtering the four blocks and joining them |
| Dass.FilterLevelFour | src/data/questions.ts:402-404 | filtering four joined lists is joining their filters |
| Dass.FilterLevelBlock | src/data/questions.ts:402-404 | a block at one level is kept whole by that level's filter and dropped by every other |
| Dass.QuestionsByLevelBlocks | src/data/questions.ts:402-404 | `getQuestionsByLevel` returns exactly the catalog's questions at that level, in order, for levels 1..4, and nothing for any other level |
| Dass.MaxLevelIsFour | src/data/questions.ts:410-412 | `getMaxLevel` is 4 |
| Star.FindStar | src/data/star-assessment.ts:247 | a question found has the id looked for and is in the catalog |
| Star.FindStarNone | src/data/star-assessment.ts:247 | the lookup fails exactly when no question has the id |
| Star.FilterStarLevel | src/data/star-assessment.ts:222-224 | the level filter never grows the list |
| Star.FilterStarLevelSpec | src/data/star-assessment.ts:222-224 | every question kept by the level filter is at that level |
| Star.GetStarQuestionsByLevel | src/data/star-assessment.ts:222-224 | definition (stated by `StarQuestionsByLevel`) |
| Star.GetStarQuestionsByCategory | src/data/star-assessment.ts:234-236 | definition (stated by `StarQuestionsByCategory`) |
| Star.GetStarQuestionsByAttribute | src/data/star-assessment.ts:238-240 | definition (stated by `AttributeFilterComplete` and `ResilienceQuestions`) |
| Star.FilterStarCategory | src/data/star-assessment.ts:234-236 | the category filter keeps only questions of that category |
| Star.FilterStarAttribute | src/data/star-assessment.ts:238-240 | the attribute filter keeps only questions whose attribute matches up to case |
| Star.GetTotalStarQuestions | src/data/star-assessment.ts:226-228 | the catalog holds 12 questions |
| Star.MaxStarLevelOf | src/data/star-assessment.ts:230-232 | the maximum level bounds every level and is the level of some question |
| Star.AnswersInCategory | src/data/star-assessment.ts:246-254 | the category filter never grows the answer list |
| Star.AnswersInCategorySpec | src/data/star-assessment.ts:246-254 | every answer kept is a given answer whose question is in that category |
| Star.AnswersWithAttribute | src/data/star-assessment.ts:258-261 | the attribute filter never grows the answer list |
| Star.AnswersWithAttributeSpec | src/data/star-assessment.ts:258-261 | every answer kept is a given answer whose question carries the attribute up to case |
| Star.SumScores | src/data/star-assessment.ts:265 | with scores in 0..3 the sum lies in 0..3 per answer |
| Star.CalculateAttributeScore | src/data/star-assessment.ts:257-270 | no matching answer gives {0, 0}; with scores in 0..3 the percentage is in 0..100 and the score non-negative |
| Star.SumScoresAppend | src/data/star-assessment.ts:273-274 | the sum over two lists joined is the sum of their sums |
| Star.WellbeingLevelOf | src/data/star-assessment.ts:283-288 | definition (the four bands on the unrounded percentage, stated by `LevelBands`) |
| Star.InherentResultOf | src/data/star-assessment.ts:309-314 | definition (the Inherent block of the result) |
| Star.CoherentResultOf | src/data/star-assessment.ts:315-320 | definition (the Coherent block of the result) |
| Star.PooledLevel | src/data/star-assessment.ts:303-307 | definition (the overall level from the pooled totals) |
| Star.StarResultsWith | src/data/star-assessment.ts:244-325 | definition (`calculateStarResults` over a given catalog; its properties are in the `…Spec` lemmas) |
| Star.CalculateStarResults | src/data/star-assessment.ts:244-325 | definition (`StarResultsWith` over the 12-item catalog) |
| Star.CategoryFilterSum | src/data/star-assessment.ts:246-277 | filtering by category and summing equals the one-pass category total; the filtered length is the one-pass count |
| Star.AttributeFilterSum | src/data/star-assessment.ts:257-270 | filtering by category and then attribute keeps exactly the answers counted by the one-pass attribute reference, with the same sum |
| Star.CategoryScoreSpec | src/data/star-assessment.ts:273-274 | each category's score is its unscaled one-pass total |
| Star.CategoryPercentageSpec | src/data/star-assessment.ts:276-280 | each category's percentage is the rounded share of its total in 3 per answer, and 0 with no answers |
| Star.CategoryLevelSpec | src/data/star-assessment.ts:312-319 | each category's level is the band of its unrounded share, not of the rounded percentage |
| Star.OverallScoreSpec | src/data/star-assessment.ts:305 | the overall score is the Inherent total plus the Coherent total |
| Star.OverallLevelSpec | src/data/star-assessment.ts:305-323 | the overall level is the band of the pooled share: both totals over 3 per answer in either category |
| Star.AttributeSpec | src/data/star-assessment.ts:291-303 | each of the eight attributes reports the one-pass total of its category's answers that carry it, and that total's rounded share; {0, 0} when none carries it |
| Star.StarPercentagesInRange | src/data/star-assessment.ts:276-280 | with every score in 0..3, each category's percentage is in 0..100 and its score non-negative |
| Star.CategoryTotalInRange | src/data/star-assessment.ts:273-277 | with every score in 0..3, a category's total lies between 0 and its maximum |
| Star.EmptyAnswers | src/data/star-assessment.ts:263-287 | no answers give every score and percentage 0, every attribute {0, 0} and every level Low |
| Star.LevelBands | src/data/star-assessment.ts:283-288 | the levels are exactly the unrounded bands [80, ..), [60, 80), [40, 60) and below 40 |
| Star.LevelMonotone | src/data/star-assessment.ts:283-288 | a larger total never gives a lower level over the same maximum |
| Star.RaiseScoreTotals | src/data/star-assessment.ts:246-273 | raising one answer's score keeps every category's answer count and never lowers its total |
| Star.RaisingScoreNeverLowers | src/data/star-assessment.ts:246-320 | raising one answer's score never lowers a category's score, percentage or level |
| Star.LevelAgreesWithRounded | src/data/star-assessment.ts:312-313 | below a maximum of 40 points, the level of the unrounded share equals the band of the rounded percentage |
| Star.RoundingStaysBelow | src/data/star-assessment.ts:312-313 | with a maximum under 40 points, a share below a band edge (a multiple of 20) never rounds up to that edge |
| Star.RoundedLevelMismatch | src/data/star-assessment.ts:312-313 | 25 of 42 points is shown as 60% yet given level Moderate, because the level uses the unrounded share |
| Star.StarCatalogIds | src/data/star-assessment.ts:54-219 | 12 questions with ids 101..112 in order |
| Star.StarCatalogLevels | src/data/star-assessment.ts:54-219 | question `i` is at level `i / 3 + 1`, so levels never decrease from 1 to 4 |
| Star.StarOptionScores | src/data/star-assessment.ts:64-67 | option keys '1'..'4' give 1..4 stars and score 0..3 on every question |
| Star.StarCategoryAppend | src/data/star-assessment.ts:234-236 | the category filter distributes over joined lists |
| Star.StarCategoryBlock | src/data/star-assessment.ts:234-236 | filtering three questions keeps each one exactly when it has the category |
| Star.StarCatalogBlocks | src/data/star-assessment.ts:54-219 | the catalog is four joined blocks of three questions |
| Star.StarCategorySplit | src/data/star-assessment.ts:234-236 | filtering the catalog by category is filtering its questions one by one, in order |
| Star.StarQuestionsByCategory | src/data/star-assessment.ts:234-236 | `getStarQuestionsByCategory` lists exactly the 7 Inherent and the 5 Coherent questions, in order |
| Star.StarLevelAppend | src/data/star-assessment.ts:222-224 | the level filter distributes over joined lists |
| Star.StarLevelBlock | src/data/star-assessment.ts:222-224 | a three-question block at one level is kept whole by that level's filter and dropped by every other |
| Star.LevelFilterOnBlocks | src/data/star-assessment.ts:222-224 | on a catalog in four level blocks of three, the level filter returns exactly that level's block |
| Star.BlocksFiltered | src/data/star-assessment.ts:222-224 | each of the four blocks filters to itself at its level and to nothing at any other |
| Star.FilterInBlocks | src/data/star-assessment.ts:222-224 | filtering 12 questions is filtering the four blocks and joining them |
| Star.StarLevelBlockAt | src/data/star-assessment.ts:222-224 | a slice of three questions at one level filters to itself at that level and to nothing otherwise |
| Star.StarLevelBlocks | src/data/star-assessment.ts:222-224 | filtering four joined lists is joining their filters |
| Star.StarQuestionsByLevel | src/data/star-assessment.ts:222-224 | `getStarQuestionsByLevel` returns exactly the catalog's questions at that level, in order, for levels 1..4, and nothing otherwise |
| Star.LevelFilterOnBlockSlices | src/data/star-assessment.ts:222-224 | on a catalog in level blocks, level `l` filters to slice `3(l-1)..3l` |
| Star.StarCatalogInBlocks | src/data/star-assessment.ts:54-219 | the catalog is in four level blocks of three |
| Star.MaxStarLevelIsFour | src/data/star-assessment.ts:230-232 | `getMaxStarLevel` is 4 |
| Star.AttributeFilterIgnoresCase | src/data/star-assessment.ts:238-240 | attribute names equal up to case select the same questions |
| Star.AttributeFilterComplete | src/data/star-assessment.ts:238-240 | every question whose attribute matches up to case is selected |
| Star.StarAttributeAppend | src/data/star-assessment.ts:238-240 | the attribute filter distributes over joined lists |
| Star.StarAttributeBlock | src/data/star-assessment.ts:238-240 | filtering three questions keeps each one exactly when its attribute matches |
| Star.StarAttributeSplit | src/data/star-assessment.ts:238-240 | filtering the catalog by attribute is filtering its questions one by one, in order |
| Star.StarAttributesListed | src/data/star-assessment.ts:54-219 | questions 101 and 109 carry Resilience, and every other attribute name differs from it in length |
| Star.ResilienceQuestions | src/data/star-assessment.ts:238-240 | "resilience" in any case selects exactly questions 101 and 109 |
| StarInsights.OverallMessage | src/data/star-assessment.ts:332-340 | definition (one message per overall level) |
| StarInsights.AdviceApplies | src/data/star-assessment.ts:343-363 | definition (the condition of each advice) |
| StarInsights.InsightsFor | src/data/star-assessment.ts:328-365 | definition (the overall message then the advice that applies; `GetStarInsights` is proved against it) |
| StarInsights.AppliedRules | src/data/star-assessment.ts:343-363 | the advice kept is never longer than the rules tried, and every advice kept was tried and applies |
| StarInsights.Messages | src/data/star-assessment.ts:343-363 | one message per advice, in the same order |
| StarInsights.AppliedRulesSnoc | src/data/star-assessment.ts:343-363 | trying one more rule appends its advice exactly when it applies |
| StarInsights.AppliedRulesUnrolled | src/data/star-assessment.ts:343-363 | the advice is inherent, coherent, resilience, mindfulness, relationships, each kept exactly when its condition holds |
| StarInsights.MessagesSnoc | src/data/star-assessment.ts:343-363 | the message list of a rule list with one more rule ends with that rule's message |
| StarInsights.MessagesStep | src/data/star-assessment.ts:343-363 | one more conditional push adds that advice's message exactly when it applies |
| StarInsights.InsightsUnrolled | src/data/star-assessment.ts:328-365 | the insights are the overall message followed by each applying advice message in the fixed order |
| StarInsights.GetStarInsights | src/data/star-assessment.ts:328-365 | the list built by successive pushes is the overall message followed by the applying advice messages in order |
| StarInsights.AppliedRulesMembers | src/data/star-assessment.ts:343-363 | an advice is given exactly when it is among the rules tried and its condition holds |
| StarInsights.InsightsShape | src/data/star-assessment.ts:328-365 | 1..6 insights; the first is the overall-level message; an advice appears exactly when its condition holds; advice keeps the fixed order |
| StarInsights.AppliedRulesOfOrder | src/data/star-assessment.ts:343-363 | with the five rules in source order, an advice appears exactly when its condition holds |
| StarInsights.AdviceOrderSorted | src/data/star-assessment.ts:343-363 | the five rules are tried in increasing rank |
| StarInsights.AppliedRulesOrdered | src/data/star-assessment.ts:343-363 | keeping only the applying rules keeps their order, and keeps only rules that were tried |
| Session.Summarize | src/App.tsx:55-63 | definition (one summary line, with the fallbacks for an unknown id) |
| Session.RaisedLevel | src/App.tsx:78-81 | definition (the level after moving forward) |
| Session.LoweredLevel | src/App.tsx:97-100 | definition (the level after moving back) |
| Session.AnswerTo | src/App.tsx:41-45 | the recorded answer carries the current question's id and the selected key; when options are scored by rank it records the key's rank 0..3 |
| Session.StoredSummaries | src/App.tsx:51-64 | when the answers follow a catalog with distinct ids, the stored results are the scores of the whole list and summary line i quotes question i's text, level and scale with the chosen key |
| Session.LevelsSortedFrom | src/data/questions.ts:43-322 | a catalog whose levels never decrease by index satisfies the recursive sortedness used by the session |
| Session.ScoredByRankFrom | src/data/questions.ts:55-60 | a catalog scoring every option by its rank satisfies the recursive form |
| Session.QuestionsShape | src/data/questions.ts:43-322 | the DASS-21 catalog has 21 questions, starts at level 1, never decreases in level and scores options 0..3 |
| Session.ScoredByRankAt | src/App.tsx:44 | an answer to any question of such a catalog records a score of 0..3 |
| Session.AppendFollows | src/App.tsx:41-48 | appending the answer to the next question keeps the answer list in step with the catalog |
| Session.DropLastFollows | src/App.tsx:89-91 | dropping the last answer keeps the answer list in step with the catalog |
| Session.LevelFollowsQuestion | src/App.tsx:76-81 | because catalog levels never decrease, the raised or lowered level is always the current question's own level |
| Session.CompletedAnswers | src/App.tsx:51-64 | a full in-order answer list has scores in 0..3, every answer counted toward a scale, and every percentage in 0..100 |
| Session.KnownPrefix | src/data/questions.ts:334-347 | every answer of an in-step list is to a known question |
| Session.KnownAppend | src/data/questions.ts:334-347 | appending an answer adds one to the known count exactly when its question is known |
| Session.SummaryQuotesQuestion | src/App.tsx:55-63 | the summary stored for answer `i` quotes question `i`'s text, level and scale |
| Session.AssessmentSession.constructor | src/App.tsx:10-18 | the start screen with nothing answered, index 0, level 1 |
| Session.AssessmentSession.CurrentScreen | src/App.tsx:258-379 | definition (which screen the flags select) |
| Session.AssessmentSession.StartAssessment | src/App.tsx:24-31 | shows the first question with index 0, level 1, no answers and no pick |
| Session.AssessmentSession.AnswerSelect | src/App.tsx:33-35 | records the pick and changes nothing else |
| Session.AssessmentSession.NextQuestion | src/App.tsx:37-85 | without a pick nothing changes; with one, exactly one answer is appended; after the last question the whole list is scored and stored and the results shown, the index unchanged; otherwise the index advances, the pick is cleared and the level rises only to a higher next level; the invariant holds |
| Session.AssessmentSession.PrevQuestion | src/App.tsx:87-112 | past the first question the last answer is dropped, the index goes back, the pick is cleared and the level falls only to a lower previous level; on the first question the start screen returns with everything reset |
| Session.AssessmentSession.RetakeAssessment | src/App.tsx:114-117 | from the results, restarts at the first question with nothing answered |
| Session.AssessmentSession.BookConsultation | src/App.tsx:119-122 | from the results to the booking screen, answers and results kept |
| Session.AssessmentSession.BookingBack | src/App.tsx:124-127 | from booking back to the results screen, answers and results kept |
| Session.AssessmentSession.BookingComplete | src/App.tsx:129-134 | a completed booking returns to the results screen, answers and results kept |
| Session.AssessmentSession.ProgressPercentage | src/App.tsx:22 | the progress bar is above 0 and at most 100%, and full exactly on the last question |
| Session.CompletedSession | src/App.tsx:258-320 | on the results screen all 21 questions are answered in order, each counted, with every percentage in 0..100 and results stored |
| Session.AnswerAll | src/App.tsx:24-85 | answering every question with one key from the start screen ends on the results screen with one answer per question in order and their scores stored |
| Booking.SubmitReady | src/components/BookingScreen.tsx:94 | definition (the guard of `handleSubmit`) |
| Booking.ConfirmDisabled | src/components/BookingScreen.tsx:311 | definition (the `disabled` condition of the confirm button) |
| Booking.ConfirmDisabledIffNotReady | src/components/BookingScreen.tsx:311 | the Confirm button is disabled exactly when the submit guard fails; phone and service do not matter |
| Booking.NextMonth | src/components/BookingScreen.tsx:132 | definition (the month after, rolling December into January) |
| Booking.GetAvailableMonths | src/components/BookingScreen.tsx:124-140 | six months from today's, each valid, each the month after the previous one, wrapping December to January of the next year |
| Booking.BookingScreen.constructor | src/components/BookingScreen.tsx:56-68 | the service step with an empty form and today's month |
| Booking.BookingScreen.ServiceSelect | src/components/BookingScreen.tsx:70-73 | stores the service and moves to the details step; the text fields are untouched |
| Booking.BookingScreen.InputChange | src/components/BookingScreen.tsx:75-77 | changes only the named field |
| Booking.BookingScreen.DateSelect | src/components/BookingScreen.tsx:79-81 | changes only the date |
| Booking.BookingScreen.MonthSelect | src/components/BookingScreen.tsx:83-87 | stores the month and clears the date; every other field is untouched |
| Booking.BookingScreen.TimeSelect | src/components/BookingScreen.tsx:89-91 | sets the time to one of the offered slots and changes nothing else |
| Booking.BookingScreen.BackToService | src/components/BookingScreen.tsx:305 | back to the service step with the form kept |
| Booking.BookingScreen.Submit | src/components/BookingScreen.tsx:93-122 | moves to confirmation exactly when name, e-mail, date and time are all filled; the e-mail trigger fires once with the payload exactly then, when a trigger is present; the form is unchanged |
| Booking.BookingScreen.ReturnToAssessment | src/components/BookingScreen.tsx:342-345 | hands over the confirmed form, which passes the submit guard |
| Booking.BookingWalkthrough | src/components/BookingScreen.tsx:70-122 | choosing the first service, filling name, e-mail and date and picking an offered time slot reaches confirmation and triggers the e-mail with that form and service name |
| Email.StatusColor | src/components/EmailSystem.tsx:136-144 | the colour is one of the five band colours or the brand colour |
| Email.StatusColorSpec | src/components/EmailSystem.tsx:136-144 | each colour is chosen exactly when its word occurs in the lower-cased label and no earlier word does; the brand colour exactly when none occurs |
| Email.StatusColorIgnoresCase | src/components/EmailSystem.tsx:137 | labels equal up to case get the same colour |
| Email.BandColor | src/components/EmailSystem.tsx:136-144 | definition (the colour of each severity band) |
| Email.SeverityColor | src/components/EmailSystem.tsx:138-142 | each DASS-21 band label gets its own colour; "Extremely Severe" gets #7f1d1d, not #ef4444 |
| Email.SenderName | src/components/EmailSystem.tsx:45 | the name sent is the typed name, or a non-empty default when none was typed |
| Email.EmailForm.constructor | src/components/EmailSystem.tsx:24-28 | empty fields, not sending, not sent, no error |
| Email.EmailForm.SetUserEmail | src/components/EmailSystem.tsx:24 | changes only the address |
| Email.EmailForm.SetUserName | src/components/EmailSystem.tsx:25 | changes only the name |
| Email.EmailForm.Submit | src/components/EmailSystem.tsx:30-47 | with no address: the error asks for one and nothing is sent; otherwise the error is cleared, the form is sending, and the address and name are handed to the sender |
| Email.EmailForm.SendSettled | src/components/EmailSystem.tsx:48-53 | sending stops either way; sent exactly on success; the retry message exactly on failure |
| Email.RetryAfterFailure | src/components/EmailSystem.tsx:30-53 | a submit after a failed send starts the same send again |

## Left out

- Floating point: percentages use exact rational arithmetic. `Math.round` rounds exact halves up, as the source does on exact values. A quotient that a double cannot represent exactly, near a rounding half or a band edge, could round differently in the browser.
- `sendAssessmentResults`, `handleEmailTrigger` (src/App.tsx:136-254) and all console logging: these are I/O with no observable logic. In the model the e-mail trigger is a flag saying whether the callback is present, and the payload is returned.
- Email.EmailForm.Submit: the asynchronous send is split into `Submit` and `SendSettled(succeeded)`. The outcome of the send comes in as a parameter. The mock sender in the source never fails.
- The 2-second delay, audio, `AudioProvider`, `MuteButton`, `VolumeControl`, `CircularProgress`, `StartScreen`, `BlobCursor` and all JSX markup are browser effects or display, and are not modelled.
- `getDaysInMonth` (src/components/BookingScreen.tsx:142-161) and the month labels from `toLocaleDateString` depend on the clock, the time zone and the locale.
- Booking.GetAvailableMonths: today's month is passed in rather than read from the clock.
- The booking services' icons are display data and are not modelled.
- Text.ToLower: it lower-cases ASCII letters only; `toLowerCase` also folds other Unicode letters. The labels and attributes involved are ASCII.
- Session.AssessmentSession.Valid: it ties the stored results to the answer list only through `NextQuestion`'s postcondition, not as part of the invariant.
- Session.AssessmentSession.StartAssessment requires the booking flag to be off. The start button is rendered only off the booking screen.
- The session's catalog is a constant field that only the constructor sets, to the DASS-21 catalog.
- The answers summary stored with the results writes a missing scale as "General". The model writes it as `None`.
- The session handlers each require the screen on which the application renders their button.
- STAR per-attribute levels: the code computes none. It reports only a score and a percentage per attribute, so none are modelled.
- STAR catalog composition: the source comment says 6 Inherent and 6 Coherent questions. The catalog itself has 7 and 5, and the model follows the catalog.
- The STAR questionnaire is not wired into the session. The application only walks through DASS-21.
