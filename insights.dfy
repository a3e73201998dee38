/**
 * The advice `getStarInsights` derives from a STAR result: one opening
 * message for the overall level, then one message for each of five rules
 * whose condition holds, in a fixed order.
 */
module StarInsights {
  import opened Star

  /** The texts of the messages `getStarInsights` can report. */
  const ExcellentText: string := "🎉 Excellent overall well-being! You're thriving in both natural strengths and learned behaviors."
  const HighText: string := "🌟 Strong well-being foundation! You're doing great with both inherent and coherent attributes."
  const ModerateText: string := "📈 Good progress! There's room to strengthen both your natural abilities and daily habits."
  const LowText: string := "🌱 Building well-being foundation. Focus on developing both your inherent strengths and positive habits."
  const InherentAdviceText: string := "💪 Consider activities that build resilience, optimism, and emotional intelligence - your natural strengths."
  const CoherentAdviceText: string := "🧘 Focus on building healthy habits like mindfulness, balanced relationships, and work-life harmony."
  const ResilienceAdviceText: string := "🏋️‍♀️ Building resilience: Try journaling about challenges you've overcome to build confidence."
  const MindfulnessAdviceText: string := "🧘 Mindfulness practice: Even 5 minutes daily can make a big difference in your awareness."
  const RelationshipsAdviceText: string := "🤝 Nurture relationships: Reach out to friends or family for meaningful connections."

  /** The opening message for an overall level. */
  function OverallMessage(l: WellbeingLevel): string
  {
    match l
    case Excellent => ExcellentText
    case High => HighText
    case Moderate => ModerateText
    case Low => LowText
  }

  /** The five advice rules, in the order their messages are appended. */
  datatype Advice = InherentAdvice | CoherentAdvice | ResilienceAdvice | MindfulnessAdvice | RelationshipsAdvice

  const AdviceOrder: seq<Advice> := [InherentAdvice, CoherentAdvice, ResilienceAdvice, MindfulnessAdvice, RelationshipsAdvice]

  predicate AdviceApplies(r: StarAssessmentResult, a: Advice)
  {
    match a
    case InherentAdvice => r.inherent.percentage < 60
    case CoherentAdvice => r.coherent.percentage < 60
    case ResilienceAdvice => r.inherent.attributes.resilience.percentage < 50
    case MindfulnessAdvice => r.coherent.attributes.mindfulness.percentage < 50
    case RelationshipsAdvice => r.coherent.attributes.healthyRelationships.percentage < 50
  }

  function AdviceMessage(a: Advice): string
  {
    match a
    case InherentAdvice => InherentAdviceText
    case CoherentAdvice => CoherentAdviceText
    case ResilienceAdvice => ResilienceAdviceText
    case MindfulnessAdvice => MindfulnessAdviceText
    case RelationshipsAdvice => RelationshipsAdviceText
  }

  /** The rules of `rules` that apply to `r`, in rule order: a sub-list of
      the rules tried, each of which applies. */
  function AppliedRules(r: StarAssessmentResult, rules: seq<Advice>): (applied: seq<Advice>)
    ensures |applied| <= |rules|
    ensures forall i :: 0 <= i < |applied| ==> applied[i] in rules && AdviceApplies(r, applied[i])
  {
    if rules == [] then []
    else (if AdviceApplies(r, rules[0]) then [rules[0]] else []) + AppliedRules(r, rules[1..])
  }

  /** The messages of a list of rules. */
  function Messages(rules: seq<Advice>): (ms: seq<string>)
    ensures |ms| == |rules|
    ensures forall i :: 0 <= i < |rules| ==> ms[i] == AdviceMessage(rules[i])
  {
    if rules == [] then [] else [AdviceMessage(rules[0])] + Messages(rules[1..])
  }

  /** The insights `getStarInsights` reports: the opening message, then the
      message of every applicable rule, in rule order. */
  function InsightsFor(r: StarAssessmentResult): seq<string>
  {
    [OverallMessage(r.overallLevel)] + Messages(AppliedRules(r, AdviceOrder))
  }

  /** Rule order is preserved when one more rule is considered. */
  lemma {:induction false} AppliedRulesSnoc(r: StarAssessmentResult, rules: seq<Advice>, a: Advice)
    ensures AppliedRules(r, rules + [a]) == AppliedRules(r, rules) + (if AdviceApplies(r, a) then [a] else [])
  {
    if rules == [] {
      assert rules + [a] == [a] && [a][1..] == [];
    } else {
      assert (rules + [a])[0] == rules[0] && (rules + [a])[1..] == rules[1..] + [a];
      AppliedRulesSnoc(r, rules[1..], a);
    }
  }

  /** The rule as a list of one if it applies to `r`, else the empty list. */
  function IfApplies(r: StarAssessmentResult, a: Advice): seq<Advice>
  {
    if AdviceApplies(r, a) then [a] else []
  }

  /** The five rules considered one after the other. */
  lemma AppliedRulesUnrolled(r: StarAssessmentResult)
    ensures AppliedRules(r, AdviceOrder) ==
              IfApplies(r, InherentAdvice) + IfApplies(r, CoherentAdvice) + IfApplies(r, ResilienceAdvice) +
              IfApplies(r, MindfulnessAdvice) + IfApplies(r, RelationshipsAdvice)
  {
    var o := AdviceOrder;
    assert [o[0]] == [] + [o[0]];
    AppliedRulesSnoc(r, [], o[0]);
    AppliedRulesSnoc(r, o[..1], o[1]);
    assert o[..1] + [o[1]] == o[..2];
    AppliedRulesSnoc(r, o[..2], o[2]);
    assert o[..2] + [o[2]] == o[..3];
    AppliedRulesSnoc(r, o[..3], o[3]);
    assert o[..3] + [o[3]] == o[..4];
    AppliedRulesSnoc(r, o[..4], o[4]);
    assert o[..4] + [o[4]] == o;
  }

  /** One more rule adds its message at the end. */
  lemma MessagesSnoc(rules: seq<Advice>, a: Advice)
    ensures Messages(rules + [a]) == Messages(rules) + [AdviceMessage(a)]
  {
    assert forall i :: 0 <= i < |rules| ==> (rules + [a])[i] == rules[i];
  }

  /** The message of a rule as a list of one if it applies to `r`, else the empty list. */
  function MessageIfApplies(r: StarAssessmentResult, a: Advice): seq<string>
  {
    if AdviceApplies(r, a) then [AdviceMessage(a)] else []
  }

  /** Considering one more rule appends its message exactly when it applies. */
  lemma MessagesStep(opening: seq<string>, rules: seq<Advice>, r: StarAssessmentResult, a: Advice)
    ensures opening + Messages(rules + IfApplies(r, a)) == opening + Messages(rules) + MessageIfApplies(r, a)
  {
    if AdviceApplies(r, a) {
      MessagesSnoc(rules, a);
    } else {
      assert rules + [] == rules;
    }
  }

  /** The insights as the opening message followed by each rule's message when it applies. */
  lemma InsightsUnrolled(r: StarAssessmentResult)
    ensures InsightsFor(r) ==
              [OverallMessage(r.overallLevel)] + MessageIfApplies(r, InherentAdvice) + MessageIfApplies(r, CoherentAdvice) +
              MessageIfApplies(r, ResilienceAdvice) + MessageIfApplies(r, MindfulnessAdvice) +
              MessageIfApplies(r, RelationshipsAdvice)
  {
    AppliedRulesUnrolled(r);
    var opening := [OverallMessage(r.overallLevel)];
    var p0 := IfApplies(r, InherentAdvice);
    var p1 := p0 + IfApplies(r, CoherentAdvice);
    var p2 := p1 + IfApplies(r, ResilienceAdvice);
    var p3 := p2 + IfApplies(r, MindfulnessAdvice);
    assert opening + Messages(p0) == opening + MessageIfApplies(r, InherentAdvice);
    MessagesStep(opening, p0, r, CoherentAdvice);
    MessagesStep(opening, p1, r, ResilienceAdvice);
    MessagesStep(opening, p2, r, MindfulnessAdvice);
    MessagesStep(opening, p3, r, RelationshipsAdvice);
  }

  /** `getStarInsights`: pushes the opening message, then each advice whose condition holds. */
  method GetStarInsights(results: StarAssessmentResult) returns (insights: seq<string>)
    ensures insights == InsightsFor(results)
  {
    insights := [];
    if results.overallLevel == Excellent {
      insights := insights + [OverallMessage(Excellent)];
    } else if results.overallLevel == High {
      insights := insights + [OverallMessage(High)];
    } else if results.overallLevel == Moderate {
      insights := insights + [OverallMessage(Moderate)];
    } else {
      insights := insights + [OverallMessage(Low)];
    }
    ghost var expected := [OverallMessage(results.overallLevel)];
    assert insights == expected;
    if AdviceApplies(results, InherentAdvice) {
      insights := insights + [AdviceMessage(InherentAdvice)];
    }
    expected := expected + MessageIfApplies(results, InherentAdvice);
    assert insights == expected;
    if AdviceApplies(results, CoherentAdvice) {
      insights := insights + [AdviceMessage(CoherentAdvice)];
    }
    expected := expected + MessageIfApplies(results, CoherentAdvice);
    assert insights == expected;
    if AdviceApplies(results, ResilienceAdvice) {
      insights := insights + [AdviceMessage(ResilienceAdvice)];
    }
    expected := expected + MessageIfApplies(results, ResilienceAdvice);
    assert insights == expected;
    if AdviceApplies(results, MindfulnessAdvice) {
      insights := insights + [AdviceMessage(MindfulnessAdvice)];
    }
    expected := expected + MessageIfApplies(results, MindfulnessAdvice);
    assert insights == expected;
    if AdviceApplies(results, RelationshipsAdvice) {
      insights := insights + [AdviceMessage(RelationshipsAdvice)];
    }
    expected := expected + MessageIfApplies(results, RelationshipsAdvice);
    InsightsUnrolled(results);
  }

  lemma {:induction false} AppliedRulesMembers(r: StarAssessmentResult, rules: seq<Advice>, a: Advice)
    ensures a in AppliedRules(r, rules) <==> a in rules && AdviceApplies(r, a)
  {
    if rules != [] {
      AppliedRulesMembers(r, rules[1..], a);
      assert a in rules <==> a == rules[0] || a in rules[1..];
    }
  }

  /** The insights start with the one message for the overall level,
      followed by 0 to 5 advice messages: each rule contributes its message
      exactly when its condition holds, at most once, in rule order. */
  lemma InsightsShape(r: StarAssessmentResult)
    ensures 1 <= |InsightsFor(r)| <= 6
    ensures InsightsFor(r)[0] == OverallMessage(r.overallLevel)
    ensures forall a :: a in AppliedRules(r, AdviceOrder) <==> AdviceApplies(r, a)
    ensures forall i, j :: 0 <= i < j < |AppliedRules(r, AdviceOrder)| ==>
              AdviceRank(AppliedRules(r, AdviceOrder)[i]) < AdviceRank(AppliedRules(r, AdviceOrder)[j])
  {
    AppliedRulesOfOrder(r);
    AdviceOrderSorted();
    AppliedRulesOrdered(r, AdviceOrder);
  }

  /** Every rule is in `AdviceOrder`, so exactly the rules that apply are applied. */
  lemma AppliedRulesOfOrder(r: StarAssessmentResult)
    ensures forall a :: a in AppliedRules(r, AdviceOrder) <==> AdviceApplies(r, a)
  {
    forall a ensures a in AppliedRules(r, AdviceOrder) <==> AdviceApplies(r, a) {
      AppliedRulesMembers(r, AdviceOrder, a);
      assert AdviceOrder[AdviceRank(a)] == a;
    }
  }

  lemma AdviceOrderSorted()
    ensures RankSorted(AdviceOrder)
  {
  }

  /** The position of a rule in `AdviceOrder`. */
  function AdviceRank(a: Advice): nat
  {
    match a
    case InherentAdvice => 0
    case CoherentAdvice => 1
    case ResilienceAdvice => 2
    case MindfulnessAdvice => 3
    case RelationshipsAdvice => 4
  }

  predicate RankSorted(rules: seq<Advice>)
  {
    forall i, j :: 0 <= i < j < |rules| ==> AdviceRank(rules[i]) < AdviceRank(rules[j])
  }

  lemma {:induction false} AppliedRulesOrdered(r: StarAssessmentResult, rules: seq<Advice>)
    requires RankSorted(rules)
    ensures RankSorted(AppliedRules(r, rules))
    ensures forall i :: 0 <= i < |AppliedRules(r, rules)| ==> AppliedRules(r, rules)[i] in rules
  {
    if rules != [] {
      AppliedRulesOrdered(r, rules[1..]);
      var rest := AppliedRules(r, rules[1..]);
      forall i | 0 <= i < |rest| ensures AdviceRank(rules[0]) < AdviceRank(rest[i]) {
        var k :| 0 <= k < |rules[1..]| && rules[1..][k] == rest[i];
        assert rules[k + 1] == rest[i];
      }
    }
  }
}
