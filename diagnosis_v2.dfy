/** The active diagnosis test (components/DiagnosisTest-v2.tsx): the session that
    records one answer per question, and the scorer that turns the recorded
    answers into a graded report. */
module DiagnosisV2 {
  import opened Wrappers
  import opened Types
  import opened Rounding
  import opened Ladders
  import opened Text
  import B = QuestionBankV2

  // ---------------------------------------------------------------------------
  // Answer records

  datatype Answer = Answer(
    questionId: string,
    category: B.Category,
    level: B.Difficulty,
    answer: int,
    isCorrect: bool)

  /** `a` is a record of question `q`: it copies the question's id, category and
      level, and it is correct exactly when a real option (not a skip) equal to the
      question's correct answer was chosen. */
  predicate Records(a: Answer, q: B.Question) {
    a.questionId == q.id && a.category == q.category && a.level == q.level
    && (a.isCorrect <==> a.answer >= 0 && q.correctAnswer == Some(a.answer as nat))
  }

  /** The record `handleNext` appends for option `choice`. */
  function Chosen(q: B.Question, choice: nat): (a: Answer)
    ensures Records(a, q) && a.answer == choice
  {
    Answer(q.id, q.category, q.level, choice, q.correctAnswer == Some(choice))
  }

  /** The record `handleSkip` appends. */
  function Skipped(q: B.Question): (a: Answer)
    ensures Records(a, q) && a.answer == -1 && !a.isCorrect
  {
    Answer(q.id, q.category, q.level, -1, false)
  }

  // ---------------------------------------------------------------------------
  // Tally

  datatype CategoryTally = CategoryTally(correct: nat, total: nat, basicCorrect: nat, advancedCorrect: nat)

  const Zero := CategoryTally(0, 0, 0, 0)

  datatype Tally = Tally(vocabulary: CategoryTally, reading: CategoryTally, situation: CategoryTally)

  /** One answer counted into its category's counters. */
  function Bump(t: CategoryTally, a: Answer): CategoryTally {
    CategoryTally(
      t.correct + (if a.isCorrect then 1 else 0),
      t.total + 1,
      t.basicCorrect + (if a.isCorrect && a.level == B.Basic then 1 else 0),
      t.advancedCorrect + (if a.isCorrect && a.level == B.Advanced then 1 else 0))
  }

  /** One step of the `forEach`: an answer of a category without counters is ignored. */
  function Record(t: Tally, a: Answer): Tally {
    match a.category
    case Vocabulary => t.(vocabulary := Bump(t.vocabulary, a))
    case Reading => t.(reading := Bump(t.reading, a))
    case Situation => t.(situation := Bump(t.situation, a))
    case Writing => t
  }

  /** The counters after the `forEach` over `answers`. */
  function TallyOf(answers: seq<Answer>): Tally
    decreases |answers|
  {
    if answers == [] then Tally(Zero, Zero, Zero)
    else Record(TallyOf(answers[..|answers| - 1]), answers[|answers| - 1])
  }

  /** The counters of category `c`; a category without counters reads as zero. */
  function Of(t: Tally, c: B.Category): CategoryTally {
    match c
    case Vocabulary => t.vocabulary
    case Reading => t.reading
    case Situation => t.situation
    case Writing => Zero
  }

  /** The tally loop of `handleSubmit`. */
  method TallyAnswers(answers: seq<Answer>) returns (t: Tally)
    ensures t == TallyOf(answers)
  {
    t := Tally(Zero, Zero, Zero);
    var i := 0;
    while i < |answers|
      invariant 0 <= i <= |answers|
      invariant t == TallyOf(answers[..i])
    {
      var a := answers[i];
      assert answers[..i + 1][..i] == answers[..i];
      match a.category {
        case Vocabulary =>
          t := t.(vocabulary := Bump(t.vocabulary, a));
        case Reading =>
          t := t.(reading := Bump(t.reading, a));
        case Situation =>
          t := t.(situation := Bump(t.situation, a));
        case Writing =>
      }
      i := i + 1;
    }
    assert answers[..i] == answers;
  }

  // Reference counts, one property of the answers at a time.

  /** Answers of category `c` that satisfy `correctOnly` and (when given) level `l`. */
  function CountOf(answers: seq<Answer>, c: B.Category, correctOnly: bool, l: Option<B.Difficulty>): nat
    decreases |answers|
  {
    if answers == [] then 0
    else
      var a := answers[|answers| - 1];
      CountOf(answers[..|answers| - 1], c, correctOnly, l)
      + (if a.category == c && (a.isCorrect || !correctOnly) && (l.None? || a.level == l.value) then 1 else 0)
  }

  /** The counters of a category are the counts of its answers, its correct answers,
      and its correct basic and advanced answers; an answer outside the three
      categories leaves every counter alone. */
  lemma {:induction false} TallyCounts(answers: seq<Answer>, c: B.Category)
    requires c != B.Writing
    ensures Of(TallyOf(answers), c) == CategoryTally(
      CountOf(answers, c, true, None), CountOf(answers, c, false, None),
      CountOf(answers, c, true, Some(B.Basic)), CountOf(answers, c, true, Some(B.Advanced)))
    decreases |answers|
  {
    if answers != [] {
      TallyCounts(answers[..|answers| - 1], c);
    }
  }

  /** Per category: correct basic plus correct advanced answers never exceed the
      correct answers, which never exceed the answers. */
  lemma {:induction false} TallyBounds(answers: seq<Answer>, c: B.Category)
    ensures Of(TallyOf(answers), c).basicCorrect + Of(TallyOf(answers), c).advancedCorrect
              <= Of(TallyOf(answers), c).correct <= Of(TallyOf(answers), c).total
    decreases |answers|
  {
    if answers != [] {
      TallyBounds(answers[..|answers| - 1], c);
    }
  }

  /** A writing answer does not move the tally. */
  lemma WritingIgnored(answers: seq<Answer>, a: Answer)
    requires a.category == B.Writing
    ensures TallyOf(answers + [a]) == TallyOf(answers)
  {
    assert (answers + [a])[..|answers|] == answers;
  }

  // ---------------------------------------------------------------------------
  // Scores

  datatype Detailed = Detailed(vocabulary: nat, reading: nat, situationJudgment: nat)

  /** `detailedScores`: each category's rounded percentage. */
  function DetailedScores(t: Tally): Detailed {
    Detailed(
      Percent(t.vocabulary.correct, t.vocabulary.total),
      Percent(t.reading.correct, t.reading.total),
      Percent(t.situation.correct, t.situation.total))
  }

  /** `overallScore`: the rounded mean of the already rounded category scores. */
  function OverallScore(d: Detailed): nat {
    Mean3(d.vocabulary, d.reading, d.situationJudgment)
  }

  /** Correct advanced answers over the three categories. */
  function AdvancedCorrect(t: Tally): nat {
    t.vocabulary.advancedCorrect + t.reading.advancedCorrect + t.situation.advancedCorrect
  }

  /** Each category score lies in [0, 100], is 0 without answers and 100 when all
      of them are correct; the overall score lies in [0, 100] too. */
  lemma ScoresInRange(answers: seq<Answer>)
    ensures DetailedScores(TallyOf(answers)).vocabulary <= 100
    ensures DetailedScores(TallyOf(answers)).reading <= 100
    ensures DetailedScores(TallyOf(answers)).situationJudgment <= 100
    ensures OverallScore(DetailedScores(TallyOf(answers))) <= 100
    ensures forall c :: c != B.Writing && CountOf(answers, c, false, None) == 0 ==>
      Percent(Of(TallyOf(answers), c).correct, Of(TallyOf(answers), c).total) == 0
  {
    var t := TallyOf(answers);
    TallyBounds(answers, B.Vocabulary);
    TallyBounds(answers, B.Reading);
    TallyBounds(answers, B.Situation);
    PercentBounds(t.vocabulary.correct, t.vocabulary.total);
    PercentBounds(t.reading.correct, t.reading.total);
    PercentBounds(t.situation.correct, t.situation.total);
    var d := DetailedScores(t);
    Mean3Between(d.vocabulary, d.reading, d.situationJudgment, 0, 100);
    forall c | c != B.Writing && CountOf(answers, c, false, None) == 0
      ensures Percent(Of(t, c).correct, Of(t, c).total) == 0
    {
      TallyCounts(answers, c);
      TallyBounds(answers, c);
      PercentBounds(Of(t, c).correct, Of(t, c).total);
    }
  }

  /** Rounding happens per category before averaging: no correct answer out of
      one in one category and two of three in each of the other two give the
      rounded percentages 0, 67 and 67, which average to 45, while the mean of
      the raw ratios (44.4...) rounds to 44. */
  lemma RoundingBeforeAveraging()
    ensures OverallScore(Detailed(Percent(0, 1), Percent(2, 3), Percent(2, 3))) == 45
    ensures RoundHalfUp((0.0 / 1.0 + 2.0 / 3.0 + 2.0 / 3.0) / 3.0 * 100.0) == 44
  {
    assert Percent(2, 3) == 67;
    assert Percent(0, 1) == 0;
    assert Mean3(0, 67, 67) == 45;
    var x := (0.0 / 1.0 + 2.0 / 3.0 + 2.0 / 3.0) / 3.0 * 100.0 + 0.5;
    assert x == 809.0 / 18.0;
    assert 44.0 <= x < 45.0;
  }

  /** `Math.round(advancedScore * 100)` with `advancedScore = adv / 9`. */
  function AdvancedSkills(adv: nat): nat {
    RoundRatio(100 * adv, 9)
  }

  /** With at most nine correct advanced answers the advanced score is a
      percentage; nine give 100 and none give 0. */
  lemma AdvancedSkillsBound(adv: nat)
    requires adv <= 9
    ensures AdvancedSkills(adv) <= 100
    ensures AdvancedSkills(adv) == 100 <==> adv == 9
    ensures AdvancedSkills(adv) == 0 <==> adv == 0
  {
  }

  /** The business-level ladder; `adv / 9` is compared as a real number. */
  function LevelOf(overall: int, adv: nat): BusinessLevel {
    var ratio := adv as real / 9.0;
    if overall >= 85 && ratio >= 0.7 then Executive
    else if overall >= 70 && ratio >= 0.5 then Advanced
    else if overall >= 50 then Intermediate
    else Entry
  }

  /** The ladder in integer terms: `adv / 9 >= 0.7` is `adv >= 7` and `adv / 9 >= 0.5` is `adv >= 5`. */
  lemma LevelOfExact(overall: int, adv: nat)
    ensures LevelOf(overall, adv) == Executive <==> overall >= 85 && adv >= 7
    ensures LevelOf(overall, adv) == Advanced <==> !(overall >= 85 && adv >= 7) && overall >= 70 && adv >= 5
    ensures LevelOf(overall, adv) == Intermediate <==>
              !(overall >= 85 && adv >= 7) && !(overall >= 70 && adv >= 5) && overall >= 50
    ensures LevelOf(overall, adv) == Entry <==> overall < 50
  {
    var ratio := adv as real / 9.0;
    assert ratio >= 0.7 <==> adv >= 7 by {
      assert adv as real == ratio * 9.0;
    }
    assert ratio >= 0.5 <==> adv >= 5 by {
      assert adv as real == ratio * 9.0;
    }
  }

  /** A better overall score or more correct advanced answers never lower the level. */
  lemma LevelOfMonotone(o1: int, a1: nat, o2: int, a2: nat)
    requires o1 <= o2 && a1 <= a2
    ensures Rank(LevelOf(o1, a1)) <= Rank(LevelOf(o2, a2))
  {
    LevelOfExact(o1, a1);
    LevelOfExact(o2, a2);
  }

  // ---------------------------------------------------------------------------
  // Strengths and weaknesses

  const StrengthSentinel := "Foundational business English skills"
  const WeaknessSentinel := "No major weaknesses identified"

  const VocabularyStrength := "Business vocabulary and terminology"
  const ReadingStrength := "Reading and comprehending business documents"
  const SituationStrength := "Professional judgment in business situations"
  const VocabularyWeakness := "Business vocabulary"
  const ReadingWeakness := "Business document comprehension"
  const SituationWeakness := "Situational judgment skills"

  /** The three category scores with their strength and weakness labels, in the
      order they are checked. */
  function Axes(d: Detailed): (r: seq<Axis>)
    ensures |r| == 3 && DistinctLabels(r)
  {
    [Axis(d.vocabulary, VocabularyStrength, VocabularyWeakness),
     Axis(d.reading, ReadingStrength, ReadingWeakness),
     Axis(d.situationJudgment, SituationStrength, SituationWeakness)]
  }

  /** The three `if`/`push` pairs of `handleSubmit`. */
  method SplitScores(d: Detailed) returns (strengths: seq<string>, weaknesses: seq<string>)
    ensures strengths == Strengths(Axes(d)) && weaknesses == Weaknesses(Axes(d))
  {
    var axes := Axes(d);
    strengths, weaknesses := [], [];
    if d.vocabulary >= 70 {
      strengths := strengths + [VocabularyStrength];
    } else {
      weaknesses := weaknesses + [VocabularyWeakness];
    }
    if d.reading >= 70 {
      strengths := strengths + [ReadingStrength];
    } else {
      weaknesses := weaknesses + [ReadingWeakness];
    }
    if d.situationJudgment >= 70 {
      strengths := strengths + [SituationStrength];
    } else {
      weaknesses := weaknesses + [SituationWeakness];
    }
    SplitOfThree(axes);
  }

  /** The two splits of three axes, written out. */
  lemma SplitOfThree(axes: seq<Axis>)
    requires |axes| == 3
    ensures Strengths(axes) == (if axes[0].score >= StrengthMark then [axes[0].strength] else [])
      + (if axes[1].score >= StrengthMark then [axes[1].strength] else [])
      + (if axes[2].score >= StrengthMark then [axes[2].strength] else [])
    ensures Weaknesses(axes) == (if axes[0].score >= StrengthMark then [] else [axes[0].weakness])
      + (if axes[1].score >= StrengthMark then [] else [axes[1].weakness])
      + (if axes[2].score >= StrengthMark then [] else [axes[2].weakness])
  {
    var t1 := axes[1..];
    var t2 := t1[1..];
    assert t1[0] == axes[1] && t2[0] == axes[2] && t2[1..] == [];
    assert Strengths(t2) == (if axes[2].score >= StrengthMark then [axes[2].strength] else []);
    assert Weaknesses(t2) == (if axes[2].score >= StrengthMark then [] else [axes[2].weakness]);
    assert Strengths(t1) == (if axes[1].score >= StrengthMark then [axes[1].strength] else []) + Strengths(t2);
    assert Weaknesses(t1) == (if axes[1].score >= StrengthMark then [] else [axes[1].weakness]) + Weaknesses(t2);
  }

  // ---------------------------------------------------------------------------
  // Interview readiness

  /** `getInterviewReadiness`: the tier from the overall score and the mean of the
      reading and situation scores, with its description and three tips. */
  function Readiness(overall: int, d: Detailed): (r: InterviewReadiness)
    ensures r.level == ReadinessTier(overall, d.reading, d.situationJudgment)
    ensures |r.tips| == 3
  {
    match ReadinessTier(overall, d.reading, d.situationJudgment)
    case Confident => ConfidentAdvice
    case Ready => ReadyAdvice
    case BasicReady => BasicReadyAdvice
    case NotReady => NotReadyAdvice
  }

  const ConfidentAdvice := InterviewReadiness(Confident,
    "You are well-prepared for English business interviews",
    ["Practice industry-specific terminology",
     "Prepare STAR-format answers for common questions",
     "Focus on demonstrating your communication confidence"])

  const ReadyAdvice := InterviewReadiness(Ready,
    "You can handle basic English interviews with some preparation",
    ["Prepare and practice self-introduction thoroughly",
     "Study common interview question patterns",
     "Work on speaking pace and clarity"])

  const BasicReadyAdvice := InterviewReadiness(BasicReady,
    "Additional preparation recommended before English interviews",
    ["Master your self-introduction first",
     "Learn key business English phrases",
     "Practice with mock interviews"])

  const NotReadyAdvice := InterviewReadiness(NotReady,
    "Foundational improvement needed before English interviews",
    ["Focus on building core business vocabulary",
     "Practice listening comprehension",
     "Start with basic business conversation practice"])

  // ---------------------------------------------------------------------------
  // Roadmap

  /** `weaknesses.map(w => `Improve ${w.toLowerCase()}`)`. */
  function ImproveGoals(weaknesses: seq<string>): (r: seq<string>)
    ensures |r| == |weaknesses|
    ensures forall i :: 0 <= i < |r| ==> r[i] == "Improve " + Lower(weaknesses[i])
  {
    seq(|weaknesses|, i requires 0 <= i < |weaknesses| => "Improve " + Lower(weaknesses[i]))
  }

  /** `generateRoadmap`: the plan for a level; the intermediate plan starts with
      one goal per weakness. */
  function Roadmap(level: BusinessLevel, weaknesses: seq<string>): seq<RoadmapPhase> {
    match level
    case Entry => EntryPlan
    case Intermediate => [RoadmapPhase(1, "Skill Strengthening", "1-2 months", ImproveGoals(weaknesses))] + IntermediateLater
    case Advanced => AdvancedPlan
    case Executive => ExecutivePlan
  }

  const EntryPlan := [
    RoadmapPhase(1, "Foundation Building", "1-2 months",
      ["Master 500 essential business terms", "Practice daily email writing", "Learn meeting basics"]),
    RoadmapPhase(2, "Practical Application", "2-3 months",
      ["Handle basic client communications", "Participate in English meetings", "Write simple reports"]),
    RoadmapPhase(3, "Confidence Building", "2-3 months",
      ["Lead small meetings", "Handle phone conversations", "Prepare for interviews"])]

  /** The second and third phases of the intermediate plan. */
  const IntermediateLater := [
    RoadmapPhase(2, "Professional Communication", "2-3 months",
      ["Complex negotiations", "Presentation skills", "Cross-cultural communication"]),
    RoadmapPhase(3, "Interview Preparation", "1 month",
      ["Mock interview practice", "Industry-specific vocabulary", "Behavioral question preparation"])]

  const AdvancedPlan := [
    RoadmapPhase(1, "Executive Skills", "1-2 months",
      ["Strategic communication", "Leadership language", "High-stakes negotiations"]),
    RoadmapPhase(2, "Specialization", "1-2 months",
      ["Industry expertise", "Board-level presentations", "Global team leadership"])]

  const ExecutivePlan := [
    RoadmapPhase(1, "Continuous Excellence", "Ongoing",
      ["Stay current with business terminology", "Cross-cultural leadership", "Executive presence refinement"])]

  /** Entry and intermediate plans have three phases, advanced two, executive one;
      phases are numbered from 1; the intermediate plan's first phase improves each
      weakness in turn. */
  lemma RoadmapShape(level: BusinessLevel, weaknesses: seq<string>)
    ensures |Roadmap(level, weaknesses)| == (match level case Entry => 3 case Intermediate => 3 case Advanced => 2 case Executive => 1)
    ensures forall i :: 0 <= i < |Roadmap(level, weaknesses)| ==> Roadmap(level, weaknesses)[i].phase == i + 1
    ensures level == Intermediate ==>
      |Roadmap(level, weaknesses)[0].goals| == |weaknesses| &&
      forall i :: 0 <= i < |weaknesses| ==> Roadmap(level, weaknesses)[0].goals[i] == "Improve " + Lower(weaknesses[i])
  {
  }

  /** When every category scores at least 70 there is no weakness to improve, so
      the intermediate plan starts with a phase without goals. */
  lemma RoadmapWithoutWeaknesses(d: Detailed)
    requires d.vocabulary >= 70 && d.reading >= 70 && d.situationJudgment >= 70
    ensures Roadmap(Intermediate, Weaknesses(Axes(d)))[0].goals == []
  {
    SplitIsPartition(Axes(d));
  }

  // ---------------------------------------------------------------------------
  // Recommendations

  const VocabularyTip := "Focus on expanding your business vocabulary through daily practice with business news and industry publications."
  const ReadingTip := "Improve reading comprehension by practicing with actual business documents, contracts, and professional emails."
  const SituationTip := "Develop situational judgment by studying case studies and practicing role-play scenarios."
  const CertificationTip := "For job transitions, consider obtaining a recognized certification like TOEIC Business or BEC to validate your skills."
  const InterviewTip := "Practice mock interviews with native speakers or AI tools to build confidence for real interview situations."
  const FallbackTip := "Continue practicing to maintain and improve your business English skills."

  /** The five rules of `generateRecommendations`, in the order they are tried. */
  function Rules(profile: UserProfile, d: Detailed): (r: seq<Rule>)
    ensures |r| == 5
  {
    [Rule(d.vocabulary < 60, VocabularyTip),
     Rule(d.reading < 60, ReadingTip),
     Rule(d.situationJudgment < 60, SituationTip),
     Rule(profile.goal == JobChange, CertificationTip),
     Rule(Interview in profile.englishUsage, InterviewTip)]
  }

  /** The recommendations: the fired rules, or the single fallback when none fires. */
  function RecommendationsOf(profile: UserProfile, d: Detailed): seq<string> {
    var fired := Fired(Rules(profile, d));
    if |fired| > 0 then fired else [FallbackTip]
  }

  /** `generateRecommendations` builds the list by conditional pushes. */
  method GenerateRecommendations(profile: UserProfile, level: BusinessLevel, weaknesses: seq<string>, d: Detailed)
    returns (recommendations: seq<string>)
    ensures recommendations == RecommendationsOf(profile, d)
  {
    recommendations := [];
    recommendations := PushIf(recommendations, d.vocabulary < 60, VocabularyTip);
    recommendations := PushIf(recommendations, d.reading < 60, ReadingTip);
    recommendations := PushIf(recommendations, d.situationJudgment < 60, SituationTip);
    recommendations := PushIf(recommendations, profile.goal == JobChange, CertificationTip);
    recommendations := PushIf(recommendations, Interview in profile.englishUsage, InterviewTip);
    FiredOfFive(Rules(profile, d));
    if |recommendations| == 0 {
      recommendations := [FallbackTip];
    }
  }

  /** `Fired` over five rules, written out. */
  lemma FiredOfFive(rules: seq<Rule>)
    requires |rules| == 5
    ensures Fired(rules) == Fired([]) + (if rules[0].fires then [rules[0].text] else [])
      + (if rules[1].fires then [rules[1].text] else []) + (if rules[2].fires then [rules[2].text] else [])
      + (if rules[3].fires then [rules[3].text] else []) + (if rules[4].fires then [rules[4].text] else [])
  {
    FiredPrefix(rules, 0);
    FiredPrefix(rules, 1);
    FiredPrefix(rules, 2);
    FiredPrefix(rules, 3);
    FiredPrefix(rules, 4);
    assert rules[..0] == [] && rules[..5] == rules;
  }

  /** The list is never empty; the fallback is given exactly when no rule fires,
      and each rule's text is listed exactly when its condition holds. */
  lemma RecommendationsFacts(profile: UserProfile, d: Detailed)
    ensures RecommendationsOf(profile, d) != []
    ensures RecommendationsOf(profile, d) == [FallbackTip] <==>
      d.vocabulary >= 60 && d.reading >= 60 && d.situationJudgment >= 60
      && profile.goal != JobChange && Interview !in profile.englishUsage
    ensures |RecommendationsOf(profile, d)| <= 5
    ensures VocabularyTip in RecommendationsOf(profile, d) <==> d.vocabulary < 60
    ensures ReadingTip in RecommendationsOf(profile, d) <==> d.reading < 60
    ensures SituationTip in RecommendationsOf(profile, d) <==> d.situationJudgment < 60
    ensures CertificationTip in RecommendationsOf(profile, d) <==> profile.goal == JobChange
    ensures InterviewTip in RecommendationsOf(profile, d) <==> Interview in profile.englishUsage
  {
    var rules := Rules(profile, d);
    RulesDistinct(profile, d);
    FiredMembers(rules, FallbackTip);
    FiredIff(rules, 0);
    FiredIff(rules, 1);
    FiredIff(rules, 2);
    FiredIff(rules, 3);
    FiredIff(rules, 4);
  }

  /** The six texts differ, so no two rules share one and none is the fallback. */
  lemma RulesDistinct(profile: UserProfile, d: Detailed)
    ensures DistinctTexts(Rules(profile, d))
    ensures forall i :: 0 <= i < 5 ==> Rules(profile, d)[i].text != FallbackTip
  {
    assert |VocabularyTip| == 112 && |ReadingTip| == 111 && |SituationTip| == 89;
    assert |CertificationTip| == 118 && |InterviewTip| == 108 && |FallbackTip| == 73;
  }

  // ---------------------------------------------------------------------------
  // Services

  const StudySapuri := Service(1, "スタディサプリ ENGLISH ビジネス英語コース",
    "Comprehensive business English learning app optimized for Japanese learners",
    "app", "月額3,278円〜", "7日間無料体験",
    "Structured curriculum covering all aspects of business English",
    "https://px.a8.net/svt/ejp?a8mat=4AVI3Y+5CB16A+3AQG+TSBEB")

  const Bizmates := Service(2, "Bizmates",
    "Business-focused online English lessons with experienced instructors",
    "online-lesson", "月額13,200円〜", "無料体験レッスンあり",
    "Practice real business scenarios with professional trainers",
    "https://www.bizmates.jp/")

  const InterviewToolName := "Interview Practice Tool"

  /** The interview tool, ranked after whatever precedes it. */
  function InterviewTool(rank: nat): (s: Service)
    ensures s.rank == rank && s.name == InterviewToolName
  {
    Service(rank, InterviewToolName, "AI-powered mock interviews for job seekers",
      "tool", "無料", "", "Practice interview scenarios to build confidence", "/interview-tool")
  }

  /** `w.toLowerCase().includes('situation') || w.toLowerCase().includes('judgment')`. */
  predicate MentionsJudgmentIn(w: string) {
    Contains(Lower(w), "situation") || Contains(Lower(w), "judgment")
  }

  /** `weaknesses.some(...)` over that test. */
  predicate MentionsJudgment(weaknesses: seq<string>) {
    exists i :: 0 <= i < |weaknesses| && MentionsJudgmentIn(weaknesses[i])
  }

  /** The service list: the app, Bizmates for a situation or judgment weakness,
      and the interview tool for interview use. */
  function ServicesOf(profile: UserProfile, weaknesses: seq<string>): seq<Service> {
    var s := [StudySapuri] + (if MentionsJudgment(weaknesses) then [Bizmates] else []);
    s + (if Interview in profile.englishUsage then [InterviewTool(|s| + 1)] else [])
  }

  /** `generateServiceRecommendations` builds the list by conditional pushes. */
  method GenerateServices(profile: UserProfile, level: BusinessLevel, weaknesses: seq<string>)
    returns (services: seq<Service>)
    ensures services == ServicesOf(profile, weaknesses)
  {
    services := [StudySapuri];
    if MentionsJudgment(weaknesses) {
      services := services + [Bizmates];
    }
    if Interview in profile.englishUsage {
      services := services + [InterviewTool(|services| + 1)];
    }
  }

  /** Ranks run 1, 2, ... in order; the app always comes first; Bizmates is listed
      exactly for a situation or judgment weakness and the interview tool exactly
      for interview use. */
  lemma ServicesFacts(profile: UserProfile, weaknesses: seq<string>)
    ensures RanksConsecutive(ServicesOf(profile, weaknesses))
    ensures 1 <= |ServicesOf(profile, weaknesses)| <= 3
    ensures ServicesOf(profile, weaknesses)[0] == StudySapuri
    ensures Bizmates in ServicesOf(profile, weaknesses) <==> MentionsJudgment(weaknesses)
    ensures (exists i :: 0 <= i < |ServicesOf(profile, weaknesses)| && ServicesOf(profile, weaknesses)[i].name == InterviewToolName)
              <==> Interview in profile.englishUsage
  {
    var r := ServicesOf(profile, weaknesses);
    assert |StudySapuri.name| == 25 && |Bizmates.name| == 8 && |InterviewToolName| == 23;
    if Interview in profile.englishUsage {
      assert r[|r| - 1].name == InterviewToolName;
    }
    if Bizmates in r {
      assert exists i :: 0 <= i < |r| && r[i] == Bizmates;
    }
    if exists i :: 0 <= i < |r| && r[i].name == InterviewToolName {
      var i :| 0 <= i < |r| && r[i].name == InterviewToolName;
      assert r[i] != StudySapuri && r[i] != Bizmates;
    }
  }

  /** For the scorer's own weakness labels, Bizmates is recommended exactly when the
      situation score is below 70. */
  lemma BizmatesIffWeakJudgment(d: Detailed)
    ensures MentionsJudgment(Weaknesses(Axes(d))) <==> d.situationJudgment < 70
  {
    var axes := Axes(d);
    VocabularyLabelLower(axes[0].weakness);
    DocumentLabelLower(axes[1].weakness);
    SituationLabelLower(axes[2].weakness);
    OnlyLastMentions(axes);
  }

  /** Of three axes whose last weakness label alone mentions situation or judgment,
      the weakness list mentions them exactly when the last axis is weak. */
  lemma OnlyLastMentions(axes: seq<Axis>)
    requires |axes| == 3
    requires !MentionsJudgmentIn(axes[0].weakness) && !MentionsJudgmentIn(axes[1].weakness)
    requires MentionsJudgmentIn(axes[2].weakness)
    ensures MentionsJudgment(Weaknesses(axes)) <==> axes[2].score < StrengthMark
  {
    SplitOfThree(axes);
    var ws := Weaknesses(axes);
    if axes[2].score < StrengthMark {
      assert ws[|ws| - 1] == axes[2].weakness;
    } else {
      assert forall i :: 0 <= i < |ws| ==> ws[i] == axes[0].weakness || ws[i] == axes[1].weakness;
    }
  }

  lemma VocabularyLabelLower(s: string)
    requires s == "Business vocabulary"
    ensures !MentionsJudgmentIn(s)
  {
    NoMention(s, 't', 'T', 2);
  }

  lemma DocumentLabelLower(s: string)
    requires s == "Business document comprehension"
    ensures !MentionsJudgmentIn(s)
  {
    NoMention(s, 'a', 'A', 4);
  }

  lemma SituationLabelLower(s: string)
    requires s == "Situational judgment skills"
    ensures MentionsJudgmentIn(s)
  {
    var p := "situation";
    assert forall i :: 0 <= i < 9 ==> LowerChar(s[i]) == p[i];
    assert Lower(s)[..9] == p;
    PrefixContained(Lower(s), p);
  }

  /** A text holding no 'j' and neither case of some letter of "situation"
      mentions neither word. */
  lemma NoMention(s: string, c: char, upper: char, k: nat)
    requires k < 9 && "situation"[k] == c && 'a' <= c <= 'z' && upper as int == c as int - 32
    requires forall i :: 0 <= i < |s| ==> s[i] != c && s[i] != upper && s[i] != 'j' && s[i] != 'J'
    ensures !MentionsJudgmentIn(s)
  {
    var l := Lower(s);
    assert forall i :: 0 <= i < |l| ==> l[i] != c && l[i] != 'j';
    MissingCharNotContained(l, "situation", k);
    MissingCharNotContained(l, "judgment", 0);
  }

  // ---------------------------------------------------------------------------
  // The graded report

  /** What `handleSubmit` hands to `onComplete` for the recorded answers. The
      roadmap, the recommendations and the services see the weakness list before
      the sentinel replaces an empty one. */
  function Diagnosis(profile: UserProfile, answers: seq<Answer>): DiagnosisResult<SkillScore> {
    var t := TallyOf(answers);
    var d := DetailedScores(t);
    var overall := OverallScore(d);
    var level := LevelOf(overall, AdvancedCorrect(t));
    var axes := Axes(d);
    DiagnosisResult(profile, level, overall,
      SkillScore(d.vocabulary, d.reading, d.situationJudgment, AdvancedSkills(AdvancedCorrect(t))),
      OrSentinel(Strengths(axes), StrengthSentinel),
      OrSentinel(Weaknesses(axes), WeaknessSentinel),
      Readiness(overall, d),
      RecommendationsOf(profile, d),
      Roadmap(level, Weaknesses(axes)),
      ServicesOf(profile, Weaknesses(axes)))
  }

  /** The computation of `handleSubmit`, step by step. */
  method ScoreAnswers(profile: UserProfile, answers: seq<Answer>) returns (result: DiagnosisResult<SkillScore>)
    ensures result == Diagnosis(profile, answers)
  {
    var t := TallyAnswers(answers);
    var d := DetailedScores(t);
    var overall := OverallScore(d);
    var adv := AdvancedCorrect(t);
    var level := LevelOf(overall, adv);
    var strengths, weaknesses := SplitScores(d);
    var readiness := Readiness(overall, d);
    var roadmap := Roadmap(level, weaknesses);
    var recommendations := GenerateRecommendations(profile, level, weaknesses, d);
    var services := GenerateServices(profile, level, weaknesses);
    result := DiagnosisResult(profile, level, overall,
      SkillScore(d.vocabulary, d.reading, d.situationJudgment, AdvancedSkills(adv)),
      if |strengths| > 0 then strengths else [StrengthSentinel],
      if |weaknesses| > 0 then weaknesses else [WeaknessSentinel],
      readiness, recommendations, roadmap, services);
  }

  /** Whatever the answers, the three category scores and the overall score are
      percentages, and the readiness tier is the ladder's tier for them. */
  lemma DiagnosisScores(profile: UserProfile, answers: seq<Answer>)
    ensures var r := Diagnosis(profile, answers);
      r.skillScores.vocabulary <= 100 && r.skillScores.reading <= 100
      && r.skillScores.situationJudgment <= 100 && r.overallScore <= 100
    ensures var r := Diagnosis(profile, answers);
      r.interviewReadiness.level == ReadinessTier(r.overallScore, r.skillScores.reading, r.skillScores.situationJudgment)
  {
    ScoresInRange(answers);
  }

  /** A category is a strength exactly when it scores at least 70 and a weakness
      otherwise, and neither list is empty. */
  lemma DiagnosisLabels(profile: UserProfile, answers: seq<Answer>)
    ensures var r := Diagnosis(profile, answers);
      r.strengths != [] && r.weaknesses != []
    ensures var r := Diagnosis(profile, answers);
      (VocabularyStrength in r.strengths <==> r.skillScores.vocabulary >= 70)
      && (VocabularyWeakness in r.weaknesses <==> r.skillScores.vocabulary < 70)
  {
    var axes := Axes(DetailedScores(TallyOf(answers)));
    SplitMembership(axes, 0);
    SentinelsAreNotLabels(axes, StrengthSentinel, WeaknessSentinel);
    assert VocabularyStrength != StrengthSentinel && VocabularyWeakness != WeaknessSentinel;
  }

  /** The strength list falls back to its sentinel exactly when no category scores 70. */
  lemma DiagnosisStrengthSentinel(profile: UserProfile, answers: seq<Answer>)
    ensures var r := Diagnosis(profile, answers);
      r.strengths == [StrengthSentinel] <==>
        r.skillScores.vocabulary < 70 && r.skillScores.reading < 70 && r.skillScores.situationJudgment < 70
  {
    SentinelsOfThree(Axes(DetailedScores(TallyOf(answers))));
  }

  /** The weakness list falls back to its sentinel exactly when every category scores 70. */
  lemma DiagnosisWeaknessSentinel(profile: UserProfile, answers: seq<Answer>)
    ensures var r := Diagnosis(profile, answers);
      r.weaknesses == [WeaknessSentinel] <==>
        r.skillScores.vocabulary >= 70 && r.skillScores.reading >= 70 && r.skillScores.situationJudgment >= 70
  {
    SentinelsOfThree(Axes(DetailedScores(TallyOf(answers))));
  }

  /** For three axes whose labels are not the sentinels, each list is the sentinel
      alone exactly when no axis lands in it. */
  lemma SentinelsOfThree(axes: seq<Axis>)
    requires |axes| == 3
    requires forall k :: 0 <= k < |axes| ==>
      |axes[k].strength| != |StrengthSentinel| && |axes[k].weakness| != |WeaknessSentinel|
    ensures OrSentinel(Strengths(axes), StrengthSentinel) == [StrengthSentinel] <==>
      axes[0].score < StrengthMark && axes[1].score < StrengthMark && axes[2].score < StrengthMark
    ensures OrSentinel(Weaknesses(axes), WeaknessSentinel) == [WeaknessSentinel] <==>
      axes[0].score >= StrengthMark && axes[1].score >= StrengthMark && axes[2].score >= StrengthMark
  {
    SentinelIff(axes, StrengthSentinel, WeaknessSentinel);
  }

  /** The recommendations are never empty; the services are ranked 1, 2, ... and
      include Bizmates exactly when the situation score is below 70. */
  lemma DiagnosisAdvice(profile: UserProfile, answers: seq<Answer>)
    ensures var r := Diagnosis(profile, answers);
      r.recommendations != [] && RanksConsecutive(r.recommendedServices)
      && (Bizmates in r.recommendedServices <==> r.skillScores.situationJudgment < 70)
  {
    var d := DetailedScores(TallyOf(answers));
    var ws := Weaknesses(Axes(d));
    var r := Diagnosis(profile, answers);
    assert r.recommendations == RecommendationsOf(profile, d);
    assert r.recommendedServices == ServicesOf(profile, ws);
    RecommendationsFacts(profile, d);
    ServicesFacts(profile, ws);
    BizmatesIffWeakJudgment(d);
  }

  /** Answers recording a prefix of a question list, one per question in order,
      hold no more correct advanced answers than the list holds advanced questions. */
  lemma {:induction false} AdvancedAnswersBound(answers: seq<Answer>, qs: seq<B.Question>)
    requires |answers| <= |qs|
    requires forall j :: 0 <= j < |answers| ==> Records(answers[j], qs[j])
    ensures CountOf(answers, B.Vocabulary, true, Some(B.Advanced)) + CountOf(answers, B.Reading, true, Some(B.Advanced))
      + CountOf(answers, B.Situation, true, Some(B.Advanced)) <= |B.ByLevel(qs[..|answers|], B.Advanced)|
    decreases |answers|
  {
    if answers != [] {
      var n := |answers|;
      AdvancedAnswersBound(answers[..n - 1], qs);
      assert qs[..n] == qs[..n - 1] + [qs[n - 1]];
      B.ByLevelAppend(qs[..n - 1], [qs[n - 1]], B.Advanced);
      assert B.ByLevel([qs[n - 1]], B.Advanced) == if qs[n - 1].level == B.Advanced then [qs[n - 1]] else [];
    }
  }

  /** A completed test, one record per selected question, holds at most nine
      correct advanced answers. */
  lemma CompletedAdvanced(draws: seq<seq<real>>, answers: seq<Answer>)
    requires B.ValidDraws(draws) && |answers| == |B.Selection(draws)|
    requires forall j :: 0 <= j < |answers| ==> Records(answers[j], B.Selection(draws)[j])
    ensures AdvancedCorrect(TallyOf(answers)) <= 9
  {
    B.SelectionAdvancedCount(draws);
    RecordedAdvanced(answers, B.Selection(draws));
  }

  /** With at most nine correct advanced answers the reported advanced score is a
      percentage, 100 exactly for nine of them. */
  lemma ReportedAdvanced(profile: UserProfile, answers: seq<Answer>)
    requires AdvancedCorrect(TallyOf(answers)) <= 9
    ensures Diagnosis(profile, answers).skillScores.advancedSkills <= 100
    ensures Diagnosis(profile, answers).skillScores.advancedSkills == 100 <==> AdvancedCorrect(TallyOf(answers)) == 9
  {
    AdvancedSkillsBound(AdvancedCorrect(TallyOf(answers)));
  }

  /** Records of every question of a list hold no more correct advanced answers
      than the list holds advanced questions. */
  lemma RecordedAdvanced(answers: seq<Answer>, qs: seq<B.Question>)
    requires |answers| == |qs|
    requires forall j :: 0 <= j < |answers| ==> Records(answers[j], qs[j])
    ensures AdvancedCorrect(TallyOf(answers)) <= |B.ByLevel(qs, B.Advanced)|
  {
    AdvancedAnswersBound(answers, qs);
    assert qs[..|answers|] == qs;
    TallyCounts(answers, B.Vocabulary);
    TallyCounts(answers, B.Reading);
    TallyCounts(answers, B.Situation);
  }

  // ---------------------------------------------------------------------------
  // The test session

  datatype Phase = QuestionsPhase | WritingPhase

  /** The component's state: the drawn questions and prompts, the position in
      each phase, the answers recorded so far, the pending choice and whether the
      report is being produced. */
  class Session {
    const profile: UserProfile
    const questions: seq<B.Question>
    const writingPrompts: seq<B.WritingPrompt>
    var currentIndex: nat
    var answers: seq<Answer>
    var selectedAnswer: Option<nat>
    var currentWritingIndex: nat
    var isSubmitting: bool
    var phase: Phase

    /** The drawn list keeps its 32 questions, nine of them advanced, beside the
        three prompts; there is exactly one record per question passed, in
        question order: during the questions phase the questions before the
        current one, from the writing phase on all of them. */
    ghost predicate Valid()
      reads this
    {
      |questions| == 32 && |B.ByLevel(questions, B.Advanced)| == 9 && |writingPrompts| == 3
      && currentIndex < |questions| && currentWritingIndex < |writingPrompts|
      && |answers| <= |questions|
      && (forall j :: 0 <= j < |answers| ==> Records(answers[j], questions[j]))
      && (phase == QuestionsPhase ==> |answers| == currentIndex && currentWritingIndex == 0 && !isSubmitting)
      && (phase == WritingPhase ==> |answers| == |questions| && currentIndex == |questions| - 1)
      && (isSubmitting ==> currentWritingIndex == |writingPrompts| - 1)
    }

    /** `progress`: the share of the 35 steps reached, counting the current one. */
    function Progress(): (r: real)
      reads this
      requires Valid()
      ensures 0.0 < r <= 100.0
    {
      var total := (|questions| + |writingPrompts|) as real;
      if phase == QuestionsPhase then (currentIndex + 1) as real / total * 100.0
      else (|questions| + currentWritingIndex + 1) as real / total * 100.0
    }

    /** Mounting the component draws the questions and takes the prompts. */
    constructor (profile0: UserProfile, draws0: seq<seq<real>>)
      requires B.ValidDraws(draws0)
      ensures Valid()
      ensures profile == profile0 && questions == B.Selection(draws0) && writingPrompts == B.WritingPrompts
      ensures currentIndex == 0 && answers == [] && selectedAnswer == None
      ensures currentWritingIndex == 0 && !isSubmitting && phase == QuestionsPhase
    {
      var qs := B.SelectQuestions(draws0);
      B.SelectionAdvancedCount(draws0);
      profile := profile0;
      questions := qs;
      writingPrompts := B.GetWritingPrompts();
      currentIndex := 0;
      answers := [];
      selectedAnswer := None;
      currentWritingIndex := 0;
      isSubmitting := false;
      phase := QuestionsPhase;
    }

    /** `handleAnswerSelect`: option `choice` of the current question becomes the pending choice. */
    method SelectAnswer(choice: nat)
      requires Valid() && phase == QuestionsPhase && choice < questions[currentIndex].optionCount
      modifies this
      ensures Valid() && selectedAnswer == Some(choice)
      ensures currentIndex == old(currentIndex) && answers == old(answers) && phase == old(phase)
      ensures currentWritingIndex == old(currentWritingIndex) && isSubmitting == old(isSubmitting)
    {
      selectedAnswer := Some(choice);
    }

    /** `handleNext` (its button is enabled only with a pending choice): the choice
        is recorded, then the test moves to the next question or, after the last
        one, to the writing phase, keeping the pending choice. */
    method HandleNext()
      requires Valid() && phase == QuestionsPhase && selectedAnswer.Some?
      modifies this
      ensures Valid()
      ensures answers == old(answers) + [Chosen(questions[old(currentIndex)], old(selectedAnswer).value)]
      ensures old(currentIndex) < |questions| - 1 ==>
        currentIndex == old(currentIndex) + 1 && selectedAnswer == None && phase == QuestionsPhase
      ensures old(currentIndex) == |questions| - 1 ==>
        currentIndex == old(currentIndex) && selectedAnswer == old(selectedAnswer) && phase == WritingPhase
      ensures currentWritingIndex == old(currentWritingIndex) && isSubmitting == old(isSubmitting)
      ensures Progress() > old(Progress())
    {
      var q := questions[currentIndex];
      if selectedAnswer.Some? {
        var isCorrect := q.correctAnswer == Some(selectedAnswer.value);
        answers := answers + [Answer(q.id, q.category, q.level, selectedAnswer.value, isCorrect)];
      }
      Advance();
    }

    /** `handleSkip`: a skip is recorded for the current question, then the test
        moves on as `handleNext` does. */
    method HandleSkip()
      requires Valid() && phase == QuestionsPhase
      modifies this
      ensures Valid()
      ensures answers == old(answers) + [Skipped(questions[old(currentIndex)])]
      ensures old(currentIndex) < |questions| - 1 ==>
        currentIndex == old(currentIndex) + 1 && selectedAnswer == None && phase == QuestionsPhase
      ensures old(currentIndex) == |questions| - 1 ==>
        currentIndex == old(currentIndex) && selectedAnswer == old(selectedAnswer) && phase == WritingPhase
      ensures currentWritingIndex == old(currentWritingIndex) && isSubmitting == old(isSubmitting)
      ensures Progress() > old(Progress())
    {
      var q := questions[currentIndex];
      answers := answers + [Answer(q.id, q.category, q.level, -1, false)];
      Advance();
    }

    /** The step shared by both buttons, once the current question has its record. */
    method Advance()
      requires phase == QuestionsPhase && !isSubmitting && currentWritingIndex == 0
      requires |questions| == 32 && |B.ByLevel(questions, B.Advanced)| == 9 && |writingPrompts| == 3
      requires currentIndex < |questions| && |answers| == currentIndex + 1
      requires forall j :: 0 <= j < |answers| ==> Records(answers[j], questions[j])
      modifies this
      ensures Valid() && answers == old(answers)
      ensures old(currentIndex) < |questions| - 1 ==>
        currentIndex == old(currentIndex) + 1 && selectedAnswer == None && phase == QuestionsPhase
      ensures old(currentIndex) == |questions| - 1 ==>
        currentIndex == old(currentIndex) && selectedAnswer == old(selectedAnswer) && phase == WritingPhase
      ensures currentWritingIndex == old(currentWritingIndex) && isSubmitting == old(isSubmitting)
      ensures Progress() > ((old(currentIndex) + 1) as real / (|questions| + |writingPrompts|) as real) * 100.0
    {
      var total := (|questions| + |writingPrompts|) as real;
      if currentIndex < |questions| - 1 {
        currentIndex := currentIndex + 1;
        selectedAnswer := None;
        assert Progress() == (old(currentIndex) + 2) as real / total * 100.0;
      } else {
        phase := WritingPhase;
        assert Progress() == (|questions| + 1) as real / total * 100.0;
      }
    }

    /** `handleWritingNext`: the next prompt, or after the last one the report,
        computed from the recorded answers. */
    method HandleWritingNext() returns (done: Option<DiagnosisResult<SkillScore>>)
      requires Valid() && phase == WritingPhase && !isSubmitting
      modifies this
      ensures Valid() && answers == old(answers) && phase == old(phase)
      ensures currentIndex == old(currentIndex) && selectedAnswer == old(selectedAnswer)
      ensures old(currentWritingIndex) < |writingPrompts| - 1 ==>
        currentWritingIndex == old(currentWritingIndex) + 1 && !isSubmitting && done == None
        && Progress() > old(Progress())
      ensures old(currentWritingIndex) == |writingPrompts| - 1 ==>
        currentWritingIndex == old(currentWritingIndex) && isSubmitting
        && done == Some(Diagnosis(profile, answers))
    {
      if currentWritingIndex < |writingPrompts| - 1 {
        currentWritingIndex := currentWritingIndex + 1;
        done := None;
      } else {
        var result := HandleSubmit();
        done := Some(result);
      }
    }

    /** `handleSubmit`: the session turns to its analysing screen and reports. */
    method HandleSubmit() returns (result: DiagnosisResult<SkillScore>)
      requires Valid() && phase == WritingPhase && currentWritingIndex == |writingPrompts| - 1
      modifies this
      ensures Valid() && isSubmitting && result == Diagnosis(profile, answers)
      ensures answers == old(answers) && phase == old(phase) && currentIndex == old(currentIndex)
      ensures selectedAnswer == old(selectedAnswer) && currentWritingIndex == old(currentWritingIndex)
    {
      var recorded := answers;
      result := ScoreAnswers(profile, recorded);
      isSubmitting := true;
      assert answers == recorded;
    }
  }

  /** A session's report after the last writing prompt counts one record per
      selected question, so its advanced score is a percentage. */
  lemma SessionReportBounded(s: Session)
    requires s.Valid() && s.phase == WritingPhase
    ensures Diagnosis(s.profile, s.answers).skillScores.advancedSkills <= 100
  {
    RecordedAdvanced(s.answers, s.questions);
    ReportedAdvanced(s.profile, s.answers);
  }
}
