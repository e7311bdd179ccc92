/** The older diagnosis test (components/DiagnosisTest.tsx): eighteen
    multiple-choice questions over four business scenes and one writing prompt,
    scored into four scene scores with a score-only level ladder and its own
    readiness, roadmap, recommendation and service rules. */
module DiagnosisV1 {
  import opened Wrappers
  import opened Types
  import opened Rounding
  import opened Ladders
  import B = QuestionBankV1
  import Shuffle

  // ---------------------------------------------------------------------------
  // Answer records

  /** A recorded answer; the scene is found again from the question id when scoring. */
  datatype Answer = Answer(questionId: string, answer: int, isCorrect: bool)

  /** `a` is a record of question `q`: it carries the question's id, and it is
      correct exactly when a real option (not a skip) equal to the correct one was chosen. */
  predicate Records(a: Answer, q: B.Question) {
    a.questionId == q.id && (a.isCorrect <==> a.answer >= 0 && a.answer == q.correctAnswer as int)
  }

  /** The record `handleNext` appends for option `choice`. */
  function Chosen(q: B.Question, choice: nat): (a: Answer)
    ensures Records(a, q) && a.answer == choice
  {
    Answer(q.id, choice, choice == q.correctAnswer)
  }

  /** The record `handleSkip` appends on a multiple-choice question. */
  function Skipped(q: B.Question): (a: Answer)
    ensures Records(a, q) && a.answer == -1 && !a.isCorrect
  {
    Answer(q.id, -1, false)
  }

  // ---------------------------------------------------------------------------
  // Looking answers up

  /** `questions.find(q => q.id === id)`: the first question with that id, if any. */
  function Find(qs: seq<B.Question>, id: string): (r: Option<B.Question>)
    ensures r.None? <==> forall i :: 0 <= i < |qs| ==> qs[i].id != id
    ensures r.Some? ==>
      exists i :: 0 <= i < |qs| && qs[i] == r.value && r.value.id == id && (forall j :: 0 <= j < i ==> qs[j].id != id)
  {
    if qs == [] then None
    else if qs[0].id == id then Some(qs[0])
    else
      var r := Find(qs[1..], id);
      assert forall i :: 1 <= i < |qs| ==> qs[i] == qs[1..][i - 1];
      if r.Some? then
        var i :| 0 <= i < |qs[1..]| && qs[1..][i] == r.value && r.value.id == id
          && (forall j :: 0 <= j < i ==> qs[1..][j].id != id);
        assert qs[i + 1] == r.value;
        r
      else r
  }

  /** In a list without shared ids, looking a question's id up finds that question. */
  lemma FindDistinct(qs: seq<B.Question>, i: nat)
    requires B.IdsDistinct(qs) && i < |qs|
    ensures Find(qs, qs[i].id) == Some(qs[i])
  {
    var r := Find(qs, qs[i].id);
    var k :| 0 <= k < |qs| && qs[k] == r.value && r.value.id == qs[i].id
      && (forall j :: 0 <= j < k ==> qs[j].id != qs[i].id);
    assert k == i;
  }

  // ---------------------------------------------------------------------------
  // Tally

  datatype Counter = Counter(correct: nat, total: nat)

  datatype Tally = Tally(email: Counter, meeting: Counter, presentation: Counter, negotiation: Counter)

  const Zero := Counter(0, 0)

  function Bump(c: Counter, a: Answer): Counter {
    Counter(c.correct + (if a.isCorrect then 1 else 0), c.total + 1)
  }

  /** The counters of scene `c`. */
  function Of(t: Tally, c: B.Category): Counter {
    match c
    case Email => t.email
    case Meeting => t.meeting
    case Presentation => t.presentation
    case Negotiation => t.negotiation
  }

  /** One step of the `forEach`: the answer counts in the scene of the question
      its id finds; an answer whose id finds no question is ignored. */
  function Record(t: Tally, qs: seq<B.Question>, a: Answer): Tally {
    match Find(qs, a.questionId)
    case None => t
    case Some(q) =>
      match q.category
      case Email => t.(email := Bump(t.email, a))
      case Meeting => t.(meeting := Bump(t.meeting, a))
      case Presentation => t.(presentation := Bump(t.presentation, a))
      case Negotiation => t.(negotiation := Bump(t.negotiation, a))
  }

  /** The counters after the `forEach` over `answers`. */
  function TallyOf(qs: seq<B.Question>, answers: seq<Answer>): Tally
    decreases |answers|
  {
    if answers == [] then Tally(Zero, Zero, Zero, Zero)
    else Record(TallyOf(qs, answers[..|answers| - 1]), qs, answers[|answers| - 1])
  }

  /** The tally loop of `handleSubmit`. */
  method TallyAnswers(qs: seq<B.Question>, answers: seq<Answer>) returns (t: Tally)
    ensures t == TallyOf(qs, answers)
  {
    t := Tally(Zero, Zero, Zero, Zero);
    var i := 0;
    while i < |answers|
      invariant 0 <= i <= |answers|
      invariant t == TallyOf(qs, answers[..i])
    {
      var a := answers[i];
      assert answers[..i + 1][..i] == answers[..i];
      var question := Find(qs, a.questionId);
      if question.Some? {
        match question.value.category {
          case Email => t := t.(email := Bump(t.email, a));
          case Meeting => t := t.(meeting := Bump(t.meeting, a));
          case Presentation => t := t.(presentation := Bump(t.presentation, a));
          case Negotiation => t := t.(negotiation := Bump(t.negotiation, a));
        }
      }
      i := i + 1;
    }
    assert answers[..i] == answers;
  }

  /** Answers whose id finds a question of scene `c` and that satisfy `correctOnly`. */
  function CountOf(qs: seq<B.Question>, answers: seq<Answer>, c: B.Category, correctOnly: bool): nat
    decreases |answers|
  {
    if answers == [] then 0
    else
      var a := answers[|answers| - 1];
      var q := Find(qs, a.questionId);
      CountOf(qs, answers[..|answers| - 1], c, correctOnly)
      + (if q.Some? && q.value.category == c && (a.isCorrect || !correctOnly) then 1 else 0)
  }

  /** A scene's counters are the counts of its answers and of its correct answers. */
  lemma {:induction false} TallyCounts(qs: seq<B.Question>, answers: seq<Answer>, c: B.Category)
    ensures Of(TallyOf(qs, answers), c) == Counter(CountOf(qs, answers, c, true), CountOf(qs, answers, c, false))
    decreases |answers|
  {
    if answers != [] {
      TallyCounts(qs, answers[..|answers| - 1], c);
    }
  }

  /** Per scene, the correct answers never exceed the answers. */
  lemma {:induction false} TallyBounds(qs: seq<B.Question>, answers: seq<Answer>, c: B.Category)
    ensures Of(TallyOf(qs, answers), c).correct <= Of(TallyOf(qs, answers), c).total
    decreases |answers|
  {
    if answers != [] {
      TallyBounds(qs, answers[..|answers| - 1], c);
    }
  }

  /** An answer whose id is not among the questions (`Find` gives nothing) does
      not move the tally. */
  lemma UnknownIgnored(qs: seq<B.Question>, answers: seq<Answer>, a: Answer)
    requires Find(qs, a.questionId).None?
    ensures TallyOf(qs, answers + [a]) == TallyOf(qs, answers)
  {
    var extended := answers + [a];
    assert extended[..|extended| - 1] == answers;
  }

  /** All four counters together. */
  function Counted(t: Tally): nat {
    t.email.total + t.meeting.total + t.presentation.total + t.negotiation.total
  }

  /** When every answer's id finds a question, every answer is counted once. */
  lemma {:induction false} AllCounted(qs: seq<B.Question>, answers: seq<Answer>)
    requires forall j :: 0 <= j < |answers| ==> Find(qs, answers[j].questionId).Some?
    ensures Counted(TallyOf(qs, answers)) == |answers|
    decreases |answers|
  {
    if answers != [] {
      AllCounted(qs, answers[..|answers| - 1]);
    }
  }

  // ---------------------------------------------------------------------------
  // Scores

  /** The skill record this scorer builds: one score per scene. */
  datatype SceneScores = SceneScores(email: int, meeting: int, presentation: int, negotiation: int)

  /** `skillScores`: each scene's rounded percentage. */
  function ScoresOf(t: Tally): SceneScores {
    SceneScores(
      Percent(t.email.correct, t.email.total),
      Percent(t.meeting.correct, t.meeting.total),
      Percent(t.presentation.correct, t.presentation.total),
      Percent(t.negotiation.correct, t.negotiation.total))
  }

  /** `overallScore`: the rounded mean of the four rounded scene scores. */
  function OverallScore(s: SceneScores): int
    requires s.email >= 0 && s.meeting >= 0 && s.presentation >= 0 && s.negotiation >= 0
  {
    Mean4(s.email, s.meeting, s.presentation, s.negotiation)
  }

  /** Each scene score lies in [0, 100] and is 0 for a scene without answers; the
      overall score lies in [0, 100] too. */
  lemma ScoresInRange(qs: seq<B.Question>, answers: seq<Answer>)
    ensures var s := ScoresOf(TallyOf(qs, answers));
      0 <= s.email <= 100 && 0 <= s.meeting <= 100 && 0 <= s.presentation <= 100 && 0 <= s.negotiation <= 100
      && 0 <= OverallScore(s) <= 100
    ensures forall c :: CountOf(qs, answers, c, false) == 0 ==>
      Percent(Of(TallyOf(qs, answers), c).correct, Of(TallyOf(qs, answers), c).total) == 0
  {
    var t := TallyOf(qs, answers);
    TallyBounds(qs, answers, B.Email);
    TallyBounds(qs, answers, B.Meeting);
    TallyBounds(qs, answers, B.Presentation);
    TallyBounds(qs, answers, B.Negotiation);
    PercentBounds(t.email.correct, t.email.total);
    PercentBounds(t.meeting.correct, t.meeting.total);
    PercentBounds(t.presentation.correct, t.presentation.total);
    PercentBounds(t.negotiation.correct, t.negotiation.total);
    var s := ScoresOf(t);
    Mean4Between(s.email, s.meeting, s.presentation, s.negotiation, 0, 100);
    forall c | CountOf(qs, answers, c, false) == 0
      ensures Percent(Of(t, c).correct, Of(t, c).total) == 0
    {
      TallyCounts(qs, answers, c);
      TallyBounds(qs, answers, c);
      PercentBounds(Of(t, c).correct, Of(t, c).total);
    }
  }

  /** The business-level ladder on the overall score alone. */
  function LevelOf(overall: int): (l: BusinessLevel)
    ensures l == Executive <==> overall >= 85
    ensures l == Advanced <==> 70 <= overall < 85
    ensures l == Intermediate <==> 50 <= overall < 70
    ensures l == Entry <==> overall < 50
  {
    if overall >= 85 then Executive
    else if overall >= 70 then Advanced
    else if overall >= 50 then Intermediate
    else Entry
  }

  /** A better overall score never gives a lower level. */
  lemma LevelOfMonotone(o1: int, o2: int)
    requires o1 <= o2
    ensures Rank(LevelOf(o1)) <= Rank(LevelOf(o2))
  {
  }

  // ---------------------------------------------------------------------------
  // Strengths and weaknesses

  const StrengthSentinel := "基礎的なビジネス英語力があります"
  const WeaknessSentinel := "大きな弱点は見られません"

  const EmailStrength := "ビジネスメール作成"
  const MeetingStrength := "会議でのコミュニケーション"
  const PresentationStrength := "プレゼンテーション"
  const NegotiationStrength := "交渉・折衝"
  const EmailWeakness := "ビジネスメール"
  const MeetingWeakness := "ミーティング英語"
  const PresentationWeakness := "プレゼン英語"
  const NegotiationWeakness := "交渉英語"

  /** The four scene scores with their strength and weakness labels, in the order
      they are checked. */
  function Axes(s: SceneScores): (r: seq<Axis>)
    ensures |r| == 4 && DistinctLabels(r)
    ensures r[0].score == s.email && r[1].score == s.meeting
    ensures r[2].score == s.presentation && r[3].score == s.negotiation
  {
    LabelLengths();
    [Axis(s.email, EmailStrength, EmailWeakness),
     Axis(s.meeting, MeetingStrength, MeetingWeakness),
     Axis(s.presentation, PresentationStrength, PresentationWeakness),
     Axis(s.negotiation, NegotiationStrength, NegotiationWeakness)]
  }

  /** The labels' lengths: the two length-9 strength labels start differently,
      and no label is as long as a sentinel. */
  lemma LabelLengths()
    ensures |EmailStrength| == 9 && |MeetingStrength| == 13 && |PresentationStrength| == 9 && |NegotiationStrength| == 5
    ensures |EmailWeakness| == 7 && |MeetingWeakness| == 8 && |PresentationWeakness| == 6 && |NegotiationWeakness| == 4
    ensures |StrengthSentinel| == 16 && |WeaknessSentinel| == 12
    ensures EmailStrength[0] != PresentationStrength[0]
  {
  }

  /** The four `if`/`push` pairs of `handleSubmit`. */
  method SplitScores(s: SceneScores) returns (strengths: seq<string>, weaknesses: seq<string>)
    ensures strengths == Strengths(Axes(s)) && weaknesses == Weaknesses(Axes(s))
  {
    ghost var axes := Axes(s);
    assert axes[..0] == [];
    strengths, weaknesses := [], [];
    if s.email >= 70 {
      strengths := strengths + [EmailStrength];
    } else {
      weaknesses := weaknesses + [EmailWeakness];
    }
    SplitPrefix(axes, 0);
    if s.meeting >= 70 {
      strengths := strengths + [MeetingStrength];
    } else {
      weaknesses := weaknesses + [MeetingWeakness];
    }
    SplitPrefix(axes, 1);
    if s.presentation >= 70 {
      strengths := strengths + [PresentationStrength];
    } else {
      weaknesses := weaknesses + [PresentationWeakness];
    }
    SplitPrefix(axes, 2);
    if s.negotiation >= 70 {
      strengths := strengths + [NegotiationStrength];
    } else {
      weaknesses := weaknesses + [NegotiationWeakness];
    }
    SplitPrefix(axes, 3);
    assert axes[..4] == axes;
  }

  // ---------------------------------------------------------------------------
  // Interview readiness

  /** `getInterviewReadiness`: the tier from the overall score and the mean of the
      meeting and presentation scores, with its description and three tips. */
  function Readiness(overall: int, s: SceneScores): (r: InterviewReadiness)
    ensures r.level == ReadinessTier(overall, s.meeting, s.presentation)
    ensures |r.tips| == 3
  {
    match ReadinessTier(overall, s.meeting, s.presentation)
    case Confident => ConfidentAdvice
    case Ready => ReadyAdvice
    case BasicReady => BasicReadyAdvice
    case NotReady => NotReadyAdvice
  }

  const ConfidentAdvice := InterviewReadiness(Confident,
    "英語面接に自信を持って臨めるレベルです",
    ["業界特有の専門用語を確認しておきましょう",
     "STAR法を使った回答の準備をしましょう",
     "想定質問への回答を英語で練習しておきましょう"])

  const ReadyAdvice := InterviewReadiness(Ready,
    "基本的な英語面接に対応できるレベルです",
    ["自己紹介・志望動機の英語版を準備しましょう",
     "よくある質問への回答パターンを練習しましょう",
     "面接特有の表現を学んでおきましょう"])

  const BasicReadyAdvice := InterviewReadiness(BasicReady,
    "英語面接には追加の準備が必要です",
    ["まずは自己紹介を英語で完璧にできるようにしましょう",
     "基本的なビジネス英語フレーズを覚えましょう",
     "英語でのQ&A練習を重ねましょう"])

  const NotReadyAdvice := InterviewReadiness(NotReady,
    "英語面接の前に基礎力の強化が必要です",
    ["ビジネス英語の基礎から学習を始めましょう",
     "簡単なフレーズから確実に使えるようにしましょう",
     "日本語面接の内容を英語に翻訳する練習から始めましょう"])

  // ---------------------------------------------------------------------------
  // Roadmap

  /** `weaknesses.map(w => `${w}の強化`)`. */
  function StrengthenGoals(weaknesses: seq<string>): (r: seq<string>)
    ensures |r| == |weaknesses|
    ensures forall i :: 0 <= i < |r| ==> r[i] == weaknesses[i] + "の強化"
  {
    seq(|weaknesses|, i requires 0 <= i < |weaknesses| => weaknesses[i] + "の強化")
  }

  /** `generateRoadmap`: the plan for a level; the intermediate plan starts with
      one goal per weakness. */
  function Roadmap(level: BusinessLevel, weaknesses: seq<string>): seq<RoadmapPhase> {
    match level
    case Entry => EntryPlan
    case Intermediate => [RoadmapPhase(1, "弱点克服", "1-2ヶ月", StrengthenGoals(weaknesses))] + IntermediateLater
    case Advanced => AdvancedPlan
    case Executive => ExecutivePlan
  }

  const EntryPlan := [
    RoadmapPhase(1, "基礎固め", "1-2ヶ月", ["ビジネス定型表現の習得", "基本的なメール作成", "簡単な会話練習"]),
    RoadmapPhase(2, "実践準備", "2-3ヶ月", ["実践的なメール作成", "ミーティング参加の練習", "基礎プレゼン"]),
    RoadmapPhase(3, "実践力強化", "3-4ヶ月", ["実務での英語使用", "面接準備", "継続的な改善"])]

  /** The second and third phases of the intermediate plan. */
  const IntermediateLater := [
    RoadmapPhase(2, "実践力向上", "2-3ヶ月", ["複雑な議論への参加", "プレゼンスキル向上", "交渉力強化"]),
    RoadmapPhase(3, "面接準備", "1ヶ月", ["英語面接対策", "模擬面接練習", "業界用語の習得"])]

  const AdvancedPlan := [
    RoadmapPhase(1, "エグゼクティブスキル", "1-2ヶ月", ["高度な交渉術", "リーダーシップ表現", "戦略的コミュニケーション"]),
    RoadmapPhase(2, "専門性強化", "1-2ヶ月", ["業界特化の表現", "経営レベルの議論", "グローバル視点"])]

  const ExecutivePlan := [
    RoadmapPhase(1, "継続的改善", "継続", ["最新ビジネス用語のキャッチアップ", "クロスカルチャー対応", "エグゼクティブ・プレゼンス"])]

  /** Entry and intermediate plans have three phases, advanced two, executive one;
      phases are numbered from 1; the intermediate plan's first phase strengthens
      each weakness in turn. */
  lemma RoadmapShape(level: BusinessLevel, weaknesses: seq<string>)
    ensures |Roadmap(level, weaknesses)| == (match level case Entry => 3 case Intermediate => 3 case Advanced => 2 case Executive => 1)
    ensures forall i :: 0 <= i < |Roadmap(level, weaknesses)| ==> Roadmap(level, weaknesses)[i].phase == i + 1
    ensures level == Intermediate ==>
      |Roadmap(level, weaknesses)[0].goals| == |weaknesses| &&
      forall i :: 0 <= i < |weaknesses| ==> Roadmap(level, weaknesses)[0].goals[i] == weaknesses[i] + "の強化"
  {
  }

  // ---------------------------------------------------------------------------
  // Recommendations

  const CareerTip := "転職活動では、英語力を具体的な数字（TOEIC等）でアピールすることが重要です"
  const SpeakingTip := "オンライン英会話でスピーキング練習を増やすことをお勧めします"
  const EmailTip := "実践的なビジネスメールテンプレートを学ぶことで効率的にスキルアップできます"
  const InterviewTip := "英語面接対策ツールで実践的な練習をすることをお勧めします"

  /** The weakness list names a spoken scene: meeting or presentation. */
  predicate SpeakingWeak(weaknesses: seq<string>) {
    MeetingWeakness in weaknesses || PresentationWeakness in weaknesses
  }

  /** The four rules of `generateRecommendations`, in the order they are tried. */
  function Rules(profile: UserProfile, weaknesses: seq<string>): (r: seq<Rule>)
    ensures |r| == 4
  {
    [Rule(profile.goal == JobChange, CareerTip),
     Rule(SpeakingWeak(weaknesses), SpeakingTip),
     Rule(EmailWeakness in weaknesses, EmailTip),
     Rule(Interview in profile.englishUsage, InterviewTip)]
  }

  /** The recommendations: the fired rules, with no fallback. */
  function RecommendationsOf(profile: UserProfile, weaknesses: seq<string>): seq<string> {
    Fired(Rules(profile, weaknesses))
  }

  /** `generateRecommendations` builds the list by conditional pushes. */
  method GenerateRecommendations(profile: UserProfile, level: BusinessLevel, weaknesses: seq<string>)
    returns (recommendations: seq<string>)
    ensures recommendations == RecommendationsOf(profile, weaknesses)
  {
    recommendations := [];
    recommendations := PushIf(recommendations, profile.goal == JobChange, CareerTip);
    recommendations := PushIf(recommendations, MeetingWeakness in weaknesses || PresentationWeakness in weaknesses, SpeakingTip);
    recommendations := PushIf(recommendations, EmailWeakness in weaknesses, EmailTip);
    recommendations := PushIf(recommendations, Interview in profile.englishUsage, InterviewTip);
    FiredOfFour(Rules(profile, weaknesses));
  }

  /** `Fired` over four rules, written out. */
  lemma FiredOfFour(rules: seq<Rule>)
    requires |rules| == 4
    ensures Fired(rules) == Fired([]) + (if rules[0].fires then [rules[0].text] else [])
      + (if rules[1].fires then [rules[1].text] else []) + (if rules[2].fires then [rules[2].text] else [])
      + (if rules[3].fires then [rules[3].text] else [])
  {
    FiredPrefix(rules, 0);
    FiredPrefix(rules, 1);
    FiredPrefix(rules, 2);
    FiredPrefix(rules, 3);
    assert rules[..0] == [] && rules[..4] == rules;
  }

  /** Each rule's text is listed exactly when its condition holds, and the list
      is empty exactly when no rule fires. */
  lemma RecommendationsFacts(profile: UserProfile, weaknesses: seq<string>)
    ensures |RecommendationsOf(profile, weaknesses)| <= 4
    ensures RecommendationsOf(profile, weaknesses) == [] <==>
      profile.goal != JobChange && !SpeakingWeak(weaknesses) && EmailWeakness !in weaknesses
      && Interview !in profile.englishUsage
    ensures CareerTip in RecommendationsOf(profile, weaknesses) <==> profile.goal == JobChange
    ensures SpeakingTip in RecommendationsOf(profile, weaknesses) <==> SpeakingWeak(weaknesses)
    ensures EmailTip in RecommendationsOf(profile, weaknesses) <==> EmailWeakness in weaknesses
    ensures InterviewTip in RecommendationsOf(profile, weaknesses) <==> Interview in profile.englishUsage
  {
    var rules := Rules(profile, weaknesses);
    RulesDistinct(profile, weaknesses);
    FiredMembers(rules, CareerTip);
    FiredIff(rules, 0);
    FiredIff(rules, 1);
    FiredIff(rules, 2);
    FiredIff(rules, 3);
  }

  /** The four texts differ. */
  lemma RulesDistinct(profile: UserProfile, weaknesses: seq<string>)
    ensures DistinctTexts(Rules(profile, weaknesses))
  {
    assert |CareerTip| == 39 && |SpeakingTip| == 30 && |EmailTip| == 37 && |InterviewTip| == 28;
  }

  // ---------------------------------------------------------------------------
  // Services

  const StudySapuri := Service(1, "スタディサプリ ENGLISH ビジネス英語コース",
    "日本人向けに最適化されたビジネス英語学習アプリ",
    "app", "月額3,278円〜", "7日間無料体験",
    "ビジネスシーン別のレッスンで効率的に学習できます",
    "https://px.a8.net/svt/ejp?a8mat=4AVI3Y+5CB16A+3AQG+TSBEB")

  const Bizmates := Service(2, "Bizmates",
    "ビジネス特化型オンライン英会話",
    "online-lesson", "月額13,200円〜", "無料体験レッスンあり",
    "ビジネス経験のある講師とのマンツーマンで実践力が身につきます",
    "https://www.bizmates.jp/")

  const InterviewToolName := "英語面接対策ツール"

  /** The interview tool, ranked after whatever precedes it. */
  function InterviewTool(rank: nat): (s: Service)
    ensures s.rank == rank && s.name == InterviewToolName
  {
    Service(rank, InterviewToolName, "AI面接官との実践的な面接練習",
      "tool", "無料", "", "実際の面接を想定した練習ができます", "/interview-tool")
  }

  /** The service list: the app, Bizmates for a meeting or presentation weakness,
      and the interview tool for interview use. */
  function ServicesOf(profile: UserProfile, weaknesses: seq<string>): seq<Service> {
    var s := [StudySapuri] + (if SpeakingWeak(weaknesses) then [Bizmates] else []);
    s + (if Interview in profile.englishUsage then [InterviewTool(|s| + 1)] else [])
  }

  /** `generateServiceRecommendations` builds the list by conditional pushes;
      Bizmates carries the fixed rank 2, the tool the length so far plus one. */
  method GenerateServices(profile: UserProfile, level: BusinessLevel, weaknesses: seq<string>)
    returns (services: seq<Service>)
    ensures services == ServicesOf(profile, weaknesses)
  {
    services := [StudySapuri];
    if MeetingWeakness in weaknesses || PresentationWeakness in weaknesses {
      services := services + [Bizmates];
    }
    if Interview in profile.englishUsage {
      services := services + [InterviewTool(|services| + 1)];
    }
  }

  /** Ranks run 1, 2, ... in order (Bizmates' fixed rank 2 always lands second);
      the app always comes first; Bizmates is listed exactly for a meeting or
      presentation weakness and the interview tool exactly for interview use. */
  lemma ServicesFacts(profile: UserProfile, weaknesses: seq<string>)
    ensures RanksConsecutive(ServicesOf(profile, weaknesses))
    ensures 1 <= |ServicesOf(profile, weaknesses)| <= 3
    ensures ServicesOf(profile, weaknesses)[0] == StudySapuri
    ensures Bizmates in ServicesOf(profile, weaknesses) <==> SpeakingWeak(weaknesses)
    ensures (exists i :: 0 <= i < |ServicesOf(profile, weaknesses)| && ServicesOf(profile, weaknesses)[i].name == InterviewToolName)
              <==> Interview in profile.englishUsage
  {
    var r := ServicesOf(profile, weaknesses);
    assert |StudySapuri.name| == 25 && |Bizmates.name| == 8 && |InterviewToolName| == 9;
    if Interview in profile.englishUsage {
      assert r[|r| - 1].name == InterviewToolName;
    }
    if Bizmates in r {
      assert exists i :: 0 <= i < |r| && r[i] == Bizmates;
    }
    if exists i :: 0 <= i < |r| && r[i].name == InterviewToolName {
      var i :| 0 <= i < |r| && r[i].name == InterviewToolName;
      assert r[i] != StudySapuri && r[i] != Bizmates;
    }
  }

  /** For the scorer's own labels, a spoken scene is weak exactly when the meeting
      or the presentation score is below 70, and email is weak exactly when its
      score is. */
  lemma WeakScenes(s: SceneScores)
    ensures SpeakingWeak(Weaknesses(Axes(s))) <==> s.meeting < 70 || s.presentation < 70
    ensures EmailWeakness in Weaknesses(Axes(s)) <==> s.email < 70
  {
    var axes := Axes(s);
    SplitMembership(axes, 0);
    SplitMembership(axes, 1);
    SplitMembership(axes, 2);
  }

  // ---------------------------------------------------------------------------
  // The graded report

  /** What `handleSubmit` hands to `onComplete` for the recorded answers. The
      roadmap, the recommendations and the services see the weakness list before
      the sentinel replaces an empty one. */
  function Diagnosis(profile: UserProfile, qs: seq<B.Question>, answers: seq<Answer>): DiagnosisResult<SceneScores> {
    var t := TallyOf(qs, answers);
    var s := ScoresOf(t);
    var overall := OverallScore(s);
    var level := LevelOf(overall);
    var axes := Axes(s);
    DiagnosisResult(profile, level, overall, s,
      OrSentinel(Strengths(axes), StrengthSentinel),
      OrSentinel(Weaknesses(axes), WeaknessSentinel),
      Readiness(overall, s),
      RecommendationsOf(profile, Weaknesses(axes)),
      Roadmap(level, Weaknesses(axes)),
      ServicesOf(profile, Weaknesses(axes)))
  }

  /** The computation of `handleSubmit`, step by step. */
  method ScoreAnswers(profile: UserProfile, qs: seq<B.Question>, answers: seq<Answer>)
    returns (result: DiagnosisResult<SceneScores>)
    ensures result == Diagnosis(profile, qs, answers)
  {
    var t := TallyAnswers(qs, answers);
    var s := ScoresOf(t);
    var overall := OverallScore(s);
    var level := LevelOf(overall);
    var strengths, weaknesses := SplitScores(s);
    var readiness := Readiness(overall, s);
    var roadmap := Roadmap(level, weaknesses);
    var recommendations := GenerateRecommendations(profile, level, weaknesses);
    var services := GenerateServices(profile, level, weaknesses);
    result := DiagnosisResult(profile, level, overall, s,
      if |strengths| > 0 then strengths else [StrengthSentinel],
      if |weaknesses| > 0 then weaknesses else [WeaknessSentinel],
      readiness, recommendations, roadmap, services);
  }

  /** The four scene scores and the overall score are percentages; the level is
      the score-only ladder's and the readiness tier the ladder's tier on the
      meeting and presentation scores. */
  lemma DiagnosisScores(profile: UserProfile, qs: seq<B.Question>, answers: seq<Answer>)
    ensures var r := Diagnosis(profile, qs, answers);
      0 <= r.skillScores.email <= 100 && 0 <= r.skillScores.meeting <= 100
      && 0 <= r.skillScores.presentation <= 100 && 0 <= r.skillScores.negotiation <= 100
      && 0 <= r.overallScore <= 100
    ensures var r := Diagnosis(profile, qs, answers);
      r.businessLevel == LevelOf(r.overallScore)
      && r.interviewReadiness.level == ReadinessTier(r.overallScore, r.skillScores.meeting, r.skillScores.presentation)
  {
    ScoresInRange(qs, answers);
  }

  /** Neither list is empty; each list is its sentinel alone exactly when no scene
      lands in it. */
  lemma DiagnosisLabels(profile: UserProfile, qs: seq<B.Question>, answers: seq<Answer>)
    ensures var r := Diagnosis(profile, qs, answers);
      r.strengths != [] && r.weaknesses != []
    ensures var r := Diagnosis(profile, qs, answers);
      r.strengths == [StrengthSentinel] <==>
        r.skillScores.email < 70 && r.skillScores.meeting < 70
        && r.skillScores.presentation < 70 && r.skillScores.negotiation < 70
    ensures var r := Diagnosis(profile, qs, answers);
      r.weaknesses == [WeaknessSentinel] <==>
        r.skillScores.email >= 70 && r.skillScores.meeting >= 70
        && r.skillScores.presentation >= 70 && r.skillScores.negotiation >= 70
  {
    SentinelsOfFour(Axes(ScoresOf(TallyOf(qs, answers))));
  }

  /** For four axes whose labels are not the sentinels, each list is the sentinel
      alone exactly when no axis lands in it. */
  lemma SentinelsOfFour(axes: seq<Axis>)
    requires |axes| == 4
    requires forall k :: 0 <= k < |axes| ==>
      |axes[k].strength| != |StrengthSentinel| && |axes[k].weakness| != |WeaknessSentinel|
    ensures OrSentinel(Strengths(axes), StrengthSentinel) == [StrengthSentinel] <==>
      axes[0].score < StrengthMark && axes[1].score < StrengthMark
      && axes[2].score < StrengthMark && axes[3].score < StrengthMark
    ensures OrSentinel(Weaknesses(axes), WeaknessSentinel) == [WeaknessSentinel] <==>
      axes[0].score >= StrengthMark && axes[1].score >= StrengthMark
      && axes[2].score >= StrengthMark && axes[3].score >= StrengthMark
  {
    SentinelIff(axes, StrengthSentinel, WeaknessSentinel);
  }

  /** The recommendations are empty exactly when the goal is not a job change, no
      interview use is declared and email, meeting and presentation all score at
      least 70; the services are ranked 1, 2, ... and include Bizmates exactly
      when the meeting or presentation score is below 70. */
  lemma DiagnosisAdvice(profile: UserProfile, qs: seq<B.Question>, answers: seq<Answer>)
    ensures var r := Diagnosis(profile, qs, answers);
      (r.recommendations == [] <==>
        profile.goal != JobChange && Interview !in profile.englishUsage
        && r.skillScores.email >= 70 && r.skillScores.meeting >= 70 && r.skillScores.presentation >= 70)
      && RanksConsecutive(r.recommendedServices)
      && (Bizmates in r.recommendedServices <==> r.skillScores.meeting < 70 || r.skillScores.presentation < 70)
  {
    var s := ScoresOf(TallyOf(qs, answers));
    var ws := Weaknesses(Axes(s));
    RecommendationsFacts(profile, ws);
    ServicesFacts(profile, ws);
    WeakScenes(s);
  }

  // ---------------------------------------------------------------------------
  // The test session

  /** The component's state: the drawn questions and prompt, the position (the
      writing prompt sits after the last question), the answers recorded so far,
      the pending choice and whether the report is being produced. */
  class Session {
    const profile: UserProfile
    const questions: seq<B.Question>
    const writingPrompt: B.WritingPrompt
    var currentIndex: nat
    var answers: seq<Answer>
    var selectedAnswer: Option<nat>
    var isSubmitting: bool

    /** Eighteen questions without shared ids; one record per question passed, in
        question order; the report is produced only from the writing prompt. */
    ghost predicate Valid()
      reads this
    {
      |questions| == 18 && B.IdsDistinct(questions)
      && currentIndex <= |questions| && |answers| == currentIndex
      && (forall j :: 0 <= j < |answers| ==> Records(answers[j], questions[j]))
      && (isSubmitting ==> currentIndex == |questions|)
    }

    /** Mounting the component draws the questions and the writing prompt. */
    constructor (profile0: UserProfile, draws: seq<seq<real>>, promptDraws: seq<real>)
      requires B.ValidDraws(draws)
      requires |promptDraws| == |B.WritingPrompts| && Shuffle.UnitDraws(promptDraws)
      ensures Valid()
      ensures profile == profile0 && questions == B.Selection(draws)
      ensures writingPrompt == Shuffle.FisherYates(B.WritingPrompts, promptDraws, |B.WritingPrompts| - 1)[0]
      ensures currentIndex == 0 && answers == [] && selectedAnswer == None && !isSubmitting
    {
      var qs := B.SelectRandomQuestions(draws);
      B.SelectionIds(draws);
      var prompt := B.SelectRandomWritingPrompt(promptDraws);
      profile := profile0;
      questions := qs;
      writingPrompt := prompt;
      currentIndex := 0;
      answers := [];
      selectedAnswer := None;
      isSubmitting := false;
    }

    /** `handleAnswerSelect`: option `choice` of the current question becomes the pending choice. */
    method SelectAnswer(choice: nat)
      requires Valid() && currentIndex < |questions| && choice < questions[currentIndex].optionCount
      modifies this
      ensures Valid() && selectedAnswer == Some(choice)
      ensures currentIndex == old(currentIndex) && answers == old(answers) && isSubmitting == old(isSubmitting)
    {
      selectedAnswer := Some(choice);
    }

    /** `handleNext` (on a question its button is enabled only with a pending
        choice): the choice is recorded for a question, then the test moves on;
        from the writing prompt it produces the report instead. */
    method HandleNext() returns (done: Option<DiagnosisResult<SceneScores>>)
      requires Valid() && !isSubmitting
      requires currentIndex < |questions| ==> selectedAnswer.Some?
      modifies this
      ensures Valid()
      ensures old(currentIndex) < |questions| ==>
        answers == old(answers) + [Chosen(questions[old(currentIndex)], old(selectedAnswer).value)]
        && currentIndex == old(currentIndex) + 1 && selectedAnswer == None && !isSubmitting && done == None
      ensures old(currentIndex) == |questions| ==>
        answers == old(answers) && currentIndex == old(currentIndex) && selectedAnswer == old(selectedAnswer)
        && isSubmitting && done == Some(Diagnosis(profile, questions, answers))
    {
      if currentIndex < |questions| && selectedAnswer.Some? {
        var q := questions[currentIndex];
        var isCorrect := selectedAnswer.value == q.correctAnswer;
        answers := answers + [Answer(q.id, selectedAnswer.value, isCorrect)];
      }
      done := Advance();
    }

    /** `handleSkip`: a skip is recorded for a question (nothing for the writing
        prompt), then the test moves on as `handleNext` does. */
    method HandleSkip() returns (done: Option<DiagnosisResult<SceneScores>>)
      requires Valid() && !isSubmitting
      modifies this
      ensures Valid()
      ensures old(currentIndex) < |questions| ==>
        answers == old(answers) + [Skipped(questions[old(currentIndex)])]
        && currentIndex == old(currentIndex) + 1 && selectedAnswer == None && !isSubmitting && done == None
      ensures old(currentIndex) == |questions| ==>
        answers == old(answers) && currentIndex == old(currentIndex) && selectedAnswer == old(selectedAnswer)
        && isSubmitting && done == Some(Diagnosis(profile, questions, answers))
    {
      if currentIndex < |questions| {
        var q := questions[currentIndex];
        answers := answers + [Answer(q.id, -1, false)];
      }
      done := Advance();
    }

    /** The step shared by both buttons: `currentIndex < totalQuestions - 1`, with
        one more step than there are questions, moves on; otherwise the test is
        submitted. */
    method Advance() returns (done: Option<DiagnosisResult<SceneScores>>)
      requires |questions| == 18 && B.IdsDistinct(questions) && !isSubmitting
      requires currentIndex <= |questions|
      requires |answers| == (if currentIndex < |questions| then currentIndex + 1 else currentIndex)
      requires forall j :: 0 <= j < |answers| ==> Records(answers[j], questions[j])
      modifies this
      ensures Valid() && answers == old(answers)
      ensures old(currentIndex) < |questions| ==>
        currentIndex == old(currentIndex) + 1 && selectedAnswer == None && !isSubmitting && done == None
      ensures old(currentIndex) == |questions| ==>
        currentIndex == old(currentIndex) && selectedAnswer == old(selectedAnswer)
        && isSubmitting && done == Some(Diagnosis(profile, questions, answers))
    {
      var totalQuestions := |questions| + 1;
      if currentIndex < totalQuestions - 1 {
        currentIndex := currentIndex + 1;
        selectedAnswer := None;
        done := None;
      } else {
        var result := HandleSubmit();
        done := Some(result);
      }
    }

    /** `handleSubmit` (also the writing screen's own button): the session turns to
        its analysing screen and reports on the recorded answers. */
    method HandleSubmit() returns (result: DiagnosisResult<SceneScores>)
      requires Valid() && currentIndex == |questions|
      modifies this
      ensures Valid() && isSubmitting && result == Diagnosis(profile, questions, answers)
      ensures answers == old(answers) && currentIndex == old(currentIndex) && selectedAnswer == old(selectedAnswer)
    {
      var recorded := answers;
      result := ScoreAnswers(profile, questions, recorded);
      isSubmitting := true;
      assert answers == recorded;
    }
  }

  /** In a session every recorded answer finds its question, so the four scene
      totals together count every answer. */
  lemma SessionCountsEveryAnswer(s: Session)
    requires s.Valid()
    ensures Counted(TallyOf(s.questions, s.answers)) == |s.answers|
  {
    forall j | 0 <= j < |s.answers| ensures Find(s.questions, s.answers[j].questionId).Some? {
      FindDistinct(s.questions, j);
    }
    AllCounted(s.questions, s.answers);
  }
}
