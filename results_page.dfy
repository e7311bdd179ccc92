/** The results screen (components/ResultsPage.tsx): the display helpers that
    turn a report's level, score and labels into text, and the job-match panel
    that posts a job description and keeps the analysis it gets back. */
module ResultsPage {
  import opened Wrappers
  import opened Types
  import opened Ladders
  import Text
  import JobMatch
  import V1 = DiagnosisV1
  import V2 = DiagnosisV2

  // ---------------------------------------------------------------------------
  // TOEIC estimate

  /** The band an overall score alone reaches: 85, 70 and 50 are the cut-offs. */
  function ScoreBand(score: int): (b: nat)
    ensures b < 4
  {
    if score >= 85 then 3 else if score >= 70 then 2 else if score >= 50 then 1 else 0
  }

  const EstimateTexts := ["TOEIC 400〜550点 相当", "TOEIC 550〜730点 相当",
                          "TOEIC 730〜860点 相当", "TOEIC 860〜990点 相当"]

  /** `getToeicEstimate`: each test passes on the level's name or on the score. */
  function ToeicEstimate(level: BusinessLevel, score: int): (r: string)
    ensures r == EstimateTexts[Band(level, score)]
  {
    if level == Executive || score >= 85 then "TOEIC 860〜990点 相当"
    else if level == Advanced || score >= 70 then "TOEIC 730〜860点 相当"
    else if level == Intermediate || score >= 50 then "TOEIC 550〜730点 相当"
    else "TOEIC 400〜550点 相当"
  }

  /** The higher of the level's band and the score's band. */
  function Band(level: BusinessLevel, score: int): nat {
    if Rank(level) < ScoreBand(score) then ScoreBand(score) else Rank(level)
  }

  /** The four estimates differ, so an estimate names exactly one band. */
  lemma EstimateNamesBand(level: BusinessLevel, score: int, b: nat)
    requires b < 4 && ToeicEstimate(level, score) == EstimateTexts[b]
    ensures b == Band(level, score)
  {
    assert EstimateTexts[0][6] == '4' && EstimateTexts[1][6] == '5';
    assert EstimateTexts[2][6] == '7' && EstimateTexts[3][6] == '8';
  }

  /** A higher level or a higher score never lowers the estimate. */
  lemma ToeicEstimateMonotone(l1: BusinessLevel, s1: int, l2: BusinessLevel, s2: int)
    requires Rank(l1) <= Rank(l2) && s1 <= s2
    ensures exists i, j :: 0 <= i <= j < 4 && ToeicEstimate(l1, s1) == EstimateTexts[i] && ToeicEstimate(l2, s2) == EstimateTexts[j]
  {
    var i, j := Band(l1, s1), Band(l2, s2);
    assert 0 <= i <= j < 4 && ToeicEstimate(l1, s1) == EstimateTexts[i] && ToeicEstimate(l2, s2) == EstimateTexts[j];
  }

  /** For a report of the older scorer, whose level comes from the same cut-offs,
      the estimate is exactly the level's own band. */
  lemma ToeicEstimateOfScoreLevel(score: int)
    ensures ToeicEstimate(V1.LevelOf(score), score) == EstimateTexts[Rank(V1.LevelOf(score))]
  {
  }

  /** The estimate is never below the level's band: a level earned with fewer
      points than its band's cut-off still shows that band. */
  lemma ToeicEstimateAtLeastLevel(level: BusinessLevel, score: int)
    ensures exists b :: Rank(level) <= b < 4 && ToeicEstimate(level, score) == EstimateTexts[b]
  {
    var b := Band(level, score);
    assert Rank(level) <= b < 4 && ToeicEstimate(level, score) == EstimateTexts[b];
  }

  // ---------------------------------------------------------------------------
  // Match-level style

  datatype Style = Style(color: string, bg: string, caption: string)

  const HighStyle := Style("#2d6a4f", "rgba(45, 106, 79, 0.1)", "◎ 応募推奨")
  const MediumStyle := Style("#3d5a80", "rgba(61, 90, 128, 0.1)", "○ 応募可能")
  const LowStyle := Style("#c9a227", "rgba(201, 162, 39, 0.1)", "△ 要準備")
  const NotReadyStyle := Style("#9d4e4e", "rgba(157, 78, 78, 0.1)", "✗ 準備不足")

  /** The string the route writes for a match level. */
  function MatchKey(l: JobMatch.MatchLevel): string {
    match l
    case High => "high"
    case Medium => "medium"
    case Low => "low"
    case NotReady => "not_ready"
  }

  /** `getMatchLevelStyle`: the style of a known level string, the medium style
      for any other. */
  function MatchLevelStyle(level: string): Style {
    if level == "high" then HighStyle
    else if level == "medium" then MediumStyle
    else if level == "low" then LowStyle
    else if level == "not_ready" then NotReadyStyle
    else MediumStyle
  }

  /** Each level the route writes gets its own style; a string that is not one of
      the three other levels shows the medium style. */
  lemma MatchLevelStyleFacts(l1: JobMatch.MatchLevel, l2: JobMatch.MatchLevel, s: string)
    ensures MatchLevelStyle(MatchKey(l1)) == MatchLevelStyle(MatchKey(l2)) <==> l1 == l2
    ensures MatchLevelStyle(s) == MediumStyle <==> s != "high" && s != "low" && s != "not_ready"
  {
    assert HighStyle.color[1] == '2' && MediumStyle.color[1] == '3';
    assert LowStyle.color[1] == 'c' && NotReadyStyle.color[1] == '9';
  }

  // ---------------------------------------------------------------------------
  // Level name and description

  /** `getLevelNameJa`: the display name of a level key; any other string is shown as is. */
  function LevelNameJa(level: string): string {
    if level == "entry" then "Entry"
    else if level == "intermediate" then "Intermediate"
    else if level == "advanced" then "Advanced"
    else if level == "executive" then "Executive"
    else level
  }

  /** `getLevelDescriptionJa`: the description of a level key, empty for any other string. */
  function LevelDescriptionJa(level: string): string {
    if level == "entry" then EntryDescription
    else if level == "intermediate" then IntermediateDescription
    else if level == "advanced" then AdvancedDescription
    else if level == "executive" then ExecutiveDescription
    else ""
  }

  const EntryDescription := "基礎レベル - 定型的なビジネスメールや簡単な会話ができる"
  const IntermediateDescription := "実務レベル - 会議参加やプレゼンの基本ができる"
  const AdvancedDescription := "即戦力レベル - 交渉や複雑な議論ができる"
  const ExecutiveDescription := "エグゼクティブレベル - 経営レベルの議論や戦略的コミュニケーションができる"

  function IsLevelKey(s: string): bool {
    s == "entry" || s == "intermediate" || s == "advanced" || s == "executive"
  }

  /** Every level has a non-empty name and description of its own; and the
      description is empty exactly for a string that is no level key, which is
      then shown as its own name. */
  lemma LevelTextFacts(l1: BusinessLevel, l2: BusinessLevel, s: string)
    ensures LevelNameJa(LevelKey(l1)) == LevelNameJa(LevelKey(l2)) <==> l1 == l2
    ensures LevelDescriptionJa(LevelKey(l1)) == LevelDescriptionJa(LevelKey(l2)) <==> l1 == l2
    ensures LevelDescriptionJa(s) == "" <==> !IsLevelKey(s)
    ensures !IsLevelKey(s) ==> LevelNameJa(s) == s
    ensures forall l :: IsLevelKey(LevelKey(l))
  {
    assert |EntryDescription| > 0 && |IntermediateDescription| > 0;
    assert |AdvancedDescription| > 0 && |ExecutiveDescription| > 0;
    assert EntryDescription[0] == '基' && IntermediateDescription[0] == '実';
    assert AdvancedDescription[0] == '即' && ExecutiveDescription[0] == 'エ';
  }

  // ---------------------------------------------------------------------------
  // Label translation

  /** `translations[s] || s` over a key-value table: the first entry with key `s`
      gives its (truthy) value; otherwise `s` is shown as is. */
  function Translate(table: seq<(string, string)>, s: string): (r: string)
    ensures (forall i :: 0 <= i < |table| ==> table[i].0 != s) ==> r == s
  {
    if table == [] then s
    else if table[0].0 == s then (if table[0].1 != "" then table[0].1 else s)
    else Translate(table[1..], s)
  }

  predicate DistinctKeys(table: seq<(string, string)>) {
    forall i, j :: 0 <= i < j < |table| ==> table[i].0 != table[j].0
  }

  /** In a table without repeated keys, a key with a non-empty value translates to it. */
  lemma {:induction false} TranslateKey(table: seq<(string, string)>, i: nat)
    requires DistinctKeys(table) && i < |table| && table[i].1 != ""
    ensures Translate(table, table[i].0) == table[i].1
  {
    if i > 0 {
      assert table[1..][i - 1] == table[i];
      assert DistinctKeys(table[1..]) by {
        forall p, q | 0 <= p < q < |table[1..]| ensures table[1..][p].0 != table[1..][q].0 {
          assert table[1..][p] == table[p + 1] && table[1..][q] == table[q + 1];
        }
      }
      TranslateKey(table[1..], i - 1);
    }
  }

  const StrengthTable := [
    (V2.VocabularyStrength, "ビジネス語彙・用語の理解"),
    (V2.ReadingStrength, "ビジネス文書の読解力"),
    (V2.SituationStrength, "ビジネス状況での適切な判断力"),
    (V2.StrengthSentinel, "ビジネス英語の基礎力")]

  const WeaknessTable := [
    (V2.VocabularyWeakness, "ビジネス語彙の強化が必要"),
    (V2.ReadingWeakness, "ビジネス文書の読解力向上が必要"),
    (V2.SituationWeakness, "状況判断力の向上が必要"),
    (V2.WeaknessSentinel, "大きな弱点は見られません")]

  /** `strengthToJapanese`. */
  function StrengthToJapanese(s: string): string {
    Translate(StrengthTable, s)
  }

  /** `weaknessToJapanese`. */
  function WeaknessToJapanese(w: string): string {
    Translate(WeaknessTable, w)
  }

  /** The keys of both tables differ (by first letter or by length), and every
      value is non-empty. */
  lemma TablesWellFormed()
    ensures DistinctKeys(StrengthTable) && DistinctKeys(WeaknessTable)
    ensures forall i :: 0 <= i < 4 ==> StrengthTable[i].1 != "" && WeaknessTable[i].1 != ""
  {
    assert |V2.VocabularyStrength| == 35 && |V2.ReadingStrength| == 44;
    assert |V2.SituationStrength| == 44 && |V2.StrengthSentinel| == 36;
    assert V2.ReadingStrength[0] == 'R' && V2.SituationStrength[0] == 'P';
    assert |V2.VocabularyWeakness| == 19 && |V2.ReadingWeakness| == 31;
    assert |V2.SituationWeakness| == 27 && |V2.WeaknessSentinel| == 30;
  }

  /** Each table key translates to its own value. */
  lemma TableTranslations(i: nat)
    requires i < 4
    ensures StrengthToJapanese(StrengthTable[i].0) == StrengthTable[i].1
    ensures WeaknessToJapanese(WeaknessTable[i].0) == WeaknessTable[i].1
  {
    TablesWellFormed();
    TranslateKey(StrengthTable, i);
    TranslateKey(WeaknessTable, i);
  }

  /** Every label the current scorer reports, sentinels included, is a table key
      and so is shown in Japanese. */
  lemma CurrentLabelsTranslated(d: V2.Detailed)
    ensures forall x :: x in OrSentinel(Strengths(V2.Axes(d)), V2.StrengthSentinel) ==>
      exists i :: 0 <= i < 4 && x == StrengthTable[i].0 && StrengthToJapanese(x) == StrengthTable[i].1
    ensures forall x :: x in OrSentinel(Weaknesses(V2.Axes(d)), V2.WeaknessSentinel) ==>
      exists i :: 0 <= i < 4 && x == WeaknessTable[i].0 && WeaknessToJapanese(x) == WeaknessTable[i].1
  {
    var axes := V2.Axes(d);
    LabelsFromAxes(axes);
    TableTranslations(0);
    TableTranslations(1);
    TableTranslations(2);
    TableTranslations(3);
    forall x | x in OrSentinel(Strengths(axes), V2.StrengthSentinel)
      ensures exists i :: 0 <= i < 4 && x == StrengthTable[i].0 && StrengthToJapanese(x) == StrengthTable[i].1
    {
      if x == V2.StrengthSentinel {
        assert x == StrengthTable[3].0;
      } else {
        var k :| 0 <= k < |axes| && axes[k].strength == x;
        assert x == StrengthTable[k].0;
      }
    }
    forall x | x in OrSentinel(Weaknesses(axes), V2.WeaknessSentinel)
      ensures exists i :: 0 <= i < 4 && x == WeaknessTable[i].0 && WeaknessToJapanese(x) == WeaknessTable[i].1
    {
      if x == V2.WeaknessSentinel {
        assert x == WeaknessTable[3].0;
      } else {
        var k :| 0 <= k < |axes| && axes[k].weakness == x;
        assert x == WeaknessTable[k].0;
      }
    }
  }

  /** The older scorer's labels are already Japanese and are no table key, so
      they are shown unchanged. */
  lemma OlderLabelsShownAsIs(s: V1.SceneScores)
    ensures forall x :: x in OrSentinel(Strengths(V1.Axes(s)), V1.StrengthSentinel) ==> StrengthToJapanese(x) == x
    ensures forall x :: x in OrSentinel(Weaknesses(V1.Axes(s)), V1.WeaknessSentinel) ==> WeaknessToJapanese(x) == x
  {
    var axes := V1.Axes(s);
    KeysStartNarrow();
    OlderLabelsStartWide(s);
    LabelsUntranslated(axes, StrengthTable, WeaknessTable, V1.StrengthSentinel, V1.WeaknessSentinel);
  }

  /** Every table key starts with an ASCII letter. */
  lemma KeysStartNarrow()
    ensures forall i :: 0 <= i < |StrengthTable| ==> |StrengthTable[i].0| > 0 && StrengthTable[i].0[0] < '\U{80}'
    ensures forall i :: 0 <= i < |WeaknessTable| ==> |WeaknessTable[i].0| > 0 && WeaknessTable[i].0[0] < '\U{80}'
  {
    assert StrengthTable[0].0[0] == 'B' && StrengthTable[1].0[0] == 'R';
    assert StrengthTable[2].0[0] == 'P' && StrengthTable[3].0[0] == 'F';
    assert WeaknessTable[0].0[0] == 'B' && WeaknessTable[1].0[0] == 'B';
    assert WeaknessTable[2].0[0] == 'S' && WeaknessTable[3].0[0] == 'N';
  }

  /** Every label of the older scorer starts with a Japanese character. */
  lemma OlderLabelsStartWide(s: V1.SceneScores)
    ensures forall k :: 0 <= k < |V1.Axes(s)| ==>
      |V1.Axes(s)[k].strength| > 0 && V1.Axes(s)[k].strength[0] >= '\U{80}'
      && |V1.Axes(s)[k].weakness| > 0 && V1.Axes(s)[k].weakness[0] >= '\U{80}'
    ensures |V1.StrengthSentinel| > 0 && V1.StrengthSentinel[0] >= '\U{80}'
    ensures |V1.WeaknessSentinel| > 0 && V1.WeaknessSentinel[0] >= '\U{80}'
  {
    assert V1.EmailStrength[0] == 'ビ' && V1.MeetingStrength[0] == '会';
    assert V1.PresentationStrength[0] == 'プ' && V1.NegotiationStrength[0] == '交';
    assert V1.EmailWeakness[0] == 'ビ' && V1.MeetingWeakness[0] == 'ミ';
    assert V1.PresentationWeakness[0] == 'プ' && V1.NegotiationWeakness[0] == '交';
    assert V1.StrengthSentinel[0] == '基' && V1.WeaknessSentinel[0] == '大';
  }

  /** Labels and sentinels that are no key of their table are shown unchanged. */
  lemma LabelsUntranslated(axes: seq<Axis>, st: seq<(string, string)>, wt: seq<(string, string)>, ss: string, ws: string)
    requires forall k, i :: 0 <= k < |axes| && 0 <= i < |st| ==> axes[k].strength != st[i].0
    requires forall k, i :: 0 <= k < |axes| && 0 <= i < |wt| ==> axes[k].weakness != wt[i].0
    requires forall i :: 0 <= i < |st| ==> ss != st[i].0
    requires forall i :: 0 <= i < |wt| ==> ws != wt[i].0
    ensures forall x :: x in OrSentinel(Strengths(axes), ss) ==> Translate(st, x) == x
    ensures forall x :: x in OrSentinel(Weaknesses(axes), ws) ==> Translate(wt, x) == x
  {
    LabelsFromAxes(axes);
  }

  // ---------------------------------------------------------------------------
  // The job-match panel

  /** What happens to the stored analysis when a reply arrives: only a successful
      reply replaces it (a thrown request is `None`). */
  function AfterReply<J>(stored: Option<JobMatch.Analysis<J>>, reply: Option<JobMatch.Response<J>>): (r: Option<JobMatch.Analysis<J>>)
    ensures r != stored ==> reply.Some? && reply.value.Success? && r == Some(reply.value.result)
    ensures reply.Some? && reply.value.Success? ==> r == Some(reply.value.result)
  {
    if reply.Some? && reply.value.Success? then Some(reply.value.result) else stored
  }

  /** Without a configured key a request carrying its fields always stores the canned
      analysis of its score and lists. */
  lemma StoredWithoutKey<J>(stored: Option<JobMatch.Analysis<J>>, req: JobMatch.JobMatchRequest,
                            reply: JobMatch.Reply, parse: string -> Option<J>)
    ensures AfterReply(stored, Some(JobMatch.Post(Some(req), None, reply, parse)))
      == Some(JobMatch.Canned(JobMatch.MockResponse(req)))
  {
    JobMatch.PostMockIff(req, None, reply, parse);
  }

  /** An error response never changes what is stored. */
  lemma StoredAfterError<J>(stored: Option<JobMatch.Analysis<J>>)
    ensures AfterReply(stored, Some(JobMatch.Error<J>())) == stored
    ensures AfterReply(stored, None) == stored
  {
  }

  /** The panel's state: whether it is open, the pasted description, the stored
      analysis and whether a request is in flight. */
  class JobMatchPanel<J> {
    var showJobMatch: bool
    var jobDescription: string
    var jobMatchResult: Option<JobMatch.Analysis<J>>
    var isAnalyzing: bool

    constructor ()
      ensures !showJobMatch && jobDescription == "" && jobMatchResult == None && !isAnalyzing
    {
      showJobMatch := false;
      jobDescription := "";
      jobMatchResult := None;
      isAnalyzing := false;
    }

    /** The button that opens the panel. */
    method Open()
      modifies this
      ensures showJobMatch
      ensures jobDescription == old(jobDescription) && jobMatchResult == old(jobMatchResult) && isAnalyzing == old(isAnalyzing)
    {
      showJobMatch := true;
    }

    /** The textarea's change handler. */
    method Edit(text: string)
      modifies this
      ensures jobDescription == text
      ensures showJobMatch == old(showJobMatch) && jobMatchResult == old(jobMatchResult) && isAnalyzing == old(isAnalyzing)
    {
      jobDescription := text;
    }

    /** The close button: hides the panel and clears the description and the analysis. */
    method Close()
      modifies this
      ensures !showJobMatch && jobDescription == "" && jobMatchResult == None
      ensures isAnalyzing == old(isAnalyzing)
    {
      showJobMatch := false;
      jobDescription := "";
      jobMatchResult := None;
    }

    /** `handleJobMatchAnalysis`, with the request's outcome as `reply`: a blank
        description sends nothing and changes nothing; otherwise the analysis is
        stored only from a successful reply, and the panel is idle afterwards. */
    method Analyze(reply: Option<JobMatch.Response<J>>)
      modifies this
      ensures Text.Trim(old(jobDescription)) == "" ==>
        jobMatchResult == old(jobMatchResult) && isAnalyzing == old(isAnalyzing)
      ensures Text.Trim(old(jobDescription)) != "" ==>
        jobMatchResult == AfterReply(old(jobMatchResult), reply) && !isAnalyzing
      ensures jobDescription == old(jobDescription) && showJobMatch == old(showJobMatch)
    {
      if Text.Trim(jobDescription) == "" {
        return;
      }
      isAnalyzing := true;
      if reply.Some? && reply.value.Success? {
        jobMatchResult := Some(reply.value.result);
      }
      isAnalyzing := false;
    }
  }
}
