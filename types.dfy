/** The records shared by the scorer, the form, the results screen and the page. */
module Types {

  datatype BusinessLevel = Entry | Intermediate | Advanced | Executive

  /** The string a business level is written as (`'entry'`, ...). */
  function LevelKey(l: BusinessLevel): string {
    match l
    case Entry => "entry"
    case Intermediate => "intermediate"
    case Advanced => "advanced"
    case Executive => "executive"
  }

  /** The position of a level in the ladder, lowest first. */
  function Rank(l: BusinessLevel): (r: nat)
    ensures r < 4
  {
    match l
    case Entry => 0
    case Intermediate => 1
    case Advanced => 2
    case Executive => 3
  }

  datatype JobType = Sales | Engineer | Marketing | Management | OtherJob
  datatype Usage = Email | Meeting | Presentation | Negotiation | Interview
  datatype Goal = JobChange | Promotion | Overseas | SkillUp
  datatype CurrentLevel = NoEnglish | BasicEnglish | IntermediateEnglish | AdvancedEnglish

  datatype UserProfile = UserProfile(
    jobType: JobType,
    englishUsage: seq<Usage>,
    goal: Goal,
    currentLevel: CurrentLevel)

  /** The skill profile of the active scorer. */
  datatype SkillScore = SkillScore(
    vocabulary: int,
    reading: int,
    situationJudgment: int,
    advancedSkills: int)

  datatype ReadinessLevel = NotReady | BasicReady | Ready | Confident

  datatype InterviewReadiness = InterviewReadiness(
    level: ReadinessLevel,
    description: string,
    tips: seq<string>)

  datatype RoadmapPhase = RoadmapPhase(
    phase: nat,
    title: string,
    duration: string,
    goals: seq<string>)

  datatype Service = Service(
    rank: nat,
    name: string,
    description: string,
    category: string,
    pricing: string,
    freeTrialInfo: string,
    whyRecommended: string,
    affiliateLink: string)

  /** A finished diagnosis; `S` is the skill-score record of the scorer that built it. */
  datatype DiagnosisResult<S> = DiagnosisResult(
    profile: UserProfile,
    businessLevel: BusinessLevel,
    overallScore: int,
    skillScores: S,
    strengths: seq<string>,
    weaknesses: seq<string>,
    interviewReadiness: InterviewReadiness,
    recommendations: seq<string>,
    roadmap: seq<RoadmapPhase>,
    recommendedServices: seq<Service>)

  /** The service list's ranks read 1, 2, 3, ... in order. */
  predicate RanksConsecutive(services: seq<Service>) {
    forall i :: 0 <= i < |services| ==> services[i].rank == i + 1
  }
}
