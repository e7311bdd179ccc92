# Business English Pro — a Dafny model of the diagnosis core

Business English Pro is a web application that places a Japanese professional's
business English on a four-step ladder (entry, intermediate, advanced, executive).
A visitor walks through four steps:

1. an intro screen;
2. a profile form (job type, usage situations, goal, self-assessed level);
3. a randomised multiple-choice test;
4. a results screen.

The results screen shows scores, strengths and weaknesses, interview readiness,
a roadmap, recommendations, and affiliate services. It also offers a job-match
check backed by an API route.

This project models that core in Dafny and proves what the code promises.

| module (file) | what it models |
|---|---|
| `Wrappers` (wrappers.dfy) | `Option` |
| `Text` (text.dfy) | the JavaScript string operations the core relies on: `toLowerCase` on ASCII, `includes`, `trim` |
| `Types` (types.dfy) | the records of `lib/types.ts` |
| `Rounding` (rounding.dfy) | `Math.round(correct / Math.max(total, 1) * 100)` and the rounded means, in exact integer arithmetic |
| `Shuffle` (shuffle.dfy) | `shuffleArray`, the in-place Fisher–Yates shuffle on a copied array, with `Math.random()` as a sequence of draws |
| `Seqs` (seqs.dfy) | concatenating blocks (`selected.push(...a, ...b, ...c)`) |
| `QuestionBankV2` (bank_v2.dfy) | the 32-question bank of `lib/questions-v2.ts`, `selectQuestions` and `getWritingPrompts` |
| `QuestionBankV1` (bank_v1.dfy) | the 40-question bank of `lib/questions.ts`, `selectRandomQuestions` and `selectRandomWritingPrompt` |
| `Ladders` (ladders.dfy) | logic the two scorers share: the interview-readiness ladder, the strength/weakness split at 70 with its fallback sentinels, and the push-if list builders |
| `DiagnosisV2` (diagnosis_v2.dfy) | the active test component `components/DiagnosisTest-v2.tsx`: the session as a class, the scorer, and the recommendation and service builders |
| `DiagnosisV1` (diagnosis_v1.dfy) | the older component `components/DiagnosisTest.tsx`, in the same form |
| `JobMatch` (job_match.dfy) | the `POST` handler of `app/api/job-match/route.ts`: the mock fallback, the canned response, JSON extraction and the error mapping |
| `ResultsPage` (results_page.dfy) | the results screen's helpers (TOEIC estimate, level texts, match-level styles, label translation) and the job-match panel as a class |
| `ProfileForm` (profile_form.dfy) | the profile form as a class: button handlers, the usage toggle, `isValid` and submit |
| `Page` (page.dfy) | the four-step state machine of `app/page.tsx` and its render guards |

How the code's sources of uncertainty are represented:

- **Randomness.** Each `Math.random()` call is a given real in [0, 1). A shuffle of n items makes n − 1 draws; the model takes a sequence of n reals whose `rs[0]` is never read. `rs[i]` is the draw made when position `i` is processed (i from n − 1 down to 1), and the swap partner is `Floor(rs[i] * (i + 1))`.
- **The network.** The upstream model's reply is a parameter of the route (`Reply`). Parsing the extracted JSON is a parameter too (`parse`).
- **The fetch in the results screen.** It is given as the optional response it produced.

Points where the code behaves differently from a first reading, and the model follows the code:

- **API key.** `!apiKey` also treats an empty key as missing, so an empty key takes the mock path (`JobMatch.UseMock`).
- **Mock advice.** In the mock advice, `weaknesses[0] || ...` also falls back when the first entry is the empty string (`JobMatch.FirstOr`).
- **Advanced-question gates.** The active scorer's level gates compare the ratio `advancedCorrect / 9` with 0.7 and 0.5. With integers these are exactly `advancedCorrect >= 7` and `advancedCorrect >= 5` (`DiagnosisV2.LevelOfExact`).
- **Rounding order.** The overall score is the rounded mean of already-rounded category percentages. `DiagnosisV2.RoundingBeforeAveraging` exhibits an answer pattern where this gives 45, one point more than rounding the mean of the raw ratios (44).

## Model

| member | source | states |
|---|---|---|
| Text.LowerChar | components/DiagnosisTest-v2.tsx:464 | An ASCII capital is lowered by 32 code points; every other character is unchanged. |
| Text.Lower | components/DiagnosisTest-v2.tsx:520 | `toLowerCase` keeps the length and lowers each character independently. |
| Text.MissingCharNotContained | components/DiagnosisTest-v2.tsx:520 | A text lacking any one character of a pattern does not `include` it. |
| Text.PrefixContained | components/DiagnosisTest-v2.tsx:520 | A text that starts with a pattern `include`s it. |
| Text.Trim | components/ResultsPage.tsx:33 | `trim()` keeps no leading or trailing JavaScript whitespace and never lengthens the text. |
| Text.TrimStart | components/ResultsPage.tsx:33 | The result is a suffix of the input, and everything removed in front was whitespace. |
| Text.TrimEnd | components/ResultsPage.tsx:33 | The result is a prefix of the input, and everything removed at the back was whitespace. |
| Text.TrimEmptyIffBlank | components/ResultsPage.tsx:323 | The trim is empty exactly when every character of the description is whitespace: this is the analyse guard and the disabled state of the analyse button. |
| Types.Rank | lib/types.ts:3 | The business levels are ordered entry < intermediate < advanced < executive, with ranks below 4. |
| Rounding.RoundRatio | components/DiagnosisTest-v2.tsx:127-129 | The rounded ratio r satisfies d·2r ≤ 2n + d < d·(2r + 2), i.e. r is the nearest integer to n/d with halves rounded up. |
| Rounding.RoundRatioIsRoundHalfUp | components/DiagnosisTest-v2.tsx:127-129 | The integer rounding agrees with `Math.round` (floor of x + 0.5) applied to the real ratio. |
| Rounding.Max1 | components/DiagnosisTest-v2.tsx:127 | `Math.max(total, 1)` is at least 1 and at least the total, and equals a positive total. |
| Rounding.PercentBounds | components/DiagnosisTest.tsx:99-102 | A category percentage lies in 0..100. It is 0 for an empty category and 100 when every answer is correct, and it is 0 exactly when fewer than half a percent were correct. |
| Rounding.PercentMonotone | components/DiagnosisTest.tsx:99-102 | More correct answers in a category never lower its percentage. |
| Rounding.Mean3Between | components/DiagnosisTest-v2.tsx:142-144 | The rounded mean of three scores stays within any bounds the three share. |
| Rounding.Mean4Between | components/DiagnosisTest.tsx:105-107 | The rounded mean of four scores stays within any bounds the four share. |
| Shuffle.Pick | lib/questions-v2.ts:645 | `Math.floor(Math.random() * (i + 1))` is never beyond position i. |
| Shuffle.PickBounds | lib/questions-v2.ts:645 | The drawn partner index lies in 0..i. |
| Shuffle.Swap | lib/questions-v2.ts:646 | The destructuring swap exchanges positions i and j and leaves every other position as it was. |
| Shuffle.FisherYates | lib/questions-v2.ts:642-649 | The reference shuffle (swap i with its drawn partner, then continue from i − 1) keeps the length. |
| Shuffle.SwapPermutes | lib/questions-v2.ts:646 | A swap keeps the multiset of elements. |
| Shuffle.FisherYatesPermutes | lib/questions-v2.ts:642-649 | The reference shuffle is a permutation of its input. |
| Shuffle.ShuffleArray | lib/questions-v2.ts:642-649 | The in-place loop over the copied array computes the reference shuffle of the input and returns a permutation of it. |
| Shuffle.PermutationMembers | lib/questions.ts:597-604 | A shuffled list holds exactly the same items as the original. |
| Seqs.FlattenAppend | lib/questions-v2.ts:659-673 | Pushing blocks one after another gives the concatenation of their concatenations. |
| Seqs.FlattenPermutes | lib/questions-v2.ts:656-673 | Concatenating blockwise permutations permutes the concatenation. |
| Seqs.FlattenOffsets | lib/questions.ts:616-624 | With running offsets, the blocks pushed before block k fill exactly offs[k] positions. |
| Seqs.BlockAt | lib/questions.ts:616-624 | With running offsets, block k occupies exactly positions offs[k]..offs[k+1] of the concatenation. |
| Seqs.DistinctSub | lib/questions.ts:619-621 | A sub-multiset of a list without repeats has no repeats. |
| QuestionBankV2.ByCategoryAppend | lib/questions-v2.ts:655 | Filtering by category distributes over concatenation. |
| QuestionBankV2.ByLevelAppend | lib/questions-v2.ts:656 | Filtering by level distributes over concatenation. |
| QuestionBankV2.ByCategoryUniform | lib/questions-v2.ts:655 | A block of one category passes its own category's filter whole and every other category's filter empty. |
| QuestionBankV2.ByLevelUniform | lib/questions-v2.ts:656 | A block of one level passes its own level's filter whole and every other level's filter empty. |
| QuestionBankV2.BankIsBlocks | lib/questions-v2.ts:16-599 | The bank is vocabulary, then reading, then situation, each in basic, intermediate, advanced order. |
| QuestionBankV2.CategoriesOfBank | lib/questions-v2.ts:655-669 | Each category filter of the bank returns that category's basic, intermediate and advanced blocks. The writing filter returns nothing, because the bank holds no writing items. |
| QuestionBankV2.UniformBlocks | lib/questions-v2.ts:16-599 | Every one of the nine bank blocks is of a single category and a single level. |
| QuestionBankV2.StrataOfBank | lib/questions-v2.ts:655-672 | Filtering the bank by a category and then a level gives exactly the corresponding block, of the size the comment states. |
| QuestionBankV2.BlockSizes | lib/questions-v2.ts:654-668 | The block sizes are 4, 5, 3 / 3, 4, 3 / 3, 4, 3 and sum to 32. |
| QuestionBankV2.BankWellFormed | lib/questions-v2.ts:16-599 | The bank has 32 questions; each has four options and a correct answer among them. |
| QuestionBankV2.BankIds | lib/questions-v2.ts:16-599 | The bank's question ids are pairwise distinct. |
| QuestionBankV2.ShuffledBlockPermutes | lib/questions-v2.ts:656 | A shuffled stratum has the stratum's size and is a permutation of it. |
| QuestionBankV2.ShuffledStrata | lib/questions-v2.ts:656-672 | The nine shuffled strata are the stratum shuffles, each under its own draws. |
| QuestionBankV2.Selection | lib/questions-v2.ts:651-676 | The selection has 32 questions. |
| QuestionBankV2.ShuffleStratum | lib/questions-v2.ts:656-658 | Filtering a category's questions by one level and shuffling them gives that stratum's shuffle. |
| QuestionBankV2.SelectCategory | lib/questions-v2.ts:654-659 | One category's part is its basic, intermediate and advanced shuffles, in that order. |
| QuestionBankV2.SelectQuestions | lib/questions-v2.ts:651-676 | The imperative selection returns the specification selection, of 32 questions. |
| QuestionBankV2.SelectionIsConcatenation | lib/questions-v2.ts:659-673 | The selection is the vocabulary part, then the reading part, then the situation part. |
| QuestionBankV2.SelectionStratum | lib/questions-v2.ts:656-673 | Stratum k sits at its fixed offsets in the selection. That stretch is the stratum's shuffle, hence a permutation of the bank's block, and every question in it has the stratum's category and level. |
| QuestionBankV2.SelectionPermutesBank | lib/questions-v2.ts:651-676 | Every draw selects every question of the bank exactly once. |
| QuestionBankV2.SelectionCategory | lib/questions-v2.ts:651-676 | Positions 0–11 of the selection are vocabulary, 12–21 reading, 22–31 situation. |
| QuestionBankV2.SelectionAdvancedCount | lib/questions-v2.ts:654-672 | Every selection holds exactly 9 advanced questions: this is the divisor the scorer uses. |
| QuestionBankV2.GetWritingPrompts | lib/questions-v2.ts:678-680 | The writing prompts are three writing items with distinct ids. |
| QuestionBankV1.ByCategoryAppend | lib/questions.ts:617 | Filtering by category distributes over concatenation. |
| QuestionBankV1.ByLevelAppend | lib/questions.ts:619 | Filtering by level distributes over concatenation. |
| QuestionBankV1.ConfigStrata | lib/questions.ts:609-614 | The draw table is the configuration unrolled: for each scene it lists basic, intermediate and advanced, with the configured counts. |
| QuestionBankV1.CategoriesOfBank | lib/questions.ts:14-575 | Each scene filter of the bank returns exactly that scene's block of items, in bank order (12 email, 12 meeting, 8 presentation, 8 negotiation). |
| QuestionBankV1.StrataOfBank | lib/questions.ts:617-621 | Filtering the bank by a scene and then a level gives exactly the corresponding block. |
| QuestionBankV1.BankWellFormed | lib/questions.ts:14-575 | The bank has 40 questions; each has four options and a correct answer among them. |
| QuestionBankV1.BankDistinct | lib/questions.ts:14-575 | The bank's ids are pairwise distinct, so the bank has no repeated question. |
| QuestionBankV1.Slice | lib/questions.ts:619-621 | `slice(0, n)` is the first min(n, length) items. |
| QuestionBankV1.BlockSizes | lib/questions.ts:609-614 | Every block holds at least as many items as the configuration asks for, and the configured counts sum to 18. |
| QuestionBankV1.PartFacts | lib/questions.ts:619-621 | A drawn part has exactly the configured count and is a sub-multiset of its block. |
| QuestionBankV1.SliceOfPermutation | lib/questions.ts:619 | A prefix of a shuffle is a sub-multiset of the shuffled list. |
| QuestionBankV1.DrawStratum | lib/questions.ts:619-621 | Filtering one level, shuffling and slicing gives that stratum's part. |
| QuestionBankV1.SelectRandomQuestions | lib/questions.ts:606-627 | The imperative loop over the configuration returns the specification selection, of 18 questions. |
| QuestionBankV1.SelectionLength | lib/questions.ts:606-627 | Every selection has 18 questions. |
| QuestionBankV1.SelectionStratum | lib/questions.ts:616-624 | Stratum k sits at its fixed offsets; every question there has the stratum's scene and level. |
| QuestionBankV1.StratumAt | lib/questions.ts:609-614 | Each of the 18 positions belongs to exactly one stratum's stretch. |
| QuestionBankV1.SelectionOrdered | lib/questions.ts:616-624 | The selection is ordered by scene (email, meeting, presentation, negotiation) and within a scene by level. |
| QuestionBankV1.SelectionFromBank | lib/questions.ts:606-627 | The selection is drawn from the bank without repeating a question. |
| QuestionBankV1.SelectionIds | lib/questions.ts:606-627 | The selected questions' ids are pairwise distinct. |
| QuestionBankV1.SelectRandomWritingPrompt | lib/questions.ts:629-631 | The prompt is the head of the shuffled prompt list, hence one of the three prompts. |
| Ladders.ReadinessTierExact | components/DiagnosisTest-v2.tsx:410-454 | The readiness tier, stated exactly. Confident: overall ≥ 80 and the two communication scores sum to ≥ 150 (average ≥ 75). Ready: otherwise, overall ≥ 60 and sum ≥ 110. Basic: otherwise, overall ≥ 40. Not ready: overall below 40. |
| Ladders.ReadinessMonotone | components/DiagnosisTest-v2.tsx:410-454 | Better overall and communication scores never lower the readiness tier. |
| Ladders.OrSentinel | components/DiagnosisTest-v2.tsx:202-203 | The reported list is never empty: the labels if any, else the one sentinel. |
| Ladders.SplitIsPartition | components/DiagnosisTest-v2.tsx:160-180 | Every skill lands in exactly one of strengths and weaknesses. There are no strengths exactly when all scores are below 70, and no weaknesses exactly when all are at least 70. |
| Ladders.SplitMembership | components/DiagnosisTest-v2.tsx:164-179 | With distinct labels, a skill's strength label is listed iff its score is ≥ 70 and its weakness label iff below. |
| Ladders.SplitSnoc | components/DiagnosisTest-v2.tsx:164-179 | One more skill appends at most its one label to each list, in order. |
| Ladders.SplitPrefix | components/DiagnosisTest-v2.tsx:164-179 | Each `if`/`else` push step extends the lists built so far by that skill's label. |
| Ladders.LabelsFromAxes | components/DiagnosisTest-v2.tsx:164-179 | Every listed label is some skill's own strength or weakness label. |
| Ladders.LabelsOfRest | components/DiagnosisTest-v2.tsx:164-179 | A text no skill uses as a label never appears in the lists. |
| Ladders.SentinelIff | components/DiagnosisTest-v2.tsx:202-203 | The sentinel is reported exactly when every score is on the other side of 70. |
| Ladders.SentinelsAreNotLabels | components/DiagnosisTest-v2.tsx:202-203 | The reported list is the bare sentinel exactly when no label was pushed. |
| Ladders.Fired | components/DiagnosisTest-v2.tsx:480-501 | The conditional pushes produce at most one entry per rule. |
| Ladders.FiredMembers | components/DiagnosisTest-v2.tsx:480-501 | A text is pushed iff some rule with it fires; nothing is pushed iff no rule fires. |
| Ladders.PushIf | components/DiagnosisTest-v2.tsx:483-485 | `if (c) list.push(t)` appends t exactly when c holds. |
| Ladders.FiredPrefix | components/DiagnosisTest-v2.tsx:480-501 | Each conditional push extends the list built so far. |
| Ladders.FiredIff | components/DiagnosisTest-v2.tsx:480-501 | With distinct texts, a rule's text is in the list iff that rule fired. |
| DiagnosisV2.Chosen | components/DiagnosisTest-v2.tsx:43-55 | A chosen answer records the current question's id, category and level, and the choice. |
| DiagnosisV2.Skipped | components/DiagnosisTest-v2.tsx:67-78 | A skipped answer records the question with answer −1 and is never correct. |
| DiagnosisV2.TallyAnswers | components/DiagnosisTest-v2.tsx:107-123 | The `forEach` loop computes the specification tally of the answers. |
| DiagnosisV2.TallyCounts | components/DiagnosisTest-v2.tsx:113-123 | The tally counts exactly, per category: the correct answers, all answers, and the correct answers at basic and at advanced level. |
| DiagnosisV2.TallyBounds | components/DiagnosisTest-v2.tsx:113-123 | basicCorrect + advancedCorrect ≤ correct ≤ total in every category. |
| DiagnosisV2.WritingIgnored | components/DiagnosisTest-v2.tsx:114-115 | An answer of a category with no counter (writing) leaves the tally unchanged. |
| DiagnosisV2.ScoresInRange | components/DiagnosisTest-v2.tsx:136-144 | Every category percentage and the overall score lie in 0..100, and a category without answers scores 0. |
| DiagnosisV2.RoundingBeforeAveraging | components/DiagnosisTest-v2.tsx:136-144 | Averaging rounded percentages can differ from rounding the average of raw ratios: one pattern gives 45 against 44. |
| DiagnosisV2.AdvancedSkillsBound | components/DiagnosisTest-v2.tsx:200 | With at most 9 advanced answers correct, the advanced-skills figure is in 0..100. It is 100 iff all 9 are correct and 0 iff none is. |
| DiagnosisV2.LevelOfExact | components/DiagnosisTest-v2.tsx:147-158 | The business level, stated exactly. Executive: overall ≥ 85 and ≥ 7 of 9 advanced correct. Advanced: otherwise, overall ≥ 70 and ≥ 5. Intermediate: otherwise, overall ≥ 50. Entry: overall below 50. |
| DiagnosisV2.LevelOfMonotone | components/DiagnosisTest-v2.tsx:147-158 | A higher overall score and more advanced answers correct never lower the level. |
| DiagnosisV2.Axes | components/DiagnosisTest-v2.tsx:164-179 | The three skills carry pairwise-distinct labels. |
| DiagnosisV2.SplitScores | components/DiagnosisTest-v2.tsx:160-180 | The three `if`/`else` pushes compute the specification strengths and weaknesses. |
| DiagnosisV2.Readiness | components/DiagnosisTest-v2.tsx:410-454 | The readiness tier is the shared ladder over the overall score and the reading and situation scores, with three tips. |
| DiagnosisV2.ImproveGoals | components/DiagnosisTest-v2.tsx:464 | One goal per weakness, in order, reading "Improve " + the lower-cased weakness. |
| DiagnosisV2.RoadmapShape | components/DiagnosisTest-v2.tsx:456-478 | The roadmap has 3/3/2/1 phases by level, numbered 1, 2, ... The intermediate plan's first phase has one improvement goal per weakness. |
| DiagnosisV2.RoadmapWithoutWeaknesses | components/DiagnosisTest-v2.tsx:464 | With every skill at least 70, the intermediate plan's first phase lists no goals: the sentinel weakness is not fed to the roadmap. |
| DiagnosisV2.Rules | components/DiagnosisTest-v2.tsx:480-501 | The five recommendation rules. |
| DiagnosisV2.GenerateRecommendations | components/DiagnosisTest-v2.tsx:480-504 | The push sequence computes the specification recommendations. |
| DiagnosisV2.RecommendationsFacts | components/DiagnosisTest-v2.tsx:480-504 | The list is never empty and holds at most five tips. Each tip is present exactly when its condition holds (a skill below 60, the job-change goal, the interview usage). The fallback tip alone appears exactly when none holds. |
| DiagnosisV2.RulesDistinct | components/DiagnosisTest-v2.tsx:483-503 | The five tips are pairwise distinct and differ from the fallback. |
| DiagnosisV2.InterviewTool | components/DiagnosisTest-v2.tsx:533-544 | The interview tool entry carries the rank it is given and the tool's name. |
| DiagnosisV2.GenerateServices | components/DiagnosisTest-v2.tsx:506-547 | The push sequence computes the specification service list. |
| DiagnosisV2.ServicesFacts | components/DiagnosisTest-v2.tsx:506-547 | Ranks read 1, 2, ... and there are 1 to 3 services, the first always スタディサプリ. Bizmates is listed iff some weakness mentions situation or judgment. The interview tool is listed iff interview is a usage. |
| DiagnosisV2.BizmatesIffWeakJudgment | components/DiagnosisTest-v2.tsx:520 | On the scorer's own weaknesses, the situation/judgment test holds exactly when the situation score is below 70. |
| DiagnosisV2.OnlyLastMentions | components/DiagnosisTest-v2.tsx:520 | When only the third skill's weakness label mentions situation or judgment, the test holds iff that skill is weak. |
| DiagnosisV2.VocabularyLabelLower | components/DiagnosisTest-v2.tsx:167 | The vocabulary weakness label mentions neither situation nor judgment. |
| DiagnosisV2.DocumentLabelLower | components/DiagnosisTest-v2.tsx:173 | The document weakness label mentions neither situation nor judgment. |
| DiagnosisV2.SituationLabelLower | components/DiagnosisTest-v2.tsx:179 | The situation weakness label, lower-cased, contains "situation". |
| DiagnosisV2.ScoreAnswers | components/DiagnosisTest-v2.tsx:103-209 | The imperative submit computation returns the specification diagnosis. |
| DiagnosisV2.DiagnosisScores | components/DiagnosisTest-v2.tsx:136-204 | The reported scores lie in 0..100, and the readiness tier is the ladder over the reported scores. |
| DiagnosisV2.DiagnosisLabels | components/DiagnosisTest-v2.tsx:160-203 | Strengths and weaknesses are never empty. The vocabulary strength is reported iff that score is ≥ 70, and its weakness iff below. |
| DiagnosisV2.DiagnosisStrengthSentinel | components/DiagnosisTest-v2.tsx:202 | The strengths are the bare sentinel exactly when every skill is below 70. |
| DiagnosisV2.DiagnosisWeaknessSentinel | components/DiagnosisTest-v2.tsx:203 | The weaknesses are the bare sentinel exactly when every skill is at least 70. |
| DiagnosisV2.SentinelsOfThree | components/DiagnosisTest-v2.tsx:202-203 | For three skills whose labels differ in length from the sentinels, each sentinel is reported exactly when all three scores are on the other side of 70. |
| DiagnosisV2.DiagnosisAdvice | components/DiagnosisTest-v2.tsx:189-207 | A report always has recommendations and consecutively ranked services. It lists Bizmates exactly when the situation score is below 70. |
| DiagnosisV2.AdvancedAnswersBound | components/DiagnosisTest-v2.tsx:113-123 | Answers recorded in question order count at most as many correct advanced answers as there are advanced questions among those answered. |
| DiagnosisV2.CompletedAdvanced | components/DiagnosisTest-v2.tsx:148 | After a full run over a selection, at most 9 advanced answers are correct, so the ratio over 9 is at most 1. |
| DiagnosisV2.ReportedAdvanced | components/DiagnosisTest-v2.tsx:200 | With at most 9 advanced answers correct, the reported advanced skills are at most 100, and exactly 100 iff all 9 are correct. |
| DiagnosisV2.RecordedAdvanced | components/DiagnosisTest-v2.tsx:113-123 | Answers recorded one per question count at most as many correct advanced answers as there are advanced questions. |
| DiagnosisV2.Session.Progress | components/DiagnosisTest-v2.tsx:35-37 | The progress bar always lies in (0, 100]. |
| DiagnosisV2.Session.constructor | components/DiagnosisTest-v2.tsx:21-29 | The session starts on the first question of the drawn selection: no answers, no selection, questions phase, not submitting. |
| DiagnosisV2.Session.SelectAnswer | components/DiagnosisTest-v2.tsx:39-41 | Choosing an option records it as the selection and changes nothing else. |
| DiagnosisV2.Session.HandleNext | components/DiagnosisTest-v2.tsx:43-65 | The chosen answer to the current question is appended. Then the session moves to the next question with the selection cleared, or after the last question switches to the writing phase. Progress strictly increases. |
| DiagnosisV2.Session.HandleSkip | components/DiagnosisTest-v2.tsx:67-87 | A skipped answer to the current question is appended; the session then moves on as in Next, and progress strictly increases. |
| DiagnosisV2.Session.Advance | components/DiagnosisTest-v2.tsx:58-64 | The shared tail of Next and Skip: the next question with the selection cleared, or the writing phase after the last. |
| DiagnosisV2.Session.HandleWritingNext | components/DiagnosisTest-v2.tsx:89-95 | Before the last prompt it moves to the next one. On the last prompt it submits and returns the diagnosis of the recorded answers. |
| DiagnosisV2.Session.HandleSubmit | components/DiagnosisTest-v2.tsx:103-209 | Submitting marks the session as submitting and returns the diagnosis of exactly the recorded answers. |
| DiagnosisV2.SessionReportBounded | components/DiagnosisTest-v2.tsx:200 | Any report a session reaches in the writing phase has advanced skills ≤ 100. |
| DiagnosisV1.Chosen | components/DiagnosisTest.tsx:36-47 | A chosen answer records the current question's id and the choice. |
| DiagnosisV1.Skipped | components/DiagnosisTest.tsx:57-67 | A skipped answer records the question with answer −1 and is never correct. |
| DiagnosisV1.Find | components/DiagnosisTest.tsx:89 | `questions.find` fails iff no question has the id; otherwise it is the first question with that id. |
| DiagnosisV1.FindDistinct | components/DiagnosisTest.tsx:89 | With distinct ids, looking up a question's id finds that question. |
| DiagnosisV1.TallyAnswers | components/DiagnosisTest.tsx:81-96 | The `forEach` loop computes the specification tally. |
| DiagnosisV1.TallyCounts | components/DiagnosisTest.tsx:88-96 | Per scene the tally counts exactly the answers, and the correct answers, whose question is found in that scene. |
| DiagnosisV1.TallyBounds | components/DiagnosisTest.tsx:88-96 | correct ≤ total in every scene. |
| DiagnosisV1.UnknownIgnored | components/DiagnosisTest.tsx:89-90 | An answer whose question id is not among the questions leaves the tally unchanged. |
| DiagnosisV1.AllCounted | components/DiagnosisTest.tsx:88-96 | When every answer's question is found, the four totals sum to the number of answers. |
| DiagnosisV1.ScoresInRange | components/DiagnosisTest.tsx:98-107 | The four scene scores and the overall score lie in 0..100, and a scene without answers scores 0. |
| DiagnosisV1.LevelOf | components/DiagnosisTest.tsx:110-114 | Executive iff overall ≥ 85, advanced iff 70..84, intermediate iff 50..69, entry below 50. |
| DiagnosisV1.LevelOfMonotone | components/DiagnosisTest.tsx:110-114 | A higher overall score never gives a lower level. |
| DiagnosisV1.Axes | components/DiagnosisTest.tsx:120-130 | The four scenes carry pairwise-distinct labels and the scene scores, in order. |
| DiagnosisV1.LabelLengths | components/DiagnosisTest.tsx:120-145 | The scene labels differ in length from both sentinel texts, so a sentinel can never be mistaken for a label. |
| DiagnosisV1.SplitScores | components/DiagnosisTest.tsx:116-130 | The four `if`/`else` pushes compute the specification strengths and weaknesses. |
| DiagnosisV1.Readiness | components/DiagnosisTest.tsx:278-322 | The readiness tier is the shared ladder over the overall score and the meeting and presentation scores, with three tips. |
| DiagnosisV1.StrengthenGoals | components/DiagnosisTest.tsx:332 | One goal per weakness, in order: the weakness followed by "の強化". |
| DiagnosisV1.RoadmapShape | components/DiagnosisTest.tsx:324-346 | The roadmap has 3/3/2/1 phases by level, numbered 1, 2, ... The intermediate plan's first phase strengthens each weakness. |
| DiagnosisV1.Rules | components/DiagnosisTest.tsx:351-365 | The four recommendation rules. |
| DiagnosisV1.GenerateRecommendations | components/DiagnosisTest.tsx:348-368 | The push sequence computes the specification recommendations. |
| DiagnosisV1.RecommendationsFacts | components/DiagnosisTest.tsx:348-368 | At most four tips, each present iff its condition holds: job change; a meeting or presentation weakness; an email weakness; interview usage. The list is empty exactly when none holds; this older scorer had no fallback tip. |
| DiagnosisV1.RulesDistinct | components/DiagnosisTest.tsx:351-365 | The four tips are pairwise distinct. |
| DiagnosisV1.InterviewTool | components/DiagnosisTest.tsx:400-411 | The interview tool entry carries the rank it is given and the tool's name. |
| DiagnosisV1.GenerateServices | components/DiagnosisTest.tsx:370-414 | The push sequence computes the specification service list. |
| DiagnosisV1.ServicesFacts | components/DiagnosisTest.tsx:370-414 | Ranks read 1, 2, ... and there are 1 to 3 services, the first always スタディサプリ. Bizmates is listed iff meeting or presentation is a weakness. The interview tool is listed iff interview is a usage. |
| DiagnosisV1.WeakScenes | components/DiagnosisTest.tsx:355-359 | On the scorer's own split, "speaking is weak" holds iff the meeting or presentation score is below 70. The email weakness holds iff email is below 70. |
| DiagnosisV1.ScoreAnswers | components/DiagnosisTest.tsx:77-151 | The imperative submit computation returns the specification diagnosis. |
| DiagnosisV1.DiagnosisScores | components/DiagnosisTest.tsx:98-146 | Reported scores lie in 0..100; the level is the score ladder of the overall score, and readiness is the shared ladder. |
| DiagnosisV1.DiagnosisLabels | components/DiagnosisTest.tsx:116-145 | Strengths and weaknesses are never empty. The strength sentinel appears exactly when all four scenes are below 70, and the weakness sentinel exactly when all are at least 70. |
| DiagnosisV1.SentinelsOfFour | components/DiagnosisTest.tsx:144-145 | For four scenes whose labels differ in length from the sentinels, each sentinel is reported exactly when all four scores are on the other side of 70. |
| DiagnosisV1.DiagnosisAdvice | components/DiagnosisTest.tsx:147-149 | Recommendations are empty exactly when there is no job-change goal and no interview usage, and email, meeting and presentation are all ≥ 70. Services are ranked consecutively, and Bizmates appears iff meeting or presentation is below 70. |
| DiagnosisV1.Session.constructor | components/DiagnosisTest.tsx:19-25 | The session starts on the first of the drawn questions, with the drawn writing prompt, no answers, no selection, not submitting. |
| DiagnosisV1.Session.SelectAnswer | components/DiagnosisTest.tsx:32-34 | Choosing an option records it as the selection and changes nothing else. |
| DiagnosisV1.Session.HandleNext | components/DiagnosisTest.tsx:36-55 | On a question it appends the chosen answer and moves on with the selection cleared. On the final writing step it submits and returns the diagnosis of the recorded answers unchanged. |
| DiagnosisV1.Session.HandleSkip | components/DiagnosisTest.tsx:57-75 | On a question it appends a skipped answer and moves on. On the writing step it submits the recorded answers. |
| DiagnosisV1.Session.Advance | components/DiagnosisTest.tsx:49-54 | The shared tail of Next and Skip: the next step with the selection cleared, or submission after the last. |
| DiagnosisV1.Session.HandleSubmit | components/DiagnosisTest.tsx:77-151 | Submitting marks the session as submitting and returns the diagnosis of exactly the recorded answers. |
| DiagnosisV1.SessionCountsEveryAnswer | components/DiagnosisTest.tsx:88-96 | Every answer a session records is counted in exactly one scene total. |
| JobMatch.MatchLevelOf | app/api/job-match/route.ts:118-130 | High iff score ≥ 75, medium iff 55..74, low iff 40..54, not ready below 40. |
| JobMatch.MatchLevelMonotone | app/api/job-match/route.ts:118-130 | A higher score never gives a lower match level. |
| JobMatch.ToeicRangeOfLevel | app/api/job-match/route.ts:138 | The estimated TOEIC range agrees with the match level. The lowest range covers both the low and the not-ready levels. |
| JobMatch.Take3 | app/api/job-match/route.ts:135-136 | `slice(0, 3)` is the first min(3, length) entries. |
| JobMatch.FirstOr | app/api/job-match/route.ts:137 | `xs[0] \|\| fallback` is the first entry unless the list is empty or that entry is the empty string. |
| JobMatch.MockResponse | app/api/job-match/route.ts:112-141 | The canned response's match level is the score ladder, and its required TOEIC estimate is the fixed text. |
| JobMatch.MockFacts | app/api/job-match/route.ts:132-140 | Matching and gap points are the first three strengths and weaknesses. The advice opens with the first weakness (or its fallback) and names the first strength (or its fallback) in the middle. The range follows the level. The response depends only on the score and the two lists. |
| JobMatch.FirstIndex | app/api/job-match/route.ts:94 | The first occurrence of a character, or none iff it does not occur. |
| JobMatch.LastIndex | app/api/job-match/route.ts:94 | The last occurrence of a character, or none iff it does not occur. |
| JobMatch.ExtractIff | app/api/job-match/route.ts:94-97 | The greedy match of `\{[\s\S]*\}` exists iff some '{' precedes some '}'. It then runs from the first '{' to the last '}'. |
| JobMatch.ExtractWrapped | app/api/job-match/route.ts:94-99 | A JSON object wrapped in prose free of braces is extracted exactly. |
| JobMatch.Error | app/api/job-match/route.ts:102-107 | Every caught error becomes the same 500 failure with the fixed message. |
| JobMatch.PostMockIff | app/api/job-match/route.ts:59-65 | For a body carrying the request's fields, the canned response is returned exactly when the key is missing, empty or the placeholder, and is then the mock for the request. |
| JobMatch.PostOutcomes | app/api/job-match/route.ts:23-108 | Any failure is the 500 error. A body that is not JSON or lacks a field the prompt or the mock reads always fails, with or without a key. For a body carrying the request's fields and a real key the route fails iff the reply is not ok, has no text, has no brace-delimited JSON, or that JSON does not parse. Otherwise it returns the parsed extract. |
| ResultsPage.ScoreBand | components/ResultsPage.tsx:82-87 | The score alone picks one of the four TOEIC bands. |
| ResultsPage.ToeicEstimate | components/ResultsPage.tsx:82-87 | The estimate is the band text of the higher of the level's rank and the score's band. |
| ResultsPage.EstimateNamesBand | components/ResultsPage.tsx:82-87 | The four band texts are distinct: the estimate determines its band. |
| ResultsPage.ToeicEstimateMonotone | components/ResultsPage.tsx:82-87 | A higher level and score never give a lower TOEIC band. |
| ResultsPage.ToeicEstimateOfScoreLevel | components/ResultsPage.tsx:82-87 | For the older scorer, whose level is a function of the score, the estimate is exactly the level's band. |
| ResultsPage.ToeicEstimateAtLeastLevel | components/ResultsPage.tsx:82-87 | The estimate is never below the band of the reported level. |
| ResultsPage.MatchLevelStyleFacts | components/ResultsPage.tsx:64-72 | The four match levels get four different styles. Any key other than high, low or not_ready falls back to the medium style. |
| ResultsPage.LevelTextFacts | components/ResultsPage.tsx:90-109 | Level names and descriptions are distinct per level. An unknown key shows its own text as the name and an empty description, and the description is empty only for unknown keys. |
| ResultsPage.Translate | components/ResultsPage.tsx:546-565 | A text missing from the table is shown as is. |
| ResultsPage.TranslateKey | components/ResultsPage.tsx:546-565 | With distinct keys, a key with a non-empty translation is translated to it. |
| ResultsPage.TablesWellFormed | components/ResultsPage.tsx:546-565 | Both tables have distinct keys and non-empty translations. |
| ResultsPage.TableTranslations | components/ResultsPage.tsx:546-565 | Every table key is translated to its entry. |
| ResultsPage.CurrentLabelsTranslated | components/ResultsPage.tsx:546-565 | Every strength and weakness the active scorer reports, sentinels included, is a table key and is translated. |
| ResultsPage.OlderLabelsShownAsIs | components/ResultsPage.tsx:546-565 | The older scorer's Japanese labels and sentinels are not table keys and are shown unchanged. |
| ResultsPage.KeysStartNarrow | components/ResultsPage.tsx:548-562 | Every table key starts with an ASCII character. |
| ResultsPage.OlderLabelsStartWide | components/DiagnosisTest.tsx:120-145 | Every label and sentinel of the older scorer starts with a non-ASCII character. |
| ResultsPage.LabelsUntranslated | components/ResultsPage.tsx:553 | Labels and sentinels that are no key of a table come out of it unchanged. |
| ResultsPage.AfterReply | components/ResultsPage.tsx:53-56 | The stored analysis changes only on a successful reply, and then becomes its result. |
| ResultsPage.StoredWithoutKey | components/ResultsPage.tsx:32-56 | For a body carrying the request's fields (the page always sends the full profile), without a key the panel stores the route's canned response for the request. |
| ResultsPage.StoredAfterError | components/ResultsPage.tsx:53-61 | A failure reply, a malformed reply or a thrown fetch leaves the stored analysis as it was. |
| ResultsPage.JobMatchPanel.constructor | components/ResultsPage.tsx:23-26 | The panel starts closed, with an empty description, no analysis and not analysing. |
| ResultsPage.JobMatchPanel.Open | components/ResultsPage.tsx:269 | Opening shows the panel and changes nothing else. |
| ResultsPage.JobMatchPanel.Edit | components/ResultsPage.tsx:288 | Typing replaces the description and changes nothing else. |
| ResultsPage.JobMatchPanel.Close | components/ResultsPage.tsx:310-314 | Closing hides the panel and clears the description and the analysis. |
| ResultsPage.JobMatchPanel.Analyze | components/ResultsPage.tsx:32-62 | A blank description changes nothing. Otherwise the stored analysis follows the reply and analysing is over; the description and visibility are unchanged. |
| ProfileForm.Remove | components/ProfileForm.tsx:18 | The filter removes every copy of the usage. |
| ProfileForm.RemoveCounts | components/ProfileForm.tsx:18 | The filter keeps every other usage as often as it occurred. |
| ProfileForm.RemoveAppend | components/ProfileForm.tsx:18 | The filter works piecewise, so it keeps the order. |
| ProfileForm.RemoveAbsent | components/ProfileForm.tsx:18 | Filtering out an absent usage changes nothing. |
| ProfileForm.ToggleFacts | components/ProfileForm.tsx:16-22 | An absent usage is appended. A present usage is removed entirely, and the other usages keep their membership and counts. |
| ProfileForm.ToggleTwice | components/ProfileForm.tsx:16-22 | Clicking the same usage twice from absent restores the list; from present it moves the usage to the end. |
| ProfileForm.TogglePreservesDistinct | components/ProfileForm.tsx:16-22 | Toggling keeps the list free of repeats. |
| ProfileForm.ClicksKeepDistinct | components/ProfileForm.tsx:12-22 | Any run of usage clicks on a fresh form yields a list without repeats. |
| ProfileForm.Form.constructor | components/ProfileForm.tsx:11-14 | The form starts with nothing chosen and is not valid. |
| ProfileForm.Form.SetJobType | components/ProfileForm.tsx:61 | The job-type button sets the job type and nothing else. |
| ProfileForm.Form.SetGoal | components/ProfileForm.tsx:109 | The goal button sets the goal and nothing else. |
| ProfileForm.Form.SetCurrentLevel | components/ProfileForm.tsx:133 | The level button sets the current level and nothing else. |
| ProfileForm.Form.ToggleUsage | components/ProfileForm.tsx:86 | A usage button toggles that usage and changes nothing else. |
| ProfileForm.Form.Submit | components/ProfileForm.tsx:24-35 | A profile is handed on iff the form is valid (every choice made, at least one usage). It is made of the four answers unchanged. |
| Page.Home.constructor | app/page.tsx:11-13 | The page starts at the intro with no profile and no results. |
| Page.Home.Render | app/page.tsx:35-46 | The page is blank exactly when the test step has no profile or the results step has no results. |
| Page.Home.HandleStart | app/page.tsx:15-17 | Start moves to the profile step and keeps the held data; from the intro this keeps the flow consistent. |
| Page.Home.HandleProfileComplete | app/page.tsx:19-22 | Completing the profile stores it and moves to the test. |
| Page.Home.HandleTestComplete | app/page.tsx:24-27 | Completing the test stores the report and moves to the results. |
| Page.Home.HandleRestart | app/page.tsx:29-33 | Restart returns to the intro and clears profile and results. |
| Page.ConsistentRenders | app/page.tsx:39-44 | In every reachable state no guard blanks the page. The results screen always receives the profile (so `profile!` is safe), and the test screen receives the stored profile. |
| Page.Journey | app/page.tsx:15-27 | Start, profile and test completion lead to the results screen showing that report with that profile. |

## Left out

- Floating point is not modelled: ratios, means and thresholds are computed in exact arithmetic (integers and `real`). The IEEE doubles of JavaScript give the same results for the inputs that occur: category totals are at most 12, so every exact half has a power-of-two denominator and is represented exactly, and every other value lies at least 1/24 away from a rounding or threshold boundary, far beyond the rounding error of a double.
- Rendering, styling and layout (JSX, colours, `interviewReadinessColors`, the progress text, category labels and level badges) are not modelled. The results page's print button (`window.print`) is also left out.
- The free-text writing answers (`writingResponse`, `writingResponses`, `handleWritingChange`) are left out. No scorer reads them.
- The active scorer's `skillScores` object with its negotiation field over 9 is left out, because it is dead code: only `detailedScores` is reported.
- Question texts, options, explanations and prompt texts are not modelled. The model keeps ids, categories, levels, option counts and correct answers.
- The upstream API call (fetch, headers, model name, prompt construction) is left out. Its reply is the `Reply` parameter. `JSON.parse` is the `parse` parameter, and `request.json()` is given as an optional body. Building the prompt can throw, and it runs before the key is checked: a JSON body lacking `userProfile`, its `skillScores` or `interviewReadiness`, or with `strengths`/`weaknesses` that are not arrays, answers 500 even without a key. The model folds such a body into `None` together with unreadable JSON, and takes `overallScore` as an integer, as the results page sends it.
- An exception thrown by the results page's fetch is modelled as the absent reply (`None`). The `console.error` logging is not modelled.
- `Math.random()` is given as a sequence of draws; the model does not reason about its distribution.
- `Record<string, string>` lookups ignore keys inherited from `Object.prototype`, such as "constructor".
- Text.Lower: lowers only the ASCII capitals. JavaScript's `toLowerCase` is Unicode-wide, but it is applied only to the scorer's ASCII labels.
- ResultsPage.JobMatchPanel.Analyze: the intermediate `isAnalyzing = true` during the awaited fetch is not modelled; only the state after the handler finishes is.
- DiagnosisV2.Session.HandleNext: requires a selected answer, because the Next button is disabled without one (components/DiagnosisTest-v2.tsx:397).
- DiagnosisV1.Session.HandleNext: requires a selected answer on a question, because the Next button is disabled without one (components/DiagnosisTest.tsx:227).
- DiagnosisV2.Session.HandleSkip: requires the questions phase, because the Skip button exists only on the question screen.
