/** The older question bank (lib/questions.ts): forty items over four business
    scenes, the writing prompts, and the draw of an eighteen-question test in
    which every stratum (scene x level) contributes a capped number of shuffled
    items. Question and option texts are not carried; each item keeps its id,
    scene, level, number of options and the index of its correct option. */
module QuestionBankV1 {
  import opened Shuffle
  import opened Seqs

  datatype Category = Email | Meeting | Presentation | Negotiation
  datatype Difficulty = Basic | Intermediate | Advanced

  datatype Question = Question(
    id: string,
    category: Category,
    level: Difficulty,
    optionCount: nat,
    correctAnswer: nat)

  const EmailBasic: seq<Question> := [
    Question("e1", Email, Basic, 4, 1),
    Question("e2", Email, Basic, 4, 0),
    Question("e3", Email, Basic, 4, 1),
    Question("e4", Email, Basic, 4, 2)
  ]

  const EmailIntermediate: seq<Question> := [
    Question("e5", Email, Intermediate, 4, 1),
    Question("e6", Email, Intermediate, 4, 2),
    Question("e7", Email, Intermediate, 4, 2),
    Question("e8", Email, Intermediate, 4, 2)
  ]

  const EmailAdvanced: seq<Question> := [
    Question("e9", Email, Advanced, 4, 1),
    Question("e10", Email, Advanced, 4, 2),
    Question("e11", Email, Advanced, 4, 1),
    Question("e12", Email, Advanced, 4, 2)
  ]

  const MeetingBasic: seq<Question> := [
    Question("m1", Meeting, Basic, 4, 1),
    Question("m2", Meeting, Basic, 4, 2),
    Question("m3", Meeting, Basic, 4, 1),
    Question("m4", Meeting, Basic, 4, 2)
  ]

  const MeetingIntermediate: seq<Question> := [
    Question("m5", Meeting, Intermediate, 4, 1),
    Question("m6", Meeting, Intermediate, 4, 1),
    Question("m7", Meeting, Intermediate, 4, 1),
    Question("m8", Meeting, Intermediate, 4, 2)
  ]

  const MeetingAdvanced: seq<Question> := [
    Question("m9", Meeting, Advanced, 4, 1),
    Question("m10", Meeting, Advanced, 4, 1),
    Question("m11", Meeting, Advanced, 4, 1),
    Question("m12", Meeting, Advanced, 4, 2)
  ]

  const PresentationBasic: seq<Question> := [
    Question("p1", Presentation, Basic, 4, 1),
    Question("p2", Presentation, Basic, 4, 2),
    Question("p3", Presentation, Basic, 4, 1)
  ]

  const PresentationIntermediate: seq<Question> := [
    Question("p4", Presentation, Intermediate, 4, 2),
    Question("p5", Presentation, Intermediate, 4, 1),
    Question("p6", Presentation, Intermediate, 4, 2)
  ]

  const PresentationAdvanced: seq<Question> := [
    Question("p7", Presentation, Advanced, 4, 1),
    Question("p8", Presentation, Advanced, 4, 2)
  ]

  const NegotiationBasic: seq<Question> := [
    Question("n1", Negotiation, Basic, 4, 1),
    Question("n2", Negotiation, Basic, 4, 1),
    Question("n3", Negotiation, Basic, 4, 1)
  ]

  const NegotiationIntermediate: seq<Question> := [
    Question("n4", Negotiation, Intermediate, 4, 0),
    Question("n5", Negotiation, Intermediate, 4, 2),
    Question("n6", Negotiation, Intermediate, 4, 1)
  ]

  const NegotiationAdvanced: seq<Question> := [
    Question("n7", Negotiation, Advanced, 4, 2),
    Question("n8", Negotiation, Advanced, 4, 2)
  ]

  /** Each scene's items in declared order. */
  const EmailItems := EmailBasic + EmailIntermediate + EmailAdvanced
  const MeetingItems := MeetingBasic + MeetingIntermediate + MeetingAdvanced
  const PresentationItems := PresentationBasic + PresentationIntermediate + PresentationAdvanced
  const NegotiationItems := NegotiationBasic + NegotiationIntermediate + NegotiationAdvanced

  /** `questions`: the bank in its declared order. */
  const Questions: seq<Question> := EmailItems + MeetingItems + PresentationItems + NegotiationItems

  /** `qs.filter(q => q.category === c)`. */
  function ByCategory(qs: seq<Question>, c: Category): (r: seq<Question>)
    ensures |r| <= |qs|
  {
    if qs == [] then []
    else (if qs[0].category == c then [qs[0]] else []) + ByCategory(qs[1..], c)
  }

  /** `qs.filter(q => q.level === l)`. */
  function ByLevel(qs: seq<Question>, l: Difficulty): (r: seq<Question>)
    ensures |r| <= |qs|
  {
    if qs == [] then []
    else (if qs[0].level == l then [qs[0]] else []) + ByLevel(qs[1..], l)
  }

  predicate InCategory(s: seq<Question>, c: Category) {
    forall i :: 0 <= i < |s| ==> s[i].category == c
  }

  predicate AtLevel(s: seq<Question>, l: Difficulty) {
    forall i :: 0 <= i < |s| ==> s[i].level == l
  }

  lemma {:induction false} ByCategoryAppend(a: seq<Question>, b: seq<Question>, c: Category)
    ensures ByCategory(a + b, c) == ByCategory(a, c) + ByCategory(b, c)
  {
    if a == [] {
      assert a + b == b;
    } else {
      var h := if a[0].category == c then [a[0]] else [];
      assert (a + b)[0] == a[0];
      assert (a + b)[1..] == a[1..] + b;
      ByCategoryAppend(a[1..], b, c);
      calc {
        ByCategory(a + b, c);
        h + ByCategory(a[1..] + b, c);
        h + (ByCategory(a[1..], c) + ByCategory(b, c));
        (h + ByCategory(a[1..], c)) + ByCategory(b, c);
      }
    }
  }

  lemma {:induction false} ByLevelAppend(a: seq<Question>, b: seq<Question>, l: Difficulty)
    ensures ByLevel(a + b, l) == ByLevel(a, l) + ByLevel(b, l)
  {
    if a == [] {
      assert a + b == b;
    } else {
      var h := if a[0].level == l then [a[0]] else [];
      assert (a + b)[0] == a[0];
      assert (a + b)[1..] == a[1..] + b;
      ByLevelAppend(a[1..], b, l);
      calc {
        ByLevel(a + b, l);
        h + ByLevel(a[1..] + b, l);
        h + (ByLevel(a[1..], l) + ByLevel(b, l));
        (h + ByLevel(a[1..], l)) + ByLevel(b, l);
      }
    }
  }

  /** A block of one category filters to itself by that category and to nothing by any other. */
  lemma {:induction false} ByCategoryUniform(s: seq<Question>, c: Category, d: Category)
    requires InCategory(s, c)
    ensures ByCategory(s, c) == s
    ensures d != c ==> ByCategory(s, d) == []
  {
    if s != [] {
      ByCategoryUniform(s[1..], c, d);
    }
  }

  lemma {:induction false} ByLevelUniform(s: seq<Question>, l: Difficulty, m: Difficulty)
    requires AtLevel(s, l)
    ensures ByLevel(s, l) == s
    ensures m != l ==> ByLevel(s, m) == []
  {
    if s != [] {
      ByLevelUniform(s[1..], l, m);
    }
  }

  // ---------------------------------------------------------------------------
  // Strata

  /** One entry of `config`: a scene and how many items of each level it contributes. */
  datatype StratumConfig = StratumConfig(category: Category, basic: nat, intermediate: nat, advanced: nat)

  /** `config` of `selectRandomQuestions`. */
  const Config: seq<StratumConfig> := [
    StratumConfig(Email, 2, 2, 1),
    StratumConfig(Meeting, 2, 2, 1),
    StratumConfig(Presentation, 1, 2, 1),
    StratumConfig(Negotiation, 1, 2, 1)
  ]

  /** The twelve strata in the order they are drawn: config order, then basic,
      intermediate, advanced. */
  const StratumCategories: seq<Category> :=
    [Email, Email, Email, Meeting, Meeting, Meeting,
     Presentation, Presentation, Presentation, Negotiation, Negotiation, Negotiation]
  const StratumLevels: seq<Difficulty> :=
    [Basic, Intermediate, Advanced, Basic, Intermediate, Advanced,
     Basic, Intermediate, Advanced, Basic, Intermediate, Advanced]
  /** How many items of each stratum the bank holds. */
  const StratumSizes: seq<nat> := [4, 4, 4, 4, 4, 4, 3, 3, 2, 3, 3, 2]
  /** How many items of each stratum a test takes, read off `config`. */
  const Targets: seq<nat> := [2, 2, 1, 2, 2, 1, 1, 2, 1, 1, 2, 1]
  /** Where each stratum's items start in the test. */
  const Offsets: seq<nat> := [0, 2, 4, 5, 7, 9, 10, 11, 13, 14, 15, 17, 18]

  /** The stratum tables are `config` spelled out: entry `i` of `config` names the
      scene of strata `3i` to `3i + 2` and their targets. */
  lemma ConfigStrata(i: nat)
    requires i < |Config|
    ensures 3 * i + 2 < 12
    ensures StratumCategories[3 * i] == Config[i].category && StratumCategories[3 * i + 1] == Config[i].category
      && StratumCategories[3 * i + 2] == Config[i].category
    ensures StratumLevels[3 * i] == Basic && StratumLevels[3 * i + 1] == Intermediate && StratumLevels[3 * i + 2] == Advanced
    ensures Targets[3 * i] == Config[i].basic && Targets[3 * i + 1] == Config[i].intermediate
      && Targets[3 * i + 2] == Config[i].advanced
  {
  }

  /** `bank.filter(category).filter(level)` for the k-th stratum. */
  function Stratum(k: nat): seq<Question>
    requires k < 12
  {
    ByLevel(ByCategory(Questions, StratumCategories[k]), StratumLevels[k])
  }

  /** The twelve declared blocks, in stratum order. */
  const Blocks: seq<seq<Question>> :=
    [EmailBasic, EmailIntermediate, EmailAdvanced,
     MeetingBasic, MeetingIntermediate, MeetingAdvanced,
     PresentationBasic, PresentationIntermediate, PresentationAdvanced,
     NegotiationBasic, NegotiationIntermediate, NegotiationAdvanced]

  /** Every declared block holds items of one scene and one level. */
  lemma UniformBlocks(k: nat)
    requires k < 12
    ensures InCategory(Blocks[k], StratumCategories[k]) && AtLevel(Blocks[k], StratumLevels[k])
  {
  }

  lemma InCategoryAppend3(a: seq<Question>, b: seq<Question>, d: seq<Question>, c: Category)
    requires InCategory(a, c) && InCategory(b, c) && InCategory(d, c)
    ensures InCategory(a + b + d, c)
  {
    var s := a + b + d;
    forall i | 0 <= i < |s| ensures s[i].category == c {
      if i < |a| { assert s[i] == a[i]; }
      else if i < |a| + |b| { assert s[i] == b[i - |a|]; }
      else { assert s[i] == d[i - |a| - |b|]; }
    }
  }

  /** Each scene's items are of that scene. */
  lemma UniformScenes()
    ensures InCategory(EmailItems, Email) && InCategory(MeetingItems, Meeting)
    ensures InCategory(PresentationItems, Presentation) && InCategory(NegotiationItems, Negotiation)
  {
    forall k | 0 <= k < 12 ensures InCategory(Blocks[k], StratumCategories[k]) {
      UniformBlocks(k);
    }
    InCategoryAppend3(EmailBasic, EmailIntermediate, EmailAdvanced, Email);
    InCategoryAppend3(MeetingBasic, MeetingIntermediate, MeetingAdvanced, Meeting);
    InCategoryAppend3(PresentationBasic, PresentationIntermediate, PresentationAdvanced, Presentation);
    InCategoryAppend3(NegotiationBasic, NegotiationIntermediate, NegotiationAdvanced, Negotiation);
  }

  /** The scene filter of a bank made of four one-scene parts picks the part of that scene. */
  lemma CategoryOfParts(e: seq<Question>, m: seq<Question>, p: seq<Question>, n: seq<Question>, c: Category)
    requires InCategory(e, Email) && InCategory(m, Meeting)
    requires InCategory(p, Presentation) && InCategory(n, Negotiation)
    ensures ByCategory(e + m + p + n, c) ==
      match c case Email => e case Meeting => m case Presentation => p case Negotiation => n
  {
    ByCategoryAppend(e + m + p, n, c);
    ByCategoryAppend(e + m, p, c);
    ByCategoryAppend(e, m, c);
    ByCategoryUniform(e, Email, c);
    ByCategoryUniform(m, Meeting, c);
    ByCategoryUniform(p, Presentation, c);
    ByCategoryUniform(n, Negotiation, c);
  }

  /** Each scene filter of the bank is that scene's three blocks. */
  lemma CategoriesOfBank(c: Category)
    ensures ByCategory(Questions, c) ==
      match c case Email => EmailItems case Meeting => MeetingItems
        case Presentation => PresentationItems case Negotiation => NegotiationItems
  {
    UniformScenes();
    CategoryOfParts(EmailItems, MeetingItems, PresentationItems, NegotiationItems, c);
  }

  lemma LevelsOf(cs: seq<Question>, b: seq<Question>, i: seq<Question>, a: seq<Question>)
    requires cs == b + i + a
    requires AtLevel(b, Basic) && AtLevel(i, Intermediate) && AtLevel(a, Advanced)
    ensures ByLevel(cs, Basic) == b && ByLevel(cs, Intermediate) == i && ByLevel(cs, Advanced) == a
  {
    LevelsOfCategory(b, i, a, Basic);
    LevelsOfCategory(b, i, a, Intermediate);
    LevelsOfCategory(b, i, a, Advanced);
  }

  lemma LevelsOfCategory(b: seq<Question>, i: seq<Question>, a: seq<Question>, l: Difficulty)
    requires AtLevel(b, Basic) && AtLevel(i, Intermediate) && AtLevel(a, Advanced)
    ensures ByLevel(b + i + a, l) ==
      (if l == Basic then b else []) + (if l == Intermediate then i else []) + (if l == Advanced then a else [])
  {
    ByLevelAppend(b + i, a, l);
    ByLevelAppend(b, i, l);
    ByLevelUniform(b, Basic, l);
    ByLevelUniform(i, Intermediate, l);
    ByLevelUniform(a, Advanced, l);
  }

  /** Each stratum of the bank is the block declared for it: the bank holds 4/4/4
      email, 4/4/4 meeting, 3/3/2 presentation and 3/3/2 negotiation items. */
  lemma StrataOfBank(k: nat)
    requires k < 12
    ensures Stratum(k) == Blocks[k]
    ensures |Stratum(k)| == StratumSizes[k]
  {
    var g := k - k % 3;
    assert g == 0 || g == 3 || g == 6 || g == 9;
    SceneStrata(g);
  }

  lemma SceneStrata(g: nat)
    requires g == 0 || g == 3 || g == 6 || g == 9
    ensures Stratum(g) == Blocks[g] && Stratum(g + 1) == Blocks[g + 1] && Stratum(g + 2) == Blocks[g + 2]
  {
    CategoriesOfBank(StratumCategories[g]);
    UniformBlocks(g);
    UniformBlocks(g + 1);
    UniformBlocks(g + 2);
    assert ByCategory(Questions, StratumCategories[g]) == Blocks[g] + Blocks[g + 1] + Blocks[g + 2];
    LevelsOf(ByCategory(Questions, StratumCategories[g]), Blocks[g], Blocks[g + 1], Blocks[g + 2]);
  }

  /** Every item has four options and a correct index among them, and no two
      items share an id. */
  lemma BankWellFormed()
    ensures |Questions| == 40
    ensures forall i :: 0 <= i < |Questions| ==>
      Questions[i].optionCount == 4 && Questions[i].correctAnswer < Questions[i].optionCount
  {
  }

  // ---------------------------------------------------------------------------
  // The draw of a test

  /** `s.slice(0, n)`: the first `n` items, or all of them when there are fewer. */
  function Slice<T>(s: seq<T>, n: nat): (r: seq<T>)
    ensures |r| == (if n <= |s| then n else |s|)
    ensures r == s[..|r|]
  {
    if n <= |s| then s[..n] else s
  }

  /** The draws `selectRandomQuestions` makes: one sequence of `Math.random()`
      values per stratum, as long as the stratum. */
  predicate ValidDraws(draws: seq<seq<real>>) {
    |draws| == 12 && forall k :: 0 <= k < 12 ==> |draws[k]| == StratumSizes[k] && UnitDraws(draws[k])
  }

  /** The block of stratum `k`, shuffled under `rs`. */
  function ShuffledBlock(k: nat, rs: seq<real>): seq<Question>
    requires k < 12 && |rs| == StratumSizes[k] && UnitDraws(rs)
  {
    FisherYates(Blocks[k], rs, |Blocks[k]| - 1)
  }

  /** What stratum `k` contributes: its shuffled items cut to the target. */
  function Part(k: nat, rs: seq<real>): seq<Question>
    requires k < 12 && |rs| == StratumSizes[k] && UnitDraws(rs)
  {
    Slice(ShuffledBlock(k, rs), Targets[k])
  }

  /** The twelve contributions under `draws`, in drawing order. */
  function Parts(draws: seq<seq<real>>): (r: seq<seq<Question>>)
    requires ValidDraws(draws)
    ensures |r| == 12 && forall k :: 0 <= k < 12 ==> r[k] == Part(k, draws[k])
  {
    seq(12, k requires 0 <= k < 12 => Part(k, draws[k]))
  }

  /** The test drawn under `draws`: the contributions one after another. */
  function Selection(draws: seq<seq<real>>): seq<Question>
    requires ValidDraws(draws)
  {
    Flatten(Parts(draws))
  }

  /** The block sizes are the stratum sizes, every target fits its block, and
      the offsets accumulate the targets. */
  lemma BlockSizes()
    ensures forall k :: 0 <= k < 12 ==>
      |Blocks[k]| == StratumSizes[k] && Targets[k] <= StratumSizes[k] && Offsets[k + 1] == Offsets[k] + Targets[k]
    ensures |Offsets| == 13 && Offsets[0] == 0 && Offsets[12] == 18
  {
  }

  /** Stratum `k` contributes exactly `min(target, pool size)` items, all of them
      from its own pool; with this bank every pool reaches its target. */
  lemma PartFacts(k: nat, rs: seq<real>)
    requires k < 12 && |rs| == StratumSizes[k] && UnitDraws(rs)
    ensures |Part(k, rs)| == (if Targets[k] <= |Blocks[k]| then Targets[k] else |Blocks[k]|)
    ensures |Part(k, rs)| == Targets[k]
    ensures multiset(Part(k, rs)) <= multiset(Blocks[k])
  {
    BlockSizes();
    FisherYatesPermutes(Blocks[k], rs, |Blocks[k]| - 1);
    SliceOfPermutation(ShuffledBlock(k, rs), Blocks[k], Targets[k]);
  }

  /** A cut of a permutation of `b` takes its items from `b`. */
  lemma SliceOfPermutation<T>(s: seq<T>, b: seq<T>, n: nat)
    requires multiset(s) == multiset(b)
    ensures multiset(Slice(s, n)) <= multiset(b)
  {
    assert s == Slice(s, n) + s[|Slice(s, n)|..];
  }

  /** Stratum `k`'s contribution, from its scene's items `cs`. */
  method DrawStratum(cs: seq<Question>, k: nat, n: nat, rs: seq<real>) returns (r: seq<Question>)
    requires k < 12 && cs == ByCategory(Questions, StratumCategories[k]) && n == Targets[k]
    requires |rs| == StratumSizes[k] && UnitDraws(rs)
    ensures r == Part(k, rs)
  {
    StrataOfBank(k);
    var shuffled := ShuffleArray(ByLevel(cs, StratumLevels[k]), rs);
    r := Slice(shuffled, n);
  }

  /** `selectRandomQuestions`: for each entry of `config`, the scene's basic,
      intermediate and advanced items are shuffled apart, cut to the entry's
      counts and pushed in that order. */
  method SelectRandomQuestions(draws: seq<seq<real>>) returns (selected: seq<Question>)
    requires ValidDraws(draws)
    ensures selected == Selection(draws)
    ensures |selected| == 18
  {
    selected := [];
    var bank := Questions;
    var config := Config;
    for i := 0 to |config|
      invariant selected == Flatten(Parts(draws)[..3 * i])
    {
      var cfg := config[i];
      ConfigStrata(i);
      var catQuestions := ByCategory(bank, cfg.category);
      var basics := DrawStratum(catQuestions, 3 * i, cfg.basic, draws[3 * i]);
      var intermediates := DrawStratum(catQuestions, 3 * i + 1, cfg.intermediate, draws[3 * i + 1]);
      var advanced := DrawStratum(catQuestions, 3 * i + 2, cfg.advanced, draws[3 * i + 2]);
      selected := selected + (basics + intermediates + advanced);
      FlattenThree(Parts(draws), 3 * i);
    }
    assert Parts(draws)[..12] == Parts(draws);
    SelectionLength(draws);
  }

  /** Every contribution has its target size, so the offsets accumulate them. */
  lemma PartSizes(draws: seq<seq<real>>)
    requires ValidDraws(draws)
    ensures forall k :: 0 <= k < 12 ==> |Parts(draws)[k]| == Targets[k]
    ensures forall k :: 0 <= k < 12 ==> Offsets[k + 1] == Offsets[k] + |Parts(draws)[k]|
  {
    var parts := Parts(draws);
    forall k | 0 <= k < 12 ensures |parts[k]| == Targets[k] {
      PartFacts(k, draws[k]);
    }
    PartOffsets(parts);
  }

  lemma PartOffsets(parts: seq<seq<Question>>)
    requires |parts| == 12 && forall k :: 0 <= k < 12 ==> |parts[k]| == Targets[k]
    ensures forall k :: 0 <= k < 12 ==> Offsets[k + 1] == Offsets[k] + |parts[k]|
  {
    BlockSizes();
  }

  /** A test has 2 + 2 + 1, 2 + 2 + 1, 1 + 2 + 1 and 1 + 2 + 1 items: eighteen. */
  lemma SelectionLength(draws: seq<seq<real>>)
    requires ValidDraws(draws)
    ensures |Selection(draws)| == 18
  {
    PartSizes(draws);
    BlockSizes();
    FlattenLength(Parts(draws), Offsets);
  }

  /** Stratum `k`'s contribution fills positions `Offsets[k]` to `Offsets[k + 1]` of
      the test, and every question there is of that stratum's scene and level. */
  lemma SelectionStratum(draws: seq<seq<real>>, k: nat)
    requires ValidDraws(draws) && k < 12
    ensures Offsets[k] <= Offsets[k + 1] <= |Selection(draws)|
    ensures Selection(draws)[Offsets[k]..Offsets[k + 1]] == Part(k, draws[k])
    ensures forall i :: Offsets[k] <= i < Offsets[k + 1] ==>
      Selection(draws)[i].category == StratumCategories[k] && Selection(draws)[i].level == StratumLevels[k]
  {
    var parts := Parts(draws);
    PartSizes(draws);
    BlockSizes();
    PartFacts(k, draws[k]);
    UniformBlocks(k);
    DrawnBlock(parts, Offsets, k, Blocks[k], StratumCategories[k], StratumLevels[k]);
  }

  /** Block `k` of a flattening sits at its offset; when it is drawn from a
      uniform block, every item there has that block's scene and level. */
  lemma DrawnBlock(parts: seq<seq<Question>>, offs: seq<nat>, k: nat, b: seq<Question>, c: Category, l: Difficulty)
    requires |offs| == |parts| + 1 && offs[0] == 0
    requires forall j :: 0 <= j < |parts| ==> offs[j + 1] == offs[j] + |parts[j]|
    requires k < |parts| && multiset(parts[k]) <= multiset(b) && InCategory(b, c) && AtLevel(b, l)
    ensures offs[k] <= offs[k + 1] <= |Flatten(parts)|
    ensures Flatten(parts)[offs[k]..offs[k + 1]] == parts[k]
    ensures forall i :: offs[k] <= i < offs[k + 1] ==> Flatten(parts)[i].category == c && Flatten(parts)[i].level == l
  {
    BlockAt(parts, offs, k);
    var f := Flatten(parts);
    forall i | offs[k] <= i < offs[k + 1] ensures f[i].category == c && f[i].level == l {
      assert f[i] == parts[k][i - offs[k]];
      SubMember(parts[k], b, c, l, i - offs[k]);
    }
  }

  /** An item drawn from a uniform block has that block's scene and level. */
  lemma SubMember(p: seq<Question>, b: seq<Question>, c: Category, l: Difficulty, j: nat)
    requires multiset(p) <= multiset(b) && InCategory(b, c) && AtLevel(b, l) && j < |p|
    ensures p[j].category == c && p[j].level == l
  {
    assert p[j] in multiset(p);
    assert p[j] in multiset(b);
    var m :| 0 <= m < |b| && b[m] == p[j];
  }

  /** The position of a stratum in drawing order. */
  function StratumIndex(c: Category, l: Difficulty): nat {
    3 * (match c case Email => 0 case Meeting => 1 case Presentation => 2 case Negotiation => 3)
    + (match l case Basic => 0 case Intermediate => 1 case Advanced => 2)
  }

  /** The stratum whose contribution covers position `i` of a test. */
  function StratumAt(i: nat): (k: nat)
    requires i < 18
    ensures k < 12 && Offsets[k] <= i < Offsets[k + 1]
  {
    if i < 2 then 0 else if i < 4 then 1 else if i < 5 then 2
    else if i < 7 then 3 else if i < 9 then 4 else if i < 10 then 5
    else if i < 11 then 6 else if i < 13 then 7 else if i < 14 then 8
    else if i < 15 then 9 else if i < 17 then 10 else 11
  }

  /** A test is ordered by scene in `config` order (positions 0-4 email, 5-9
      meeting, 10-13 presentation, 14-17 negotiation) and, within a scene, by
      level basic, intermediate, advanced. */
  lemma SelectionOrdered(draws: seq<seq<real>>)
    requires ValidDraws(draws)
    ensures |Selection(draws)| == 18
    ensures forall i :: 0 <= i < 18 ==>
      StratumIndex(Selection(draws)[i].category, Selection(draws)[i].level) == StratumAt(i)
    ensures forall i, j :: 0 <= i < j < 18 ==>
      StratumIndex(Selection(draws)[i].category, Selection(draws)[i].level)
        <= StratumIndex(Selection(draws)[j].category, Selection(draws)[j].level)
  {
    SelectionLength(draws);
    forall i | 0 <= i < 18
      ensures StratumIndex(Selection(draws)[i].category, Selection(draws)[i].level) == StratumAt(i)
    {
      PositionStratum(draws, i);
    }
    assert forall i, j :: 0 <= i < j < 18 ==> StratumAt(i) <= StratumAt(j);
  }

  /** Position `i` of a test holds an item of the stratum covering `i`. */
  lemma PositionStratum(draws: seq<seq<real>>, i: nat)
    requires ValidDraws(draws) && i < 18
    ensures i < |Selection(draws)|
    ensures StratumIndex(Selection(draws)[i].category, Selection(draws)[i].level) == StratumAt(i)
  {
    var k := StratumAt(i);
    SelectionStratum(draws, k);
    StrataInOrder(k);
  }

  /** The strata are drawn in `StratumIndex` order. */
  lemma StrataInOrder(k: nat)
    requires k < 12
    ensures StratumIndex(StratumCategories[k], StratumLevels[k]) == k
  {
  }

  /** Every question of a test comes from the bank, and no item appears twice. */
  lemma SelectionFromBank(draws: seq<seq<real>>)
    requires ValidDraws(draws)
    ensures multiset(Selection(draws)) <= multiset(Questions)
    ensures Distinct(Selection(draws))
  {
    var parts := Parts(draws);
    forall k | 0 <= k < 12 ensures multiset(parts[k]) <= multiset(Blocks[k]) {
      PartFacts(k, draws[k]);
      StrataOfBank(k);
    }
    FlattenSub(parts, Blocks);
    BlocksFlatten();
    BankDistinct();
    DistinctSub(Selection(draws), Questions);
  }

  /** The bank is its twelve blocks one after another. */
  lemma BlocksFlatten()
    ensures Flatten(Blocks) == Questions
  {
    FlattenTwelve(Blocks);
  }

  /** No two items of `s` share an id. */
  predicate IdsDistinct(s: seq<Question>) {
    forall i, j :: 0 <= i < j < |s| ==> s[i].id != s[j].id
  }

  /** Every id in `s` starts with `c`. */
  predicate IdsStartWith(s: seq<Question>, c: char) {
    forall i :: 0 <= i < |s| ==> |s[i].id| > 0 && s[i].id[0] == c
  }

  lemma EmailIds() ensures IdsDistinct(EmailItems) && IdsStartWith(EmailItems, 'e') {}
  lemma MeetingIds() ensures IdsDistinct(MeetingItems) && IdsStartWith(MeetingItems, 'm') {}
  lemma PresentationIds() ensures IdsDistinct(PresentationItems) && IdsStartWith(PresentationItems, 'p') {}
  lemma NegotiationIds() ensures IdsDistinct(NegotiationItems) && IdsStartWith(NegotiationItems, 'n') {}

  /** Two parts without shared ids whose ids start with different letters join
      into a part without shared ids. */
  lemma IdsJoin(a: seq<Question>, b: seq<Question>, x: char, y: char)
    requires IdsDistinct(a) && IdsDistinct(b) && IdsStartWith(a, x) && IdsStartWith(b, y) && x != y
    ensures IdsDistinct(a + b)
  {
    var s := a + b;
    forall i, j | 0 <= i < j < |s| ensures s[i].id != s[j].id {
      if j < |a| {
        assert s[i] == a[i] && s[j] == a[j];
      } else if i >= |a| {
        assert s[i] == b[i - |a|] && s[j] == b[j - |a|];
      } else {
        assert s[i] == a[i] && s[j] == b[j - |a|];
        assert s[i].id[0] != s[j].id[0];
      }
    }
  }

  /** Items with distinct ids are distinct items. */
  lemma DistinctByIds(s: seq<Question>)
    requires IdsDistinct(s)
    ensures Distinct(s)
  {
  }

  /** No two items of the bank share an id, and so no item occurs twice. */
  lemma BankDistinct()
    ensures IdsDistinct(Questions)
    ensures Distinct(Questions)
  {
    BankIds(EmailItems, MeetingItems, PresentationItems, NegotiationItems, Questions);
    DistinctByIds(Questions);
  }

  lemma BankIds(e: seq<Question>, m: seq<Question>, p: seq<Question>, n: seq<Question>, bank: seq<Question>)
    requires e == EmailItems && m == MeetingItems && p == PresentationItems && n == NegotiationItems
    requires bank == e + m + p + n
    ensures IdsDistinct(bank)
  {
    EmailIds();
    MeetingIds();
    PresentationIds();
    NegotiationIds();
    Disjoint4(e, m, p, n);
  }

  /** Four parts without shared ids, started by four different letters. */
  lemma Disjoint4(e: seq<Question>, m: seq<Question>, p: seq<Question>, n: seq<Question>)
    requires IdsDistinct(e) && IdsStartWith(e, 'e') && IdsDistinct(m) && IdsStartWith(m, 'm')
    requires IdsDistinct(p) && IdsStartWith(p, 'p') && IdsDistinct(n) && IdsStartWith(n, 'n')
    ensures IdsDistinct(e + m + p + n)
  {
    IdsJoin(e, m, 'e', 'm');
    IdsJoin(p, n, 'p', 'n');
    EitherAppend(e, m, 'e', 'm');
    EitherAppend(p, n, 'p', 'n');
    JoinByLetters(e + m, p + n, 'e', 'm', 'p', 'n');
    assert e + m + p + n == (e + m) + (p + n);
  }

  /** Every id of `s` starts with `x` or `y`. */
  predicate IdsStartWithEither(s: seq<Question>, x: char, y: char) {
    forall i :: 0 <= i < |s| ==> |s[i].id| > 0 && (s[i].id[0] == x || s[i].id[0] == y)
  }

  lemma EitherAppend(a: seq<Question>, b: seq<Question>, x: char, y: char)
    requires IdsStartWith(a, x) && IdsStartWith(b, y)
    ensures IdsStartWithEither(a + b, x, y)
  {
    var s := a + b;
    forall i | 0 <= i < |s| ensures |s[i].id| > 0 && (s[i].id[0] == x || s[i].id[0] == y) {
      if i < |a| { assert s[i] == a[i]; } else { assert s[i] == b[i - |a|]; }
    }
  }

  /** Two parts without shared ids whose ids start with letters from disjoint
      pairs join into a part without shared ids. */
  lemma JoinByLetters(a: seq<Question>, b: seq<Question>, x: char, y: char, u: char, v: char)
    requires IdsDistinct(a) && IdsDistinct(b)
    requires IdsStartWithEither(a, x, y) && IdsStartWithEither(b, u, v)
    requires x != u && x != v && y != u && y != v
    ensures IdsDistinct(a + b)
  {
    var s := a + b;
    forall i, j | 0 <= i < j < |s| ensures s[i].id != s[j].id {
      if j < |a| {
        assert s[i] == a[i] && s[j] == a[j];
      } else if i >= |a| {
        assert s[i] == b[i - |a|] && s[j] == b[j - |a|];
      } else {
        assert s[i] == a[i] && s[j] == b[j - |a|];
        assert s[i].id[0] != s[j].id[0];
      }
    }
  }

  /** Two questions of a test never share an id. */
  lemma SelectionIds(draws: seq<seq<real>>)
    requires ValidDraws(draws)
    ensures IdsDistinct(Selection(draws))
  {
    SelectionFromBank(draws);
    BankDistinct();
    IdsOfSub(Selection(draws), Questions);
  }

  /** Items drawn without repetition from a list without shared ids share no id. */
  lemma IdsOfSub(s: seq<Question>, b: seq<Question>)
    requires Distinct(s) && multiset(s) <= multiset(b) && IdsDistinct(b)
    ensures IdsDistinct(s)
  {
    forall i, j | 0 <= i < j < |s| ensures s[i].id != s[j].id {
      var a := MemberOf(s, b, i);
      var c := MemberOf(s, b, j);
      assert s[i] != s[j];
      assert a != c;
    }
  }

  /** Where in `b` item `i` of `s` sits, for `s` drawn from `b`. */
  lemma MemberOf<T>(s: seq<T>, b: seq<T>, i: nat) returns (a: nat)
    requires multiset(s) <= multiset(b) && i < |s|
    ensures a < |b| && b[a] == s[i]
  {
    assert s[i] in multiset(s);
    assert s[i] in multiset(b);
    a :| 0 <= a < |b| && b[a] == s[i];
  }

  // ---------------------------------------------------------------------------
  // Writing prompts

  datatype WritingPrompt = WritingPrompt(id: string, category: Category)

  /** `writingPrompts`: two email prompts and one meeting prompt. */
  const WritingPrompts: seq<WritingPrompt> := [
    WritingPrompt("w1", Email),
    WritingPrompt("w2", Email),
    WritingPrompt("w3", Meeting)
  ]

  /** `selectRandomWritingPrompt`: the first prompt after a shuffle, so always one
      of the declared prompts. */
  method SelectRandomWritingPrompt(rs: seq<real>) returns (p: WritingPrompt)
    requires |rs| == |WritingPrompts| && UnitDraws(rs)
    ensures p == FisherYates(WritingPrompts, rs, |WritingPrompts| - 1)[0]
    ensures p in WritingPrompts
  {
    var shuffled := ShuffleArray(WritingPrompts, rs);
    p := shuffled[0];
    PermutationMembers(shuffled, WritingPrompts, p);
  }
}
