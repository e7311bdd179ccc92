/** The active question bank (lib/questions-v2.ts): the static items, the three
    writing prompts and the stratified draw of a test. Question and option texts
    are not carried; each item keeps its id, category, level, number of options
    and the index of its correct option. */
module QuestionBankV2 {
  import opened Wrappers
  import opened Shuffle
  import opened Seqs

  datatype Category = Vocabulary | Reading | Situation | Writing
  datatype Difficulty = Basic | Intermediate | Advanced

  datatype Question = Question(
    id: string,
    category: Category,
    level: Difficulty,
    optionCount: nat,
    correctAnswer: Option<nat>)

  const VocabularyBasic: seq<Question> := [
    Question("v1", Vocabulary, Basic, 4, Some(0)),
    Question("v2", Vocabulary, Basic, 4, Some(1)),
    Question("v3", Vocabulary, Basic, 4, Some(1)),
    Question("v4", Vocabulary, Basic, 4, Some(0))
  ]

  const VocabularyIntermediate: seq<Question> := [
    Question("v5", Vocabulary, Intermediate, 4, Some(1)),
    Question("v6", Vocabulary, Intermediate, 4, Some(1)),
    Question("v7", Vocabulary, Intermediate, 4, Some(1)),
    Question("v8", Vocabulary, Intermediate, 4, Some(1)),
    Question("v9", Vocabulary, Intermediate, 4, Some(1))
  ]

  const VocabularyAdvanced: seq<Question> := [
    Question("v10", Vocabulary, Advanced, 4, Some(1)),
    Question("v11", Vocabulary, Advanced, 4, Some(1)),
    Question("v12", Vocabulary, Advanced, 4, Some(1))
  ]

  const ReadingBasic: seq<Question> := [
    Question("r1", Reading, Basic, 4, Some(2)),
    Question("r2", Reading, Basic, 4, Some(3)),
    Question("r3", Reading, Basic, 4, Some(2))
  ]

  const ReadingIntermediate: seq<Question> := [
    Question("r4", Reading, Intermediate, 4, Some(2)),
    Question("r5", Reading, Intermediate, 4, Some(2)),
    Question("r6", Reading, Intermediate, 4, Some(2)),
    Question("r7", Reading, Intermediate, 4, Some(1))
  ]

  const ReadingAdvanced: seq<Question> := [
    Question("r8", Reading, Advanced, 4, Some(2)),
    Question("r9", Reading, Advanced, 4, Some(3)),
    Question("r10", Reading, Advanced, 4, Some(1))
  ]

  const SituationBasic: seq<Question> := [
    Question("s1", Situation, Basic, 4, Some(1)),
    Question("s2", Situation, Basic, 4, Some(2)),
    Question("s3", Situation, Basic, 4, Some(1))
  ]

  const SituationIntermediate: seq<Question> := [
    Question("s4", Situation, Intermediate, 4, Some(2)),
    Question("s5", Situation, Intermediate, 4, Some(1)),
    Question("s6", Situation, Intermediate, 4, Some(2)),
    Question("s7", Situation, Intermediate, 4, Some(2))
  ]

  const SituationAdvanced: seq<Question> := [
    Question("s8", Situation, Advanced, 4, Some(1)),
    Question("s9", Situation, Advanced, 4, Some(2)),
    Question("s10", Situation, Advanced, 4, Some(2))
  ]

  /** `questions`: the bank in its declared order. */
  const Questions: seq<Question> :=
    VocabularyBasic + VocabularyIntermediate + VocabularyAdvanced
    + ReadingBasic + ReadingIntermediate + ReadingAdvanced
    + SituationBasic + SituationIntermediate + SituationAdvanced

  /** `qs.filter(q => q.category === c)`. */
  function ByCategory(qs: seq<Question>, c: Category): (r: seq<Question>)
    ensures |r| <= |qs|
  {
    if qs == [] then []
    else (if qs[0].category == c then [qs[0]] else []) + ByCategory(qs[1..], c)
  }

  /** `qs.filter(q => q.level === l)`. */
  function ByLevel(qs: seq<Question>, l: Difficulty): (r: seq<Question>)
    ensures |r| <= |qs|
  {
    if qs == [] then []
    else (if qs[0].level == l then [qs[0]] else []) + ByLevel(qs[1..], l)
  }

  /** Every item of `s` has category `c`. */
  predicate InCategory(s: seq<Question>, c: Category) {
    forall i :: 0 <= i < |s| ==> s[i].category == c
  }

  /** Every item of `s` has level `l`. */
  predicate AtLevel(s: seq<Question>, l: Difficulty) {
    forall i :: 0 <= i < |s| ==> s[i].level == l
  }

  lemma {:induction false} ByCategoryAppend(a: seq<Question>, b: seq<Question>, c: Category)
    ensures ByCategory(a + b, c) == ByCategory(a, c) + ByCategory(b, c)
  {
    if a == [] {
      assert a + b == b;
    } else {
      var h := if a[0].category == c then [a[0]] else [];
      assert (a + b)[0] == a[0];
      assert (a + b)[1..] == a[1..] + b;
      ByCategoryAppend(a[1..], b, c);
      calc {
        ByCategory(a + b, c);
        h + ByCategory(a[1..] + b, c);
        h + (ByCategory(a[1..], c) + ByCategory(b, c));
        (h + ByCategory(a[1..], c)) + ByCategory(b, c);
      }
    }
  }

  lemma {:induction false} ByLevelAppend(a: seq<Question>, b: seq<Question>, l: Difficulty)
    ensures ByLevel(a + b, l) == ByLevel(a, l) + ByLevel(b, l)
  {
    if a == [] {
      assert a + b == b;
    } else {
      var h := if a[0].level == l then [a[0]] else [];
      assert (a + b)[0] == a[0];
      assert (a + b)[1..] == a[1..] + b;
      ByLevelAppend(a[1..], b, l);
      calc {
        ByLevel(a + b, l);
        h + ByLevel(a[1..] + b, l);
        h + (ByLevel(a[1..], l) + ByLevel(b, l));
        (h + ByLevel(a[1..], l)) + ByLevel(b, l);
      }
    }
  }

  /** A block of one category filters to itself by that category and to nothing by any other. */
  lemma {:induction false} ByCategoryUniform(s: seq<Question>, c: Category, d: Category)
    requires InCategory(s, c)
    ensures ByCategory(s, c) == s
    ensures d != c ==> ByCategory(s, d) == []
  {
    if s != [] {
      ByCategoryUniform(s[1..], c, d);
    }
  }

  lemma {:induction false} ByLevelUniform(s: seq<Question>, l: Difficulty, m: Difficulty)
    requires AtLevel(s, l)
    ensures ByLevel(s, l) == s
    ensures m != l ==> ByLevel(s, m) == []
  {
    if s != [] {
      ByLevelUniform(s[1..], l, m);
    }
  }

  /** The strata in the order `selectQuestions` draws them. */
  const StratumCategories: seq<Category> :=
    [Vocabulary, Vocabulary, Vocabulary, Reading, Reading, Reading, Situation, Situation, Situation]
  const StratumLevels: seq<Difficulty> :=
    [Basic, Intermediate, Advanced, Basic, Intermediate, Advanced, Basic, Intermediate, Advanced]
  const StratumSizes: seq<nat> := [4, 5, 3, 3, 4, 3, 3, 4, 3]
  /** Where each stratum's block starts in the selected test. */
  const Offsets: seq<nat> := [0, 4, 9, 12, 15, 19, 22, 25, 29, 32]

  /** `bank.filter(category).filter(level)` for the k-th stratum. */
  function Stratum(k: nat): seq<Question>
    requires k < 9
  {
    ByLevel(ByCategory(Questions, StratumCategories[k]), StratumLevels[k])
  }

  /** The nine declared blocks, in stratum order. */
  const Blocks: seq<seq<Question>> :=
    [VocabularyBasic, VocabularyIntermediate, VocabularyAdvanced,
     ReadingBasic, ReadingIntermediate, ReadingAdvanced,
     SituationBasic, SituationIntermediate, SituationAdvanced]

  /** Each category filter of the bank is that category's three blocks. */
  lemma CategoriesOfBank()
    ensures ByCategory(Questions, Vocabulary) == VocabularyBasic + VocabularyIntermediate + VocabularyAdvanced
    ensures ByCategory(Questions, Reading) == ReadingBasic + ReadingIntermediate + ReadingAdvanced
    ensures ByCategory(Questions, Situation) == SituationBasic + SituationIntermediate + SituationAdvanced
    ensures ByCategory(Questions, Writing) == []
  {
    BankIsBlocks();
    UniformCategories();
    CategoriesOf(Questions,
      VocabularyBasic + VocabularyIntermediate + VocabularyAdvanced,
      ReadingBasic + ReadingIntermediate + ReadingAdvanced,
      SituationBasic + SituationIntermediate + SituationAdvanced);
  }

  lemma BankIsBlocks()
    ensures Questions == (VocabularyBasic + VocabularyIntermediate + VocabularyAdvanced)
      + (ReadingBasic + ReadingIntermediate + ReadingAdvanced)
      + (SituationBasic + SituationIntermediate + SituationAdvanced)
  {
  }

  /** Every declared block holds items of one category and one level. */
  lemma UniformBlocks(k: nat)
    requires k < 9
    ensures InCategory(Blocks[k], StratumCategories[k]) && AtLevel(Blocks[k], StratumLevels[k])
  {
  }

  lemma UniformCategories()
    ensures InCategory(VocabularyBasic + VocabularyIntermediate + VocabularyAdvanced, Vocabulary)
    ensures InCategory(ReadingBasic + ReadingIntermediate + ReadingAdvanced, Reading)
    ensures InCategory(SituationBasic + SituationIntermediate + SituationAdvanced, Situation)
  {
    forall k | 0 <= k < 9 ensures InCategory(Blocks[k], StratumCategories[k]) {
      UniformBlocks(k);
    }
    InCategoryAppend3(VocabularyBasic, VocabularyIntermediate, VocabularyAdvanced, Vocabulary);
    InCategoryAppend3(ReadingBasic, ReadingIntermediate, ReadingAdvanced, Reading);
    InCategoryAppend3(SituationBasic, SituationIntermediate, SituationAdvanced, Situation);
  }

  lemma InCategoryAppend3(a: seq<Question>, b: seq<Question>, d: seq<Question>, c: Category)
    requires InCategory(a, c) && InCategory(b, c) && InCategory(d, c)
    ensures InCategory(a + b + d, c)
  {
    var s := a + b + d;
    forall i | 0 <= i < |s| ensures s[i].category == c {
      if i < |a| { assert s[i] == a[i]; }
      else if i < |a| + |b| { assert s[i] == b[i - |a|]; }
      else { assert s[i] == d[i - |a| - |b|]; }
    }
  }

  lemma CategoriesOf(qs: seq<Question>, v: seq<Question>, r: seq<Question>, s: seq<Question>)
    requires qs == v + r + s
    requires InCategory(v, Vocabulary)
    requires InCategory(r, Reading)
    requires InCategory(s, Situation)
    ensures ByCategory(qs, Vocabulary) == v
    ensures ByCategory(qs, Reading) == r
    ensures ByCategory(qs, Situation) == s
    ensures ByCategory(qs, Writing) == []
  {
    CategoryOfBank(v, r, s, Vocabulary);
    CategoryOfBank(v, r, s, Reading);
    CategoryOfBank(v, r, s, Situation);
    CategoryOfBank(v, r, s, Writing);
  }

  lemma CategoryOfBank(v: seq<Question>, r: seq<Question>, s: seq<Question>, c: Category)
    requires InCategory(v, Vocabulary)
    requires InCategory(r, Reading)
    requires InCategory(s, Situation)
    ensures ByCategory(v + r + s, c) ==
      (if c == Vocabulary then v else []) + (if c == Reading then r else []) + (if c == Situation then s else [])
  {
    ByCategoryAppend(v + r, s, c);
    ByCategoryAppend(v, r, c);
    ByCategoryUniform(v, Vocabulary, c);
    ByCategoryUniform(r, Reading, c);
    ByCategoryUniform(s, Situation, c);
  }

  /** Each stratum of the bank is the block declared for it. */
  lemma StrataOfBank(k: nat)
    requires k < 9
    ensures Stratum(k) == Blocks[k]
    ensures |Stratum(k)| == StratumSizes[k]
  {
    if k < 3 { CategoryStrata(0); } else if k < 6 { CategoryStrata(3); } else { CategoryStrata(6); }
  }

  lemma CategoryStrata(g: nat)
    requires g == 0 || g == 3 || g == 6
    ensures Stratum(g) == Blocks[g] && Stratum(g + 1) == Blocks[g + 1] && Stratum(g + 2) == Blocks[g + 2]
  {
    CategoriesOfBank();
    UniformBlocks(g);
    UniformBlocks(g + 1);
    UniformBlocks(g + 2);
    LevelsOf(ByCategory(Questions, StratumCategories[g]), Blocks[g], Blocks[g + 1], Blocks[g + 2]);
  }

  lemma LevelsOf(cs: seq<Question>, b: seq<Question>, i: seq<Question>, a: seq<Question>)
    requires cs == b + i + a
    requires AtLevel(b, Basic) && AtLevel(i, Intermediate) && AtLevel(a, Advanced)
    ensures ByLevel(cs, Basic) == b && ByLevel(cs, Intermediate) == i && ByLevel(cs, Advanced) == a
  {
    LevelsOfCategory(b, i, a, Basic);
    LevelsOfCategory(b, i, a, Intermediate);
    LevelsOfCategory(b, i, a, Advanced);
  }

  lemma LevelsOfCategory(b: seq<Question>, i: seq<Question>, a: seq<Question>, l: Difficulty)
    requires AtLevel(b, Basic)
    requires AtLevel(i, Intermediate)
    requires AtLevel(a, Advanced)
    ensures ByLevel(b + i + a, l) ==
      (if l == Basic then b else []) + (if l == Intermediate then i else []) + (if l == Advanced then a else [])
  {
    ByLevelAppend(b + i, a, l);
    ByLevelAppend(b, i, l);
    ByLevelUniform(b, Basic, l);
    ByLevelUniform(i, Intermediate, l);
    ByLevelUniform(a, Advanced, l);
  }

  /** The bank is its nine blocks one after another. */
  lemma BlocksFlatten()
    ensures Flatten(Blocks) == Questions
  {
    FlattenNineInOrder(Blocks);
  }

  /** The declared block lengths add up to the offsets. */
  lemma BlockSizes()
    ensures forall k :: 0 <= k < 9 ==> |Blocks[k]| == StratumSizes[k] && Offsets[k + 1] == Offsets[k] + StratumSizes[k]
    ensures Offsets[0] == 0 && Offsets[9] == 32 && |Offsets| == 10
  {
  }

  /** The draws `selectQuestions` makes: one sequence of `Math.random()` values per
      stratum, as long as the stratum. */
  predicate ValidDraws(draws: seq<seq<real>>) {
    |draws| == 9 && forall k :: 0 <= k < 9 ==> |draws[k]| == StratumSizes[k] && UnitDraws(draws[k])
  }

  /** The shuffled block of stratum `k` under the draws `rs`. */
  function ShuffledBlock(k: nat, rs: seq<real>): seq<Question>
    requires k < 9 && |rs| == StratumSizes[k] && UnitDraws(rs)
  {
    BlockSizes();
    FisherYates(Blocks[k], rs, |Blocks[k]| - 1)
  }

  /** A shuffled block is a permutation of the declared block. */
  lemma ShuffledBlockPermutes(k: nat, rs: seq<real>)
    requires k < 9 && |rs| == StratumSizes[k] && UnitDraws(rs)
    ensures |ShuffledBlock(k, rs)| == StratumSizes[k]
    ensures multiset(ShuffledBlock(k, rs)) == multiset(Blocks[k])
  {
    BlockSizes();
    FisherYatesPermutes(Blocks[k], rs, |Blocks[k]| - 1);
  }

  /** The nine shuffled strata under `draws`, in bank order. */
  function ShuffledStrata(draws: seq<seq<real>>): (r: seq<seq<Question>>)
    requires ValidDraws(draws)
    ensures |r| == 9 && forall k :: 0 <= k < 9 ==> r[k] == ShuffledBlock(k, draws[k])
  {
    seq(9, k requires 0 <= k < 9 => ShuffledBlock(k, draws[k]))
  }

  /** The test drawn under `draws`: the shuffled strata one after another. */
  function Selection(draws: seq<seq<real>>): (r: seq<Question>)
    requires ValidDraws(draws)
    ensures |r| == 32
  {
    BlockSizes();
    ShuffledBlocksPermute(ShuffledStrata(draws), draws);
    FlattenLength(ShuffledStrata(draws), Offsets);
    Flatten(ShuffledStrata(draws))
  }

  /** Shuffle stratum `k` of the bank, filtered from its category's items `cs`. */
  method ShuffleStratum(cs: seq<Question>, k: nat, rs: seq<real>) returns (r: seq<Question>)
    requires k < 9 && cs == ByCategory(Questions, StratumCategories[k])
    requires |rs| == StratumSizes[k] && UnitDraws(rs)
    ensures r == ShuffledBlock(k, rs)
  {
    StrataOfBank(k);
    r := ShuffleArray(ByLevel(cs, StratumLevels[k]), rs);
  }

  /** `selectQuestions`: the 32 questions of a test. Each stratum (category x level)
      is shuffled on its own and the strata are appended in bank order. */
  method SelectQuestions(draws: seq<seq<real>>) returns (selected: seq<Question>)
    requires ValidDraws(draws)
    ensures selected == Selection(draws)
    ensures |selected| == 32
  {
    selected := [];
    var bank := Questions;
    var vocabulary := SelectCategory(bank, Vocabulary, 0, draws);
    selected := selected + vocabulary;
    var reading := SelectCategory(bank, Reading, 3, draws);
    selected := selected + reading;
    var situation := SelectCategory(bank, Situation, 6, draws);
    selected := selected + situation;
    SelectionIsConcatenation(draws);
  }

  /** The three pushes of one category: its basic, intermediate and advanced
      items, each group shuffled on its own. */
  method SelectCategory(bank: seq<Question>, c: Category, k: nat, draws: seq<seq<real>>)
    returns (part: seq<Question>)
    requires bank == Questions && ValidDraws(draws)
    requires (k == 0 || k == 3 || k == 6) && c == StratumCategories[k]
    ensures part == CategoryPart(k, draws)
  {
    var cs := ByCategory(bank, c);
    var basic := ShuffleStratum(cs, k, draws[k]);
    var intermediate := ShuffleStratum(cs, k + 1, draws[k + 1]);
    var advanced := ShuffleStratum(cs, k + 2, draws[k + 2]);
    part := basic + intermediate + advanced;
  }

  /** The three shuffled strata of the category whose first stratum is `k`. */
  function CategoryPart(k: nat, draws: seq<seq<real>>): seq<Question>
    requires (k == 0 || k == 3 || k == 6) && ValidDraws(draws)
  {
    ShuffledBlock(k, draws[k]) + ShuffledBlock(k + 1, draws[k + 1]) + ShuffledBlock(k + 2, draws[k + 2])
  }

  /** `Selection` written out as the pushes of `selectQuestions`. */
  lemma SelectionIsConcatenation(draws: seq<seq<real>>)
    requires ValidDraws(draws)
    ensures Selection(draws) == [] + CategoryPart(0, draws) + CategoryPart(3, draws) + CategoryPart(6, draws)
  {
    FlattenNine(ShuffledStrata(draws));
  }

  /** Stratum `k` of the bank, shuffled, fills positions `Offsets[k]` to
      `Offsets[k + 1]` of the test, and every question there is of that
      stratum's category and level. */
  lemma SelectionStratum(draws: seq<seq<real>>, k: nat)
    requires ValidDraws(draws) && k < 9
    ensures Offsets[k] <= Offsets[k + 1] <= |Selection(draws)|
    ensures Selection(draws)[Offsets[k]..Offsets[k + 1]] == ShuffledBlock(k, draws[k])
    ensures multiset(Selection(draws)[Offsets[k]..Offsets[k + 1]]) == multiset(Stratum(k))
    ensures forall i :: Offsets[k] <= i < Offsets[k + 1] ==>
      Selection(draws)[i].category == StratumCategories[k] && Selection(draws)[i].level == StratumLevels[k]
  {
    BlockSizes();
    StrataOfBank(k);
    UniformBlocks(k);
    ShuffledBlocksPermute(ShuffledStrata(draws), draws);
    PermutedBlock(ShuffledStrata(draws), Offsets, k, Blocks[k], StratumCategories[k], StratumLevels[k]);
  }

  /** A test is a permutation of the whole bank: every item once, nothing else. */
  lemma SelectionPermutesBank(draws: seq<seq<real>>)
    requires ValidDraws(draws)
    ensures multiset(Selection(draws)) == multiset(Questions)
  {
    var parts := ShuffledStrata(draws);
    ShuffledBlocksPermute(parts, draws);
    FlattenPermutes(parts, Blocks);
    BankMultiset(Flatten(parts));
  }

  /** Position `i` of a test holds a vocabulary question for `i < 12`, a reading
      question for `12 <= i < 22` and a situation question after that; never a
      writing item. */
  lemma SelectionCategory(draws: seq<seq<real>>, i: nat)
    requires ValidDraws(draws) && i < 32
    ensures Selection(draws)[i].category ==
      (if i < 12 then Vocabulary else if i < 22 then Reading else Situation)
  {
    var k := if i < 4 then 0 else if i < 9 then 1 else if i < 12 then 2
      else if i < 15 then 3 else if i < 19 then 4 else if i < 22 then 5
      else if i < 25 then 6 else if i < 29 then 7 else 8;
    SelectionStratum(draws, k);
  }

  lemma ShuffledBlocksPermute(parts: seq<seq<Question>>, draws: seq<seq<real>>)
    requires ValidDraws(draws)
    requires |parts| == 9 && forall k :: 0 <= k < 9 ==> parts[k] == ShuffledBlock(k, draws[k])
    ensures forall k :: 0 <= k < 9 ==> |parts[k]| == StratumSizes[k] && multiset(parts[k]) == multiset(Blocks[k])
  {
    forall k | 0 <= k < 9 ensures |parts[k]| == StratumSizes[k] && multiset(parts[k]) == multiset(Blocks[k]) {
      ShuffledBlockPermutes(k, draws[k]);
    }
  }

  lemma BankMultiset(x: seq<Question>)
    requires multiset(x) == multiset(Flatten(Blocks))
    ensures multiset(x) == multiset(Questions)
  {
    BlocksFlatten();
  }

  /** Block `k` of a flattening sits at its offset; when it permutes a uniform
      block, every item there has that block's category and level. */
  lemma PermutedBlock(parts: seq<seq<Question>>, offs: seq<nat>, k: nat, b: seq<Question>, c: Category, l: Difficulty)
    requires |offs| == |parts| + 1 && offs[0] == 0
    requires forall j :: 0 <= j < |parts| ==> offs[j + 1] == offs[j] + |parts[j]|
    requires k < |parts| && multiset(parts[k]) == multiset(b) && InCategory(b, c) && AtLevel(b, l)
    ensures offs[k + 1] <= |Flatten(parts)|
    ensures Flatten(parts)[offs[k]..offs[k + 1]] == parts[k]
    ensures forall i :: offs[k] <= i < offs[k + 1] ==> Flatten(parts)[i].category == c && Flatten(parts)[i].level == l
  {
    BlockAt(parts, offs, k);
    var f := Flatten(parts);
    forall i | offs[k] <= i < offs[k + 1] ensures f[i].category == c && f[i].level == l {
      assert f[i] == parts[k][i - offs[k]];
      UniformMember(parts[k], b, c, l, i - offs[k]);
    }
  }

  /** An item of a permutation of a uniform block has that block's category and level. */
  lemma UniformMember(p: seq<Question>, b: seq<Question>, c: Category, l: Difficulty, j: nat)
    requires multiset(p) == multiset(b) && InCategory(b, c) && AtLevel(b, l) && j < |p|
    ensures p[j].category == c && p[j].level == l
  {
    assert p[j] in multiset(b);
    var m :| 0 <= m < |b| && b[m] == p[j];
  }

  /** Every item has four options and a correct index among them. */
  lemma BankWellFormed()
    ensures |Questions| == 32
    ensures forall i :: 0 <= i < |Questions| ==>
      Questions[i].optionCount == 4 && Questions[i].correctAnswer.Some? && Questions[i].correctAnswer.value < 4
  {
  }

  /** No two items of `s` share an id. */
  predicate IdsDistinct(s: seq<Question>) {
    forall i, j :: 0 <= i < j < |s| ==> s[i].id != s[j].id
  }

  /** Every id in `s` starts with `c`. */
  predicate IdsStartWith(s: seq<Question>, c: char) {
    forall i :: 0 <= i < |s| ==> |s[i].id| > 0 && s[i].id[0] == c
  }

  lemma VocabularyIds()
    ensures IdsDistinct(VocabularyBasic + VocabularyIntermediate + VocabularyAdvanced)
    ensures IdsStartWith(VocabularyBasic + VocabularyIntermediate + VocabularyAdvanced, 'v')
  {
  }

  lemma ReadingIds()
    ensures IdsDistinct(ReadingBasic + ReadingIntermediate + ReadingAdvanced)
    ensures IdsStartWith(ReadingBasic + ReadingIntermediate + ReadingAdvanced, 'r')
  {
  }

  lemma SituationIds()
    ensures IdsDistinct(SituationBasic + SituationIntermediate + SituationAdvanced)
    ensures IdsStartWith(SituationBasic + SituationIntermediate + SituationAdvanced, 's')
  {
  }

  /** No two items of the bank share an id. */
  lemma BankIds()
    ensures IdsDistinct(Questions)
  {
    BankIsBlocks();
    VocabularyIds();
    ReadingIds();
    SituationIds();
    Disjoint3(VocabularyBasic + VocabularyIntermediate + VocabularyAdvanced,
      ReadingBasic + ReadingIntermediate + ReadingAdvanced,
      SituationBasic + SituationIntermediate + SituationAdvanced);
  }

  /** Three parts without shared ids, started by three different letters. */
  lemma Disjoint3(v: seq<Question>, r: seq<Question>, s: seq<Question>)
    requires IdsDistinct(v) && IdsStartWith(v, 'v') && IdsDistinct(r) && IdsStartWith(r, 'r')
    requires IdsDistinct(s) && IdsStartWith(s, 's')
    ensures IdsDistinct(v + r + s)
  {
    var t := v + r + s;
    forall i, j | 0 <= i < j < |t| ensures t[i].id != t[j].id {
      var a := PartOf(v, r, s, i);
      var b := PartOf(v, r, s, j);
      if a != b {
        assert t[i].id[0] != t[j].id[0];
      }
    }
  }

  /** Which of the three parts position `i` of `v + r + s` falls in, by the first
      letter of its id, and its place there. */
  lemma PartOf(v: seq<Question>, r: seq<Question>, s: seq<Question>, i: nat) returns (p: nat)
    requires IdsStartWith(v, 'v') && IdsStartWith(r, 'r') && IdsStartWith(s, 's')
    requires i < |v + r + s|
    ensures p < 3 && |(v + r + s)[i].id| > 0
    ensures (v + r + s)[i].id[0] == (if p == 0 then 'v' else if p == 1 then 'r' else 's')
    ensures p == 0 <==> i < |v|
    ensures p == 1 <==> |v| <= i < |v| + |r|
    ensures p == 0 ==> (v + r + s)[i] == v[i]
    ensures p == 1 ==> (v + r + s)[i] == r[i - |v|]
    ensures p == 2 ==> (v + r + s)[i] == s[i - |v| - |r|]
  {
    if i < |v| { p := 0; } else if i < |v| + |r| { p := 1; } else { p := 2; }
  }

  /** Advanced items among the first `k` strata. */
  const AdvancedUpTo: seq<nat> := [0, 0, 0, 3, 3, 3, 6, 6, 6, 9]

  /** A test holds nine advanced questions: the divisor the scorer uses. */
  lemma SelectionAdvancedCount(draws: seq<seq<real>>)
    requires ValidDraws(draws)
    ensures |ByLevel(Selection(draws), Advanced)| == 9
  {
    var parts := ShuffledStrata(draws);
    ShuffledBlocksPermute(parts, draws);
    forall k | 0 <= k < 9 ensures AtLevel(parts[k], StratumLevels[k]) {
      UniformBlocks(k);
      UniformLevel(parts[k], Blocks[k], StratumLevels[k]);
    }
    AdvancedOfParts(parts);
  }

  lemma AdvancedOfParts(parts: seq<seq<Question>>)
    requires |parts| == 9
    requires forall k :: 0 <= k < 9 ==> |parts[k]| == StratumSizes[k] && AtLevel(parts[k], StratumLevels[k])
    ensures |ByLevel(Flatten(parts), Advanced)| == 9
  {
    AdvancedTable();
    LevelPrefix(parts, StratumLevels, Advanced, AdvancedUpTo, 9);
    assert parts[..9] == parts;
  }

  lemma AdvancedTable()
    ensures |AdvancedUpTo| == 10 && AdvancedUpTo[0] == 0 && AdvancedUpTo[9] == 9
    ensures forall j :: 0 <= j < 9 ==>
      AdvancedUpTo[j + 1] == AdvancedUpTo[j] + (if StratumLevels[j] == Advanced then StratumSizes[j] else 0)
  {
  }

  /** `acc[k]` counts the items of level `l` in the first `k` uniform blocks. */
  lemma {:induction false} LevelPrefix(parts: seq<seq<Question>>, levels: seq<Difficulty>, l: Difficulty, acc: seq<nat>, k: nat)
    requires |levels| == |parts| && |acc| == |parts| + 1 && acc[0] == 0 && k <= |parts|
    requires forall j :: 0 <= j < |parts| ==> AtLevel(parts[j], levels[j])
    requires forall j :: 0 <= j < |parts| ==> acc[j + 1] == acc[j] + (if levels[j] == l then |parts[j]| else 0)
    ensures |ByLevel(Flatten(parts[..k]), l)| == acc[k]
  {
    if k > 0 {
      LevelPrefix(parts, levels, l, acc, k - 1);
      FlattenSnoc(parts, k - 1);
      ByLevelAppend(Flatten(parts[..k - 1]), parts[k - 1], l);
      ByLevelUniform(parts[k - 1], levels[k - 1], l);
    }
  }

  /** A permutation of a block of level `l` is of level `l`. */
  lemma UniformLevel(p: seq<Question>, b: seq<Question>, l: Difficulty)
    requires multiset(p) == multiset(b) && AtLevel(b, l)
    ensures AtLevel(p, l)
  {
    forall j | 0 <= j < |p| ensures p[j].level == l {
      assert p[j] in multiset(b);
      var m :| 0 <= m < |b| && b[m] == p[j];
    }
  }

  datatype WritingPrompt = WritingPrompt(id: string, category: Category, level: Difficulty, scenario: string)

  /** The three free-text prompts that close every test. */
  const WritingPrompts: seq<WritingPrompt> := [
    WritingPrompt("w1", Writing, Intermediate, "Meeting Request Email"),
    WritingPrompt("w2", Writing, Intermediate, "Delivering Difficult News"),
    WritingPrompt("w3", Writing, Advanced, "Proposal/Persuasion Email")
  ]

  /** `getWritingPrompts`: the fixed prompt list, three writing items with distinct ids. */
  function GetWritingPrompts(): (r: seq<WritingPrompt>)
    ensures |r| == 3
    ensures forall i :: 0 <= i < |r| ==> r[i].category == Writing
    ensures forall i, j :: 0 <= i < j < |r| ==> r[i].id != r[j].id
  {
    WritingPrompts
  }
}
