/** Decision rules both scorers share: the interview-readiness ladder, the
    70-point split of sub-scores into strengths and weaknesses with sentinel
    fallbacks, and lists of texts built by conditional pushes. */
module Ladders {
  import opened Types

  /** `getInterviewReadiness`'s tier: `avg` is the mean of the two communication
      sub-scores, compared as the real number JavaScript computes. */
  function ReadinessTier(overall: int, a: int, b: int): ReadinessLevel {
    var avg := (a + b) as real / 2.0;
    if overall >= 80 && avg >= 75.0 then Confident
    else if overall >= 60 && avg >= 55.0 then Ready
    else if overall >= 40 then BasicReady
    else NotReady
  }

  function ReadinessRank(l: ReadinessLevel): nat {
    match l
    case NotReady => 0
    case BasicReady => 1
    case Ready => 2
    case Confident => 3
  }

  /** The tiers in integer terms: `avg >= 75` is `a + b >= 150` and `avg >= 55` is `a + b >= 110`. */
  lemma ReadinessTierExact(overall: int, a: int, b: int)
    ensures ReadinessTier(overall, a, b) == Confident <==> overall >= 80 && a + b >= 150
    ensures ReadinessTier(overall, a, b) == Ready <==>
              !(overall >= 80 && a + b >= 150) && overall >= 60 && a + b >= 110
    ensures ReadinessTier(overall, a, b) == BasicReady <==>
              !(overall >= 80 && a + b >= 150) && !(overall >= 60 && a + b >= 110) && overall >= 40
    ensures ReadinessTier(overall, a, b) == NotReady <==> overall < 40
  {
  }

  /** Better scores never give a lower readiness tier. */
  lemma ReadinessMonotone(o1: int, a1: int, b1: int, o2: int, a2: int, b2: int)
    requires o1 <= o2 && a1 + b1 <= a2 + b2
    ensures ReadinessRank(ReadinessTier(o1, a1, b1)) <= ReadinessRank(ReadinessTier(o2, a2, b2))
  {
    ReadinessTierExact(o1, a1, b1);
    ReadinessTierExact(o2, a2, b2);
  }

  /** The mark at which a sub-score counts as a strength. */
  const StrengthMark := 70

  /** One sub-score with the label it gets as a strength and as a weakness. */
  datatype Axis = Axis(score: int, strength: string, weakness: string)

  /** Strength labels of the axes scoring at least 70, in axis order. */
  function Strengths(axes: seq<Axis>): seq<string> {
    if axes == [] then []
    else (if axes[0].score >= StrengthMark then [axes[0].strength] else []) + Strengths(axes[1..])
  }

  /** Weakness labels of the axes scoring below 70, in axis order. */
  function Weaknesses(axes: seq<Axis>): seq<string> {
    if axes == [] then []
    else (if axes[0].score >= StrengthMark then [] else [axes[0].weakness]) + Weaknesses(axes[1..])
  }

  /** The reported list: an empty list is replaced by its sentinel. */
  function OrSentinel(xs: seq<string>, sentinel: string): (r: seq<string>)
    ensures r != []
    ensures xs != [] ==> r == xs
    ensures xs == [] ==> r == [sentinel]
  {
    if |xs| > 0 then xs else [sentinel]
  }

  predicate DistinctLabels(axes: seq<Axis>) {
    forall i, j :: 0 <= i < |axes| && 0 <= j < |axes| ==>
      (i != j ==> axes[i].strength != axes[j].strength && axes[i].weakness != axes[j].weakness)
  }

  /** Every axis lands in exactly one of the two lists. */
  lemma {:induction false} SplitIsPartition(axes: seq<Axis>)
    ensures |Strengths(axes)| + |Weaknesses(axes)| == |axes|
    ensures Strengths(axes) == [] <==> forall k :: 0 <= k < |axes| ==> axes[k].score < StrengthMark
    ensures Weaknesses(axes) == [] <==> forall k :: 0 <= k < |axes| ==> axes[k].score >= StrengthMark
  {
    if axes != [] {
      SplitIsPartition(axes[1..]);
      assert forall k :: 1 <= k < |axes| ==> axes[k] == axes[1..][k - 1];
    }
  }

  /** With distinct labels, an axis's strength label is listed exactly when it scores at
      least 70 and its weakness label exactly when it does not. */
  lemma {:induction false} SplitMembership(axes: seq<Axis>, k: nat)
    requires DistinctLabels(axes) && k < |axes|
    ensures axes[k].strength in Strengths(axes) <==> axes[k].score >= StrengthMark
    ensures axes[k].weakness in Weaknesses(axes) <==> axes[k].score < StrengthMark
  {
    var rest := axes[1..];
    assert DistinctLabels(rest) by {
      forall i, j | 0 <= i < |rest| && 0 <= j < |rest| && i != j
        ensures rest[i].strength != rest[j].strength && rest[i].weakness != rest[j].weakness
      {
        assert rest[i] == axes[i + 1] && rest[j] == axes[j + 1];
      }
    }
    if k == 0 {
      forall m | 0 <= m < |rest|
        ensures rest[m].strength != axes[0].strength && rest[m].weakness != axes[0].weakness
      {
        assert rest[m] == axes[m + 1];
      }
      LabelsOfRest(rest, axes[0].strength, axes[0].weakness);
    } else {
      assert axes[k] == rest[k - 1];
      SplitMembership(rest, k - 1);
    }
  }

  /** Splitting one more axis appends its label to one of the two lists. */
  lemma {:induction false} SplitSnoc(axes: seq<Axis>, x: Axis)
    ensures Strengths(axes + [x]) == Strengths(axes) + (if x.score >= StrengthMark then [x.strength] else [])
    ensures Weaknesses(axes + [x]) == Weaknesses(axes) + (if x.score >= StrengthMark then [] else [x.weakness])
  {
    if axes == [] {
      assert ([] + [x])[1..] == [];
    } else {
      assert (axes + [x])[1..] == axes[1..] + [x];
      SplitSnoc(axes[1..], x);
    }
  }

  /** The splits of the first k + 1 axes extend those of the first k. */
  lemma SplitPrefix(axes: seq<Axis>, k: nat)
    requires k < |axes|
    ensures Strengths(axes[..k + 1]) == Strengths(axes[..k]) + (if axes[k].score >= StrengthMark then [axes[k].strength] else [])
    ensures Weaknesses(axes[..k + 1]) == Weaknesses(axes[..k]) + (if axes[k].score >= StrengthMark then [] else [axes[k].weakness])
  {
    assert axes[..k + 1] == axes[..k] + [axes[k]];
    SplitSnoc(axes[..k], axes[k]);
  }

  /** Every listed label is the label of some axis. */
  lemma {:induction false} LabelsFromAxes(axes: seq<Axis>)
    ensures forall x :: x in Strengths(axes) ==> exists k :: 0 <= k < |axes| && axes[k].strength == x
    ensures forall x :: x in Weaknesses(axes) ==> exists k :: 0 <= k < |axes| && axes[k].weakness == x
  {
    if axes != [] {
      LabelsFromAxes(axes[1..]);
      assert forall k :: 1 <= k < |axes| ==> axes[k] == axes[1..][k - 1];
    }
  }

  /** Labels that no axis carries are listed by neither split. */
  lemma {:induction false} LabelsOfRest(axes: seq<Axis>, s: string, w: string)
    requires forall m :: 0 <= m < |axes| ==> axes[m].strength != s && axes[m].weakness != w
    ensures s !in Strengths(axes) && w !in Weaknesses(axes)
  {
    if axes != [] {
      LabelsOfRest(axes[1..], s, w);
    }
  }

  /** None of the axes' labels is (by length) a sentinel; then each reported list
      is its sentinel alone exactly when no axis lands in it. */
  lemma SentinelIff(axes: seq<Axis>, ss: string, ws: string)
    requires forall k :: 0 <= k < |axes| ==> |axes[k].strength| != |ss| && |axes[k].weakness| != |ws|
    ensures OrSentinel(Strengths(axes), ss) == [ss] <==> forall k :: 0 <= k < |axes| ==> axes[k].score < StrengthMark
    ensures OrSentinel(Weaknesses(axes), ws) == [ws] <==> forall k :: 0 <= k < |axes| ==> axes[k].score >= StrengthMark
  {
    SplitIsPartition(axes);
    SentinelsAreNotLabels(axes, ss, ws);
  }

  /** When no axis carries a sentinel as a label, a sentinel list is never a single
      genuine label. */
  lemma SentinelsAreNotLabels(axes: seq<Axis>, ss: string, ws: string)
    requires forall k :: 0 <= k < |axes| ==> |axes[k].strength| != |ss| && |axes[k].weakness| != |ws|
    ensures OrSentinel(Strengths(axes), ss) == [ss] <==> Strengths(axes) == []
    ensures OrSentinel(Weaknesses(axes), ws) == [ws] <==> Weaknesses(axes) == []
  {
    LabelsOfRest(axes, ss, ws);
    if Strengths(axes) != [] {
      assert ss !in Strengths(axes);
    }
    if Weaknesses(axes) != [] {
      assert ws !in Weaknesses(axes);
    }
  }

  // ---------------------------------------------------------------------------
  // Rule lists built by conditional pushes

  /** A recommendation together with whether its condition holds. */
  datatype Rule = Rule(fires: bool, text: string)

  /** The texts of the rules that fire, in rule order. */
  function Fired(rules: seq<Rule>): (r: seq<string>)
    ensures |r| <= |rules|
    decreases |rules|
  {
    if rules == [] then []
    else Fired(rules[..|rules| - 1]) + (if rules[|rules| - 1].fires then [rules[|rules| - 1].text] else [])
  }

  /** A text is fired exactly when a rule carrying it fires; nothing fires exactly
      when no rule does. */
  lemma {:induction false} FiredMembers(rules: seq<Rule>, x: string)
    ensures x in Fired(rules) <==> exists k :: 0 <= k < |rules| && rules[k].fires && rules[k].text == x
    ensures Fired(rules) == [] <==> forall k :: 0 <= k < |rules| ==> !rules[k].fires
    decreases |rules|
  {
    if rules != [] {
      var init := rules[..|rules| - 1];
      FiredMembers(init, x);
      assert forall k :: 0 <= k < |init| ==> init[k] == rules[k];
    }
  }

  /** `if (condition) list.push(text)`. */
  method PushIf(list: seq<string>, condition: bool, text: string) returns (r: seq<string>)
    ensures r == list + (if condition then [text] else [])
  {
    r := list;
    if condition {
      r := r + [text];
    }
  }

  lemma FiredPrefix(rules: seq<Rule>, k: nat)
    requires k < |rules|
    ensures Fired(rules[..k + 1]) == Fired(rules[..k]) + (if rules[k].fires then [rules[k].text] else [])
  {
    assert rules[..k + 1][..k] == rules[..k];
  }

  /** No two rules carry the same text. */
  predicate DistinctTexts(rules: seq<Rule>) {
    forall i, j :: 0 <= i < j < |rules| ==> rules[i].text != rules[j].text
  }

  /** With distinct texts, a rule's text is fired exactly when that rule fires. */
  lemma FiredIff(rules: seq<Rule>, k: nat)
    requires k < |rules| && DistinctTexts(rules)
    ensures rules[k].text in Fired(rules) <==> rules[k].fires
  {
    FiredMembers(rules, rules[k].text);
  }
}
