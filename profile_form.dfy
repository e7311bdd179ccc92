/** The profile form (components/ProfileForm.tsx): four answers collected by
    button handlers, the usage list toggled one entry at a time, and a submit
    that hands the profile on only once every answer is given. */
module ProfileForm {
  import opened Wrappers
  import opened Types
  import Seqs

  // ---------------------------------------------------------------------------
  // The usage list

  /** `englishUsage.filter((u) => u !== usage)`. */
  function Remove(us: seq<Usage>, u: Usage): (r: seq<Usage>)
    ensures u !in r
  {
    if us == [] then [] else (if us[0] == u then [] else [us[0]]) + Remove(us[1..], u)
  }

  /** Filtering keeps every other entry as often as it occurred. */
  lemma {:induction false} RemoveCounts(us: seq<Usage>, u: Usage)
    ensures forall v :: v != u ==> multiset(Remove(us, u))[v] == multiset(us)[v]
  {
    if us != [] {
      assert us == [us[0]] + us[1..];
      RemoveCounts(us[1..], u);
    }
  }

  /** Filtering keeps the order: it works piece by piece. */
  lemma {:induction false} RemoveAppend(a: seq<Usage>, b: seq<Usage>, u: Usage)
    ensures Remove(a + b, u) == Remove(a, u) + Remove(b, u)
  {
    if a == [] {
      assert a + b == b;
    } else {
      var head := if a[0] == u then [] else [a[0]];
      assert (a + b)[0] == a[0] && (a + b)[1..] == a[1..] + b;
      RemoveAppend(a[1..], b, u);
      calc {
        Remove(a + b, u);
        head + Remove(a[1..] + b, u);
        head + (Remove(a[1..], u) + Remove(b, u));
        (head + Remove(a[1..], u)) + Remove(b, u);
        Remove(a, u) + Remove(b, u);
      }
    }
  }

  /** Filtering out an absent entry changes nothing. */
  lemma {:induction false} RemoveAbsent(us: seq<Usage>, u: Usage)
    requires u !in us
    ensures Remove(us, u) == us
  {
    if us != [] {
      assert us == [us[0]] + us[1..];
      RemoveAbsent(us[1..], u);
    }
  }

  /** The new list `handleUsageToggle` sets. */
  function Toggled(us: seq<Usage>, u: Usage): seq<Usage> {
    if u in us then Remove(us, u) else us + [u]
  }

  /** Toggling an absent usage appends it; toggling a present one removes every
      copy of it and keeps the others, in order and with their counts. */
  lemma ToggleFacts(us: seq<Usage>, u: Usage)
    ensures u !in us ==> Toggled(us, u) == us + [u]
    ensures u in us ==> u !in Toggled(us, u)
    ensures u in us ==> forall v :: v != u ==> multiset(Toggled(us, u))[v] == multiset(us)[v]
    ensures forall v :: v != u ==> (v in Toggled(us, u) <==> v in us)
  {
    if u in us {
      RemoveCounts(us, u);
      forall v | v != u ensures v in Toggled(us, u) <==> v in us {
        assert multiset(Toggled(us, u))[v] == multiset(us)[v];
      }
    }
  }

  /** Toggling the same usage twice from absent restores the list; from present
      it moves the usage to the end. */
  lemma ToggleTwice(us: seq<Usage>, u: Usage)
    ensures u !in us ==> Toggled(Toggled(us, u), u) == us
    ensures u in us ==> Toggled(Toggled(us, u), u) == Remove(us, u) + [u]
  {
    if u !in us {
      RemoveAppend(us, [u], u);
      RemoveAbsent(us, u);
      assert Remove([u], u) == [] by {
        assert [u][1..] == [];
      }
      assert us + [] == us;
    }
  }

  /** Toggling keeps the list free of repeats. */
  lemma TogglePreservesDistinct(us: seq<Usage>, u: Usage)
    requires Seqs.Distinct(us)
    ensures Seqs.Distinct(Toggled(us, u))
  {
    var r := Toggled(us, u);
    if u in us {
      RemoveCounts(us, u);
      assert multiset(r) <= multiset(us) by {
        forall v ensures multiset(r)[v] <= multiset(us)[v] {
          if v == u {
            assert v !in multiset(r);
          }
        }
      }
      Seqs.DistinctSub(r, us);
    } else {
      forall i, j | 0 <= i < j < |r| ensures r[i] != r[j] {
        if j == |us| {
          assert r[i] == us[i];
        } else {
          assert r[i] == us[i] && r[j] == us[j];
        }
      }
    }
  }

  // ---------------------------------------------------------------------------
  // The form

  /** The form's state: an unset choice is `None` (the source's empty string). */
  class Form {
    var jobType: Option<JobType>
    var englishUsage: seq<Usage>
    var goal: Option<Goal>
    var currentLevel: Option<CurrentLevel>

    /** The form starts with nothing chosen. */
    constructor ()
      ensures jobType == None && englishUsage == [] && goal == None && currentLevel == None
      ensures !IsValid()
    {
      jobType := None;
      englishUsage := [];
      goal := None;
      currentLevel := None;
    }

    /** `isValid`: every single choice is made and at least one usage is ticked. */
    predicate IsValid()
      reads this
    {
      jobType.Some? && goal.Some? && currentLevel.Some? && |englishUsage| > 0
    }

    /** The job-type buttons. */
    method SetJobType(j: JobType)
      modifies this
      ensures jobType == Some(j)
      ensures englishUsage == old(englishUsage) && goal == old(goal) && currentLevel == old(currentLevel)
    {
      jobType := Some(j);
    }

    /** The goal buttons. */
    method SetGoal(g: Goal)
      modifies this
      ensures goal == Some(g)
      ensures jobType == old(jobType) && englishUsage == old(englishUsage) && currentLevel == old(currentLevel)
    {
      goal := Some(g);
    }

    /** The current-level buttons. */
    method SetCurrentLevel(l: CurrentLevel)
      modifies this
      ensures currentLevel == Some(l)
      ensures jobType == old(jobType) && englishUsage == old(englishUsage) && goal == old(goal)
    {
      currentLevel := Some(l);
    }

    /** `handleUsageToggle`. */
    method ToggleUsage(u: Usage)
      modifies this
      ensures englishUsage == Toggled(old(englishUsage), u)
      ensures jobType == old(jobType) && goal == old(goal) && currentLevel == old(currentLevel)
    {
      if u in englishUsage {
        englishUsage := Remove(englishUsage, u);
      } else {
        englishUsage := englishUsage + [u];
      }
    }

    /** `handleSubmit`: the profile handed to `onComplete`, made of the four
        answers unchanged, exactly when the form is valid. */
    method Submit() returns (completed: Option<UserProfile>)
      ensures completed.Some? <==> IsValid()
      ensures completed.Some? ==>
        completed.value == UserProfile(jobType.value, englishUsage, goal.value, currentLevel.value)
    {
      if jobType.Some? && goal.Some? && currentLevel.Some? && |englishUsage| > 0 {
        completed := Some(UserProfile(jobType.value, englishUsage, goal.value, currentLevel.value));
      } else {
        completed := None;
      }
    }
  }

  /** The list after a run of usage clicks, starting from `us`. */
  function AfterClicks(us: seq<Usage>, clicks: seq<Usage>): seq<Usage>
    decreases |clicks|
  {
    if clicks == [] then us else Toggled(AfterClicks(us, clicks[..|clicks| - 1]), clicks[|clicks| - 1])
  }

  /** Whatever the clicks, the usage list a fresh form builds has no repeats. */
  lemma {:induction false} ClicksKeepDistinct(clicks: seq<Usage>)
    ensures Seqs.Distinct(AfterClicks([], clicks))
    decreases |clicks|
  {
    if clicks != [] {
      ClicksKeepDistinct(clicks[..|clicks| - 1]);
      TogglePreservesDistinct(AfterClicks([], clicks[..|clicks| - 1]), clicks[|clicks| - 1]);
    }
  }
}
