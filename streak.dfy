/** The streak and its encouragement milestones, stated over the history of
    verdicts: the streak is the run of correct answers at the end of the
    history, and an encouragement is requested each time that run reaches a
    positive multiple of five. */
module Streak {

  /** Every this many correct answers in a row, an encouragement is requested. */
  const MilestoneEvery := 5

  predicate IsMilestone(streak: int)
  {
    streak > 0 && streak % MilestoneEvery == 0
  }

  /** The number of consecutive correct verdicts at the end of the history:
      all of the last `n` are correct, and the one before them (if any) is not. */
  function TrailingCorrect(verdicts: seq<bool>): (n: nat)
    ensures n <= |verdicts|
    ensures forall i :: |verdicts| - n <= i < |verdicts| ==> verdicts[i]
    ensures n < |verdicts| ==> !verdicts[|verdicts| - 1 - n]
  {
    if verdicts == [] || !verdicts[|verdicts| - 1] then 0
    else 1 + TrailingCorrect(verdicts[..|verdicts| - 1])
  }

  /** The streak values at which an encouragement was requested, in order:
      one entry for each prefix of the history whose trailing run is a
      milestone. */
  function Milestones(verdicts: seq<bool>): (requests: seq<nat>)
    ensures forall i :: 0 <= i < |requests| ==> IsMilestone(requests[i])
    ensures |requests| <= |verdicts|
  {
    if verdicts == [] then []
    else
      var run := TrailingCorrect(verdicts);
      Milestones(verdicts[..|verdicts| - 1]) + (if IsMilestone(run) then [run] else [])
  }

  /** One more verdict: a correct one extends the streak by one, a wrong one
      resets it to zero. */
  lemma StreakStep(verdicts: seq<bool>, correct: bool)
    ensures TrailingCorrect(verdicts + [correct])
            == if correct then TrailingCorrect(verdicts) + 1 else 0
  {
    assert (verdicts + [correct])[..|verdicts|] == verdicts;
  }

  /** One more verdict requests an encouragement exactly when it is correct
      and the new streak is a positive multiple of five; a wrong verdict
      never requests one. */
  lemma MilestonesStep(verdicts: seq<bool>, correct: bool)
    ensures var streak := TrailingCorrect(verdicts + [correct]);
            Milestones(verdicts + [correct])
            == Milestones(verdicts) + (if correct && IsMilestone(streak) then [streak] else [])
  {
    StreakStep(verdicts, correct);
    assert (verdicts + [correct])[..|verdicts|] == verdicts;
  }

  /** `n` correct answers in a row. */
  function AllCorrect(n: nat): (verdicts: seq<bool>)
    ensures |verdicts| == n
  {
    seq(n, _ => true)
  }

  /** The first `k` milestones: 5, 10, ..., 5k. */
  function FirstMilestones(k: nat): (streaks: seq<nat>)
    ensures |streaks| == k
  {
    seq(k, i => MilestoneEvery * (i + 1))
  }

  /** Appending one more correct answer to a run of `n - 1`. */
  lemma AppendCorrect(verdicts: seq<bool>, n: nat)
    requires n > 0
    ensures verdicts + AllCorrect(n) == (verdicts + AllCorrect(n - 1)) + [true]
  {
  }

  /** The milestones up to `n` are those up to `n - 1`, plus `n` itself when
      it is a multiple of five. */
  lemma FirstMilestonesStep(n: nat)
    requires n > 0
    ensures FirstMilestones(n / MilestoneEvery)
            == FirstMilestones((n - 1) / MilestoneEvery) + (if IsMilestone(n) then [n] else [])
  {
    if n % MilestoneEvery == 0 {
      assert n / MilestoneEvery == (n - 1) / MilestoneEvery + 1;
    } else {
      assert n / MilestoneEvery == (n - 1) / MilestoneEvery;
    }
  }

  /** A run of `n` correct answers started from a zero streak leaves a
      streak of `n`. */
  lemma {:induction false} StreakOfRun(verdicts: seq<bool>, n: nat)
    requires TrailingCorrect(verdicts) == 0
    ensures TrailingCorrect(verdicts + AllCorrect(n)) == n
  {
    if n == 0 {
      assert verdicts + AllCorrect(0) == verdicts;
    } else {
      StreakOfRun(verdicts, n - 1);
      AppendCorrect(verdicts, n);
      StreakStep(verdicts + AllCorrect(n - 1), true);
    }
  }

  /** A run of `n` correct answers started from a zero streak requests one
      encouragement at each of 5, 10, ..., up to `n`, and no other. */
  lemma {:induction false} MilestonesOfRun(verdicts: seq<bool>, n: nat)
    requires TrailingCorrect(verdicts) == 0
    ensures Milestones(verdicts + AllCorrect(n))
            == Milestones(verdicts) + FirstMilestones(n / MilestoneEvery)
  {
    if n == 0 {
      assert verdicts + AllCorrect(0) == verdicts;
      assert FirstMilestones(0) == [];
    } else {
      var before := verdicts + AllCorrect(n - 1);
      var added: seq<nat> := if IsMilestone(n) then [n] else [];
      AppendCorrect(verdicts, n);
      StreakOfRun(verdicts, n);
      MilestonesStep(before, true);
      assert Milestones(before + [true]) == Milestones(before) + added;
      MilestonesOfRun(verdicts, n - 1);
      FirstMilestonesStep(n);
      calc {
        Milestones(verdicts + AllCorrect(n));
        Milestones(before) + added;
        (Milestones(verdicts) + FirstMilestones((n - 1) / MilestoneEvery)) + added;
        Milestones(verdicts) + (FirstMilestones((n - 1) / MilestoneEvery) + added);
        Milestones(verdicts) + FirstMilestones(n / MilestoneEvery);
      }
    }
  }

  /** Five correct answers from the start request exactly one encouragement,
      at streak 5; none is requested at 1 to 4 or at 6. */
  lemma FiveInARowExample()
    ensures Milestones(AllCorrect(4)) == []
    ensures Milestones(AllCorrect(5)) == [5]
    ensures Milestones(AllCorrect(6)) == [5]
  {
    MilestonesOfRun([], 4);
    MilestonesOfRun([], 5);
    MilestonesOfRun([], 6);
    assert [] + AllCorrect(4) == AllCorrect(4);
    assert [] + AllCorrect(5) == AllCorrect(5);
    assert [] + AllCorrect(6) == AllCorrect(6);
  }
}
