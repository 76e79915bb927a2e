/**
  The figures a goal card shows: the percentage reached (capped at 100),
  the amount still missing (never below zero), and the label for the days
  left until the target date. Amounts are reals, not floating point.
 */
module GoalCard {
  import opened Common
  import Decimal
  import AddGoalModal

  /** `Math.min(current / target * 100, 100)`. The card does not guard the
      division. The add-goal form creates only positive targets, but the
      goals screen stores any parsed target, zero and negative ones
      included, and applies this same unguarded formula to its records. A
      zero target makes the quotient infinite or `NaN`, which reals cannot
      hold; every other target is modelled. */
  function Progress(current: real, target: real): (p: real)
    requires target != 0.0
    ensures p <= 100.0
    ensures p == 100.0 || p == current / target * 100.0
    ensures target > 0.0 ==> (p == 100.0 <==> current >= target)
    ensures target > 0.0 && current < target ==> p == current / target * 100.0
    ensures target > 0.0 && current >= 0.0 ==> p >= 0.0
    ensures target < 0.0 ==> (p == 100.0 <==> current <= target)
  {
    var percent := current / target * 100.0;
    assert target > 0.0 ==> (percent < 100.0 <==> current < target) by {
      if target > 0.0 {
        assert percent == current * 100.0 / target;
      }
    }
    if percent < 100.0 then percent else 100.0
  }

  /** With a negative target the card shows a negative percentage for a
      positive saved amount, and 100% only once the amount falls to the
      target. */
  lemma NegativeTargetProgress()
    ensures Progress(50.0, -100.0) == -50.0
    ensures Progress(-100.0, -100.0) == 100.0
  {
  }

  /** `Math.max(target - current, 0)`. */
  function Remaining(current: real, target: real): (r: real)
    ensures r >= 0.0
    ensures current <= target ==> r == target - current
    ensures r == 0.0 <==> current >= target
  {
    if target - current > 0.0 then target - current else 0.0
  }

  /** Saving more never shows less progress. */
  lemma ProgressMonotone(c1: real, c2: real, target: real)
    requires target > 0.0
    requires c1 <= c2
    ensures Progress(c1, target) <= Progress(c2, target)
  {
    assert c1 / target <= c2 / target by {
      assert c2 / target - c1 / target == (c2 - c1) / target;
    }
  }

  /** The card shows 100% exactly when nothing remains, which is exactly
      when the goal has been reached. */
  lemma CompleteIffNothingRemains(current: real, target: real)
    requires target > 0.0
    ensures Progress(current, target) == 100.0 <==> Remaining(current, target) == 0.0
    ensures Remaining(current, target) == 0.0 <==> current >= target
  {
  }

  /** The two figures describe the same state: the remaining amount is the
      share of the target the progress has not yet covered. */
  lemma RemainingIsUncoveredShare(current: real, target: real)
    requires target > 0.0
    ensures Remaining(current, target) == target * (100.0 - Progress(current, target)) / 100.0
  {
  }

  /** A goal the form has just created is shown at 0% with its whole target
      remaining, and its target satisfies the card's assumption. */
  lemma NewGoalStartsEmpty(
    f: AddGoalModal.GoalForm, amount: Option<real>, userId: string, createdAt: string, storeOk: bool)
    requires AddGoalModal.Submit(f, amount, userId, createdAt, storeOk).outcome.Created?
    ensures var g := AddGoalModal.Submit(f, amount, userId, createdAt, storeOk).outcome.record;
            && g.targetAmount > 0.0
            && Progress(g.currentAmount, g.targetAmount) == 0.0
            && Remaining(g.currentAmount, g.targetAmount) == g.targetAmount
  {
  }

  /** The text after the count in the days-left label. */
  const DaysLeftSuffix := " days left"

  /** The label shown when the count is not positive. */
  const ReachedLabel := "Target reached!"

  /** The days-left label. `daysLeft` is the rounded-up day difference
      between the target date and now, `None` when it is `NaN` (a target
      date `Date` cannot read, such as "2024-13-45"). Only a positive count
      is shown as a count. */
  function DaysLabel(daysLeft: Option<int>): (r: string)
    ensures r == ReachedLabel <==> !(daysLeft.Some? && daysLeft.value > 0)
    ensures daysLeft.Some? && daysLeft.value > 0 ==>
              && |r| > |DaysLeftSuffix|
              && r[..|r| - |DaysLeftSuffix|] == Decimal.FromNat(daysLeft.value)
              && r[|r| - |DaysLeftSuffix|..] == DaysLeftSuffix
  {
    if daysLeft.Some? && daysLeft.value > 0 then
      var count := Decimal.FromNat(daysLeft.value);
      var text := count + DaysLeftSuffix;
      assert text[0] == count[0] && Decimal.AllDigits(count);
      assert text[..|count|] == count;
      text
    else
      ReachedLabel
  }

  /** The count in a days-left label reads back as the number of days. */
  lemma DaysLabelShowsCount(d: int)
    requires d > 0
    ensures var r := DaysLabel(Some(d));
            |r| > |DaysLeftSuffix| && Decimal.Value(r[..|r| - |DaysLeftSuffix|]) == d
  {
    Decimal.ValueOfFromNat(d);
  }
}
