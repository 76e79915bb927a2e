/**
  The "add goal" form: its three text fields, the checks `handleSubmit`
  makes before it asks the backend to create a savings goal, the goal it
  asks for, and the reset of the form after a successful create.
 */
module AddGoalModal {
  import opened Common

  /** The form's state: goal title, target amount and target date as typed. */
  datatype GoalForm = GoalForm(title: string, targetAmount: string, targetDate: string)

  /** The state the form starts in and returns to after a create. */
  const EmptyForm := GoalForm("", "", "")

  /** A goal record as sent to the backend. */
  datatype Goal = Goal(
    userId: string,
    title: string,
    targetAmount: real,
    currentAmount: real,
    targetDate: string,
    createdAt: string)

  /** No field of the form is empty. */
  predicate AllFilled(f: GoalForm) {
    Filled(f.title) && Filled(f.targetAmount) && Filled(f.targetDate)
  }

  /** The date check as positions: exactly ten characters, ASCII digits at
      positions 0-3, 5-6 and 8-9, and '-' at positions 4 and 7. Nothing
      about months or days is checked. */
  predicate IsDateShape(s: string) {
    && |s| == 10
    && IsAsciiDigit(s[0]) && IsAsciiDigit(s[1]) && IsAsciiDigit(s[2]) && IsAsciiDigit(s[3])
    && s[4] == '-'
    && IsAsciiDigit(s[5]) && IsAsciiDigit(s[6])
    && s[7] == '-'
    && IsAsciiDigit(s[8]) && IsAsciiDigit(s[9])
  }

  /** One single-character element of a regular expression: `\d` or a
      literal character. */
  datatype Atom = AnyDigit | Literal(c: char)

  predicate AtomMatches(a: Atom, c: char) {
    match a
    case AnyDigit => IsAsciiDigit(c)
    case Literal(l) => c == l
  }

  /** `/^\d{4}-\d{2}-\d{2}$/` with its counted repetitions written out. */
  const DatePattern: seq<Atom> := [
    AnyDigit, AnyDigit, AnyDigit, AnyDigit, Literal('-'),
    AnyDigit, AnyDigit, Literal('-'),
    AnyDigit, AnyDigit]

  /** Whole-string match of a sequence of atoms, anchored at both ends as
      `^` and `$` anchor it (no multi-line flag). */
  predicate Matches(p: seq<Atom>, s: string)
    decreases p
  {
    if |p| == 0 then |s| == 0
    else |s| > 0 && AtomMatches(p[0], s[0]) && Matches(p[1..], s[1..])
  }

  /** An anchored match of single-character atoms matches position by position. */
  lemma {:induction false} MatchesPositionwise(p: seq<Atom>, s: string)
    ensures Matches(p, s) <==> |s| == |p| && forall i :: 0 <= i < |p| ==> AtomMatches(p[i], s[i])
    decreases p
  {
    if |p| > 0 && |s| > 0 {
      MatchesPositionwise(p[1..], s[1..]);
      if |s| == |p| && forall i :: 0 <= i < |p| ==> AtomMatches(p[i], s[i]) {
        forall i | 0 <= i < |p| - 1
          ensures AtomMatches(p[1..][i], s[1..][i])
        {
          assert AtomMatches(p[i + 1], s[i + 1]);
        }
      }
      if Matches(p, s) {
        forall i | 0 <= i < |p|
          ensures AtomMatches(p[i], s[i])
        {
          if i > 0 {
            assert AtomMatches(p[1..][i - 1], s[1..][i - 1]);
          }
        }
      }
    }
  }

  /** The positional check is exactly the regular expression the form uses. */
  lemma DateRegexIsDateShape(s: string)
    ensures Matches(DatePattern, s) <==> IsDateShape(s)
  {
    MatchesPositionwise(DatePattern, s);
    if IsDateShape(s) {
      assert forall i :: 0 <= i < 10 ==> AtomMatches(DatePattern[i], s[i]);
    }
    if Matches(DatePattern, s) {
      assert forall i :: 0 <= i < 10 ==> AtomMatches(DatePattern[i], s[i]);
      assert AtomMatches(DatePattern[4], s[4]) && AtomMatches(DatePattern[7], s[7]);
    }
  }

  /** The check is on shape only: an impossible calendar date passes, while
      a real date written without zero padding or with slashes does not. */
  lemma DateShapeExamples()
    ensures IsDateShape("2024-13-45")
    ensures IsDateShape("2024-12-31")
    ensures !IsDateShape("2024-1-5")
    ensures !IsDateShape("2024/12/31")
    ensures !IsDateShape("2024-12-31 ")
  {
  }

  /** `handleSubmit`: the form, the amount `parseFloat` read from the
      target-amount field (`None` for `NaN`), the signed-in user's id, the
      current time as an ISO string, and whether the backend created the
      record. The checks run in the order fields, amount, date; the first
      that fails is the one reported. */
  function Submit(f: GoalForm, amount: Option<real>, userId: string, createdAt: string, storeOk: bool)
    : (s: Submission<Goal, GoalForm>)
    ensures s.outcome == Rejected(MissingField) <==> !AllFilled(f)
    ensures s.outcome == Rejected(InvalidAmount) <==> AllFilled(f) && !PositiveAmount(amount)
    ensures s.outcome == Rejected(InvalidDate)
            <==> AllFilled(f) && PositiveAmount(amount) && !IsDateShape(f.targetDate)
    ensures s.outcome.Rejected? || s.outcome.StoreFailed? ==> s.form == f
    ensures !s.outcome.Rejected? ==>
              && PositiveAmount(amount)
              && s.outcome.record.targetAmount == amount.value
              && s.outcome.record.currentAmount == 0.0
              && s.outcome.record.title == f.title
              && s.outcome.record.targetDate == f.targetDate
              && s.outcome.record.userId == userId
              && s.outcome.record.createdAt == createdAt
    ensures s.outcome.Created? <==> !s.outcome.Rejected? && storeOk
    ensures s.outcome.Created? ==> s.form == EmptyForm
  {
    if !AllFilled(f) then
      Submission(Rejected(MissingField), f)
    else if !PositiveAmount(amount) then
      Submission(Rejected(InvalidAmount), f)
    else if !IsDateShape(f.targetDate) then
      Submission(Rejected(InvalidDate), f)
    else
      var goal := Goal(userId, f.title, amount.value, 0.0, f.targetDate, createdAt);
      if storeOk then Submission(Created(goal), EmptyForm)
      else Submission(StoreFailed(goal), f)
  }

  /** Pressing the button again right after a create asks for nothing: the
      form was cleared, so the missing-field check refuses it. */
  lemma NoSecondCreateFromClearedForm(
    f: GoalForm, amount: Option<real>, userId: string, createdAt: string, storeOk: bool,
    amount': Option<real>, userId': string, createdAt': string, storeOk': bool)
    requires Submit(f, amount, userId, createdAt, storeOk).outcome.Created?
    ensures Submit(Submit(f, amount, userId, createdAt, storeOk).form,
                   amount', userId', createdAt', storeOk').outcome == Rejected(MissingField)
  {
  }
}
