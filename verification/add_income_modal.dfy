/**
  The "add income" form: the fixed list of income sources, their localised
  names, the checks `handleAddIncome` makes, the income record it asks the
  backend to create (id from the clock, date cut from an ISO timestamp),
  and the reset afterwards.
 */
module AddIncomeModal {
  import opened Common
  import Decimal

  /** One selectable income source: id, icon and colour. */
  datatype IncomeSource = IncomeSource(id: string, icon: string, color: string)

  /** The six sources, in the order they are shown. */
  const IncomeSources: seq<IncomeSource> := [
    IncomeSource("salary", "briefcase", "#2E7D32"),
    IncomeSource("overtime", "time", "#FF6F00"),
    IncomeSource("bonus", "gift", "#1976D2"),
    IncomeSource("freelance", "laptop", "#7B1FA2"),
    IncomeSource("rental", "home", "#388E3C"),
    IncomeSource("other", "cash", "#5D4037")
  ]

  /** True when `id` is the id of one of the six sources. */
  predicate IsSourceId(id: string) {
    exists i :: 0 <= i < |IncomeSources| && IncomeSources[i].id == id
  }

  /** The `sourceNames` object built inside `getSourceName`. */
  function SourceNames(lang: Language): map<string, string> {
    map[
      "salary" := Localised(lang, "Salary", "वेतन"),
      "overtime" := Localised(lang, "Overtime", "ओवरटाइम"),
      "bonus" := Localised(lang, "Bonus", "बोनस"),
      "freelance" := Localised(lang, "Freelance", "फ्रीलांस"),
      "rental" := Localised(lang, "Rental", "किराया"),
      "other" := Localised(lang, "Other", "अन्य")
    ]
  }

  /** `getSourceName`: the localised name of a known source, and the id
      itself for any other string. */
  function SourceName(lang: Language, id: string): (r: string)
    ensures IsSourceId(id) ==> r != id && r == SourceNames(lang)[id]
    ensures !IsSourceId(id) ==> r == id
  {
    var names := SourceNames(lang);
    SourceNamesCoverSources(lang, id);
    if id in names && Filled(names[id]) then names[id] else id
  }

  /** The names table has an entry for exactly the six listed sources. */
  lemma SourceNamesCoverSources(lang: Language, id: string)
    ensures id in SourceNames(lang) <==> IsSourceId(id)
  {
    if IsSourceId(id) {
      var i :| 0 <= i < |IncomeSources| && IncomeSources[i].id == id;
      assert id in SourceNames(lang);
    }
    if id in SourceNames(lang) {
      assert IncomeSources[0].id == "salary" && IncomeSources[5].id == "other";
      assert IncomeSources[1].id == "overtime" && IncomeSources[2].id == "bonus";
      assert IncomeSources[3].id == "freelance" && IncomeSources[4].id == "rental";
    }
  }

  /** The form's state: amount and description as typed, and the id of the
      selected source ('' while none is selected). */
  datatype IncomeForm = IncomeForm(amount: string, selectedSource: string, description: string)

  /** The state the form starts in and returns to after a create. */
  const EmptyForm := IncomeForm("", "", "")

  /** What a user can do to the form: type into either text field, or tap
      the source shown at position `index` of the list. */
  datatype Edit = TypeAmount(text: string) | TypeDescription(text: string) | Pick(index: nat)

  /** An edit the screen can produce: taps land only on listed sources. */
  predicate Possible(e: Edit) {
    e.Pick? ==> e.index < |IncomeSources|
  }

  /** The form's invariant: the selection is empty or a source id. */
  predicate SelectionValid(f: IncomeForm) {
    f.selectedSource == "" || IsSourceId(f.selectedSource)
  }

  /** The form after one edit. */
  function Apply(f: IncomeForm, e: Edit): (r: IncomeForm)
    requires Possible(e)
    ensures SelectionValid(f) ==> SelectionValid(r)
    ensures e.Pick? ==> IsSourceId(r.selectedSource)
    ensures !e.Pick? ==> r.selectedSource == f.selectedSource
  {
    match e
    case TypeAmount(t) => f.(amount := t)
    case TypeDescription(t) => f.(description := t)
    case Pick(i) => f.(selectedSource := IncomeSources[i].id)
  }

  /** The form after a sequence of edits, applied first to last. */
  function ApplyAll(f: IncomeForm, edits: seq<Edit>): IncomeForm
    requires forall i :: 0 <= i < |edits| ==> Possible(edits[i])
    decreases |edits|
  {
    if |edits| == 0 then f
    else ApplyAll(Apply(f, edits[0]), edits[1..])
  }

  /** However the user edits the form, the selection stays empty or a
      source id. */
  lemma {:induction false} EditsKeepSelectionValid(f: IncomeForm, edits: seq<Edit>)
    requires SelectionValid(f)
    requires forall i :: 0 <= i < |edits| ==> Possible(edits[i])
    ensures SelectionValid(ApplyAll(f, edits))
    decreases |edits|
  {
    if |edits| > 0 {
      assert Possible(edits[0]);
      EditsKeepSelectionValid(Apply(f, edits[0]), edits[1..]);
    }
  }

  /** `s.split('T')[0]`: the part of `s` before its first 'T', or all of
      `s` when it has none. */
  function BeforeFirstT(s: string): (r: string)
    ensures r <= s
    ensures 'T' !in r
    ensures |r| < |s| ==> s[|r|] == 'T'
  {
    if |s| == 0 || s[0] == 'T' then ""
    else [s[0]] + BeforeFirstT(s[1..])
  }

  /** `income_${Date.now()}`: the record id made from the clock in
      milliseconds. */
  function IncomeId(nowMillis: nat): string {
    "income_" + Decimal.FromNat(nowMillis)
  }

  /** Two incomes created at different milliseconds get different ids, and
      the clock reading can be recovered from the id. */
  lemma IncomeIdsDistinct(m: nat, n: nat)
    ensures IncomeId(m) == IncomeId(n) <==> m == n
    ensures Decimal.Value(IncomeId(m)[7..]) == m
  {
    assert IncomeId(m)[7..] == Decimal.FromNat(m);
    assert IncomeId(n)[7..] == Decimal.FromNat(n);
    Decimal.ValueOfFromNat(m);
    if IncomeId(m) == IncomeId(n) {
      Decimal.FromNatInjective(m, n);
    }
  }

  /** An income record as sent to the backend. */
  datatype Income = Income(
    id: string,
    userId: string,
    amount: real,
    source: string,
    description: string,
    date: string)

  /** The two fields that must be filled; the description is optional. */
  predicate RequiredFilled(f: IncomeForm) {
    Filled(f.amount) && Filled(f.selectedSource)
  }

  /** `handleAddIncome`: the form, the amount `parseFloat` read from it
      (`None` for `NaN`), the clock in milliseconds, the current time as an
      ISO string, the user's id, and whether the backend created the record. */
  function Submit(
    f: IncomeForm, amount: Option<real>, nowMillis: nat, nowIso: string, userId: string, storeOk: bool)
    : (s: Submission<Income, IncomeForm>)
    ensures s.outcome == Rejected(MissingField) <==> !RequiredFilled(f)
    ensures s.outcome == Rejected(InvalidAmount) <==> RequiredFilled(f) && !PositiveAmount(amount)
    ensures s.outcome != Rejected(InvalidDate)
    ensures s.outcome.Rejected? || s.outcome.StoreFailed? ==> s.form == f
    ensures !s.outcome.Rejected? ==>
              && PositiveAmount(amount)
              && s.outcome.record.amount == amount.value
              && s.outcome.record.source == f.selectedSource
              && s.outcome.record.description == f.description
              && s.outcome.record.id == IncomeId(nowMillis)
              && s.outcome.record.userId == userId
              && s.outcome.record.date == BeforeFirstT(nowIso)
    ensures s.outcome.Created? <==> !s.outcome.Rejected? && storeOk
    ensures s.outcome.Created? ==> s.form == EmptyForm
    ensures SelectionValid(f) ==> SelectionValid(s.form)
  {
    if !RequiredFilled(f) then
      Submission(Rejected(MissingField), f)
    else if !PositiveAmount(amount) then
      Submission(Rejected(InvalidAmount), f)
    else
      var description := if Filled(f.description) then f.description else "";
      var income := Income(IncomeId(nowMillis), userId, amount.value, f.selectedSource,
                           description, BeforeFirstT(nowIso));
      if storeOk then Submission(Created(income), EmptyForm)
      else Submission(StoreFailed(income), f)
  }

  /** For a timestamp as `toISOString` writes it, the stored date is the
      ten-character calendar date in front of the 'T'. */
  lemma StoredDateOfIsoTimestamp(date: string, time: string)
    requires |date| == 10 && 'T' !in date
    ensures BeforeFirstT(date + "T" + time) == date
  {
    var s := date + "T" + time;
    var r := BeforeFirstT(s);
    assert s[..10] == date && s[10] == 'T';
  }

  /** Every income the form asks for, starting from the empty form and after
      any edits, carries one of the six source ids. */
  lemma {:induction false} SubmittedSourceIsListed(
    edits: seq<Edit>, amount: Option<real>, nowMillis: nat, nowIso: string, userId: string, storeOk: bool)
    requires forall i :: 0 <= i < |edits| ==> Possible(edits[i])
    requires !Submit(ApplyAll(EmptyForm, edits), amount, nowMillis, nowIso, userId, storeOk).outcome.Rejected?
    ensures IsSourceId(Submit(ApplyAll(EmptyForm, edits), amount, nowMillis, nowIso, userId, storeOk).outcome.record.source)
  {
    EditsKeepSelectionValid(EmptyForm, edits);
  }
}
