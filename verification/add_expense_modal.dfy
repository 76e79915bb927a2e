/**
  The "add expense" form: the fixed list of expense categories it offers,
  the edits a user can make to the form, the checks `handleSubmit` makes,
  the expense it asks the backend to create, and the reset afterwards.
 */
module AddExpenseModal {
  import opened Common

  /** One selectable category: id, English and Hindi names, icon, colour. */
  datatype Category = Category(id: string, name: string, nameHi: string, icon: string, color: string)

  /** The eight categories, in the order they are shown. */
  const Categories: seq<Category> := [
    Category("food", "Food", "खाना", "restaurant", "#FF6B6B"),
    Category("transport", "Transport", "यातायात", "directions-bus", "#4ECDC4"),
    Category("utilities", "Utilities", "उपयोगिताएं", "electrical-services", "#45B7D1"),
    Category("healthcare", "Healthcare", "स्वास्थ्य", "local-hospital", "#96CEB4"),
    Category("entertainment", "Entertainment", "मनोरंजन", "movie", "#FFEAA7"),
    Category("shopping", "Shopping", "खरीदारी", "shopping-cart", "#DDA0DD"),
    Category("education", "Education", "शिक्षा", "school", "#98D8C8"),
    Category("other", "Other", "अन्य", "category", "#F7DC6F")
  ]

  /** True when `id` is the id of one of the eight categories. */
  predicate IsCategoryId(id: string) {
    exists i :: 0 <= i < |Categories| && Categories[i].id == id
  }

  /** The name shown under a category's icon. */
  function CategoryName(c: Category, lang: Language): string {
    Localised(lang, c.name, c.nameHi)
  }

  /** The form's state: amount and description as typed, and the id of the
      selected category ('' while none is selected). */
  datatype ExpenseForm = ExpenseForm(amount: string, description: string, selectedCategory: string)

  /** The state the form starts in and returns to after a create. */
  const EmptyForm := ExpenseForm("", "", "")

  /** What a user can do to the form: type into either text field, or tap
      the category shown at position `index` of the list. */
  datatype Edit = TypeAmount(text: string) | TypeDescription(text: string) | Pick(index: nat)

  /** An edit the screen can produce: taps land only on listed categories. */
  predicate Possible(e: Edit) {
    e.Pick? ==> e.index < |Categories|
  }

  /** The form's invariant: the selection is empty or a category id. */
  predicate SelectionValid(f: ExpenseForm) {
    f.selectedCategory == "" || IsCategoryId(f.selectedCategory)
  }

  /** The form after one edit. */
  function Apply(f: ExpenseForm, e: Edit): (r: ExpenseForm)
    requires Possible(e)
    ensures SelectionValid(f) ==> SelectionValid(r)
    ensures e.Pick? ==> IsCategoryId(r.selectedCategory)
    ensures !e.Pick? ==> r.selectedCategory == f.selectedCategory
  {
    match e
    case TypeAmount(t) => f.(amount := t)
    case TypeDescription(t) => f.(description := t)
    case Pick(i) => f.(selectedCategory := Categories[i].id)
  }

  /** The form after a sequence of edits, applied first to last. */
  function ApplyAll(f: ExpenseForm, edits: seq<Edit>): ExpenseForm
    requires forall i :: 0 <= i < |edits| ==> Possible(edits[i])
    decreases |edits|
  {
    if |edits| == 0 then f
    else ApplyAll(Apply(f, edits[0]), edits[1..])
  }

  /** However the user edits the form, the selection stays empty or a
      category id, because it is only ever set from the list. */
  lemma {:induction false} EditsKeepSelectionValid(f: ExpenseForm, edits: seq<Edit>)
    requires SelectionValid(f)
    requires forall i :: 0 <= i < |edits| ==> Possible(edits[i])
    ensures SelectionValid(ApplyAll(f, edits))
    decreases |edits|
  {
    if |edits| > 0 {
      assert Possible(edits[0]);
      EditsKeepSelectionValid(Apply(f, edits[0]), edits[1..]);
    }
  }

  /** An expense record as sent to the backend. */
  datatype Expense = Expense(userId: string, amount: real, category: string, description: string, date: string)

  /** No field of the form is empty; the description is mandatory here. */
  predicate AllFilled(f: ExpenseForm) {
    Filled(f.amount) && Filled(f.description) && Filled(f.selectedCategory)
  }

  /** `handleSubmit`: the form, the amount `parseFloat` read from it
      (`None` for `NaN`), the user's id, the current time as an ISO string,
      and whether the backend created the record. Fields are checked before
      the amount; the first failing check is the one reported. */
  function Submit(f: ExpenseForm, amount: Option<real>, userId: string, now: string, storeOk: bool)
    : (s: Submission<Expense, ExpenseForm>)
    ensures s.outcome == Rejected(MissingField) <==> !AllFilled(f)
    ensures s.outcome == Rejected(InvalidAmount) <==> AllFilled(f) && !PositiveAmount(amount)
    ensures s.outcome != Rejected(InvalidDate)
    ensures s.outcome.Rejected? || s.outcome.StoreFailed? ==> s.form == f
    ensures !s.outcome.Rejected? ==>
              && PositiveAmount(amount)
              && s.outcome.record.amount == amount.value
              && s.outcome.record.category == f.selectedCategory
              && s.outcome.record.description == f.description
              && s.outcome.record.userId == userId
              && s.outcome.record.date == now
    ensures s.outcome.Created? <==> !s.outcome.Rejected? && storeOk
    ensures s.outcome.Created? ==> s.form == EmptyForm
    ensures SelectionValid(f) ==> SelectionValid(s.form)
  {
    if !AllFilled(f) then
      Submission(Rejected(MissingField), f)
    else if !PositiveAmount(amount) then
      Submission(Rejected(InvalidAmount), f)
    else
      var expense := Expense(userId, amount.value, f.selectedCategory, f.description, now);
      if storeOk then Submission(Created(expense), EmptyForm)
      else Submission(StoreFailed(expense), f)
  }

  /** Every expense the form asks for, starting from the empty form and
      after any edits, carries one of the eight category ids. */
  lemma {:induction false} SubmittedCategoryIsListed(
    edits: seq<Edit>, amount: Option<real>, userId: string, now: string, storeOk: bool)
    requires forall i :: 0 <= i < |edits| ==> Possible(edits[i])
    requires !Submit(ApplyAll(EmptyForm, edits), amount, userId, now, storeOk).outcome.Rejected?
    ensures IsCategoryId(Submit(ApplyAll(EmptyForm, edits), amount, userId, now, storeOk).outcome.record.category)
  {
    EditsKeepSelectionValid(EmptyForm, edits);
  }
}
