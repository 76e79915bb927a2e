# Nivesh Saathi decision rules in Dafny

Nivesh Saathi is a React Native personal-finance tracker (expenses, income,
savings goals) with an English and a Hindi UI. Most of its code is UI. This
project models the decisions the UI code itself makes:

- **The three "add" forms** (`AddGoalModal`, `AddExpenseModal`,
  `AddIncomeModal`). Each submit handler is a pure function. Its inputs are
  the form state, the amount `parseFloat` produced, and whether the backend
  accepted the record. It returns the outcome together with the form state
  afterwards. The outcome is one rejection (the first failing check), an
  attempted record the backend refused, or the created record.
- **The goal date check.** `/^\d{4}-\d{2}-\d{2}$/` is modelled both as a
  positional predicate and as an anchored match of single-character atoms.
  The two are proved equal.
- **Goal progress** (`GoalCard`). The percentage is capped at 100 and the
  remaining amount is floored at 0, both over reals. The days-left label
  is modelled too, including a `NaN` count.
- **Lookup tables with fallbacks.** These are the expense category icons
  and colours, the income source styles and names, and the translation
  lookup `t`. Each card table is proved to agree with the form table it
  mirrors.
- **The language preference** (`LanguageContext`). It starts as English,
  adopts a stored value only when that value is exactly 'en' or 'hi', and
  `setLanguage` changes the language in memory only after the value has been
  persisted.

Each source file becomes one module: `AddGoalModal`, `AddExpenseModal`,
`AddIncomeModal`, `GoalCard`, `ExpenseCard`, `IncomeCard` and
`LanguageContext`. Two more modules support them. `Common` holds `Option`
(where `None` stands for `NaN`), `Language`, `Rejection`, `Outcome` and
`Submission`. `Decimal` renders `${n}` for non-negative integers and reads
a rendering back.

The goal card divides by the target without a guard. Goal records come
from two places. The add-goal form creates only positive targets, as
`GoalCard.NewGoalStartsEmpty` shows. The goals screen (app/(tabs)/goals.tsx:60-74)
checks only that the target text is non-empty, so it can store a zero,
negative or `NaN` target. Its "Add Money" prompt (app/(tabs)/goals.tsx:188-196)
adds any parsed number, negative ones included, to the saved amount. That
screen draws its goals itself, with the same unguarded formula
(app/(tabs)/goals.tsx:99-101); no screen in the code renders the goal card.
`GoalCard.Progress` therefore accepts every non-zero target and any saved
amount, negative ones included.

The model leaves these things to parameters:
- the signed-in user's id;
- the clock (`Date.now()` in milliseconds and `toISOString()` as a string);
- the day count a card computes from the target date, as an `Option<int>`;
- whether the backend accepted a record, or storage accepted a read or write (booleans).

## Model

| member | source | states |
|---|---|---|
| AddGoalModal.Submit | components/AddGoalModal.tsx:29-83 | Empty title, amount or date is reported as a missing field. A non-number or non-positive amount is reported only when every field is filled. A badly shaped date is reported only when the fields and the amount pass. Otherwise the goal carries the parsed amount, current amount 0, and the title and date unchanged. The form is cleared only after a create the backend accepted, and is kept on a rejection or a backend failure. |
| AddGoalModal.MatchesPositionwise | components/AddGoalModal.tsx:48 | An anchored match of single-character atoms holds exactly when the string has the pattern's length and each character matches the atom at its position. |
| AddGoalModal.DateRegexIsDateShape | components/AddGoalModal.tsx:48-49 | The date regex accepts a string iff it has exactly 10 characters, with ASCII digits at positions 0-3, 5-6 and 8-9 and '-' at positions 4 and 7. |
| AddGoalModal.DateShapeExamples | components/AddGoalModal.tsx:47-55 | There is no calendar check: "2024-13-45" passes. "2024-1-5", "2024/12/31" and a date with a trailing space are refused. |
| AddGoalModal.NoSecondCreateFromClearedForm | components/AddGoalModal.tsx:30-71 | Right after a successful create, a second press is refused as a missing field because the form was cleared. |
| AddExpenseModal.Apply | components/AddExpenseModal.tsx:133-140 | A tap sets the selection to a listed category id. Typing leaves the selection alone. No edit can make a valid selection invalid. |
| AddExpenseModal.EditsKeepSelectionValid | components/AddExpenseModal.tsx:37-140 | After any sequence of edits, starting from a valid form, the selected category is still empty or one of the eight ids. |
| AddExpenseModal.Submit | components/AddExpenseModal.tsx:40-83 | An empty amount, description or category is reported as a missing field; the description is mandatory. A non-number or non-positive amount is reported only when all fields are filled. No date check exists. The expense carries the parsed amount and the selected category and description unchanged. The form is cleared only after an accepted create, and the selection invariant is kept. |
| AddExpenseModal.SubmittedCategoryIsListed | components/AddExpenseModal.tsx:40-71 | Every expense the form sends, after any edits from the empty form, has one of the eight category ids. |
| AddIncomeModal.SourceName | components/AddIncomeModal.tsx:89-99 | The six known source ids get their name in the current language, which differs from the id. Any other string is returned unchanged. |
| AddIncomeModal.SourceNamesCoverSources | components/AddIncomeModal.tsx:90-97 | The names object has an entry for exactly the six ids of the source list. |
| AddIncomeModal.Apply | components/AddIncomeModal.tsx:134-141 | A tap sets the selection to a listed source id. Typing leaves the selection alone. The selection invariant is kept. |
| AddIncomeModal.EditsKeepSelectionValid | components/AddIncomeModal.tsx:34-141 | After any sequence of edits, starting from a valid form, the selected source is still empty or one of the six ids. |
| AddIncomeModal.BeforeFirstT | components/AddIncomeModal.tsx:65 | `split('T')[0]` is a prefix of the timestamp and contains no 'T'. It is followed by a 'T' unless it is the whole string, so it ends at the first 'T'. |
| AddIncomeModal.StoredDateOfIsoTimestamp | components/AddIncomeModal.tsx:65 | For a timestamp shaped `<10-char date>T<time>`, the stored date is exactly the 10-character date. |
| AddIncomeModal.IncomeIdsDistinct | components/AddIncomeModal.tsx:60 | `income_${Date.now()}` ids are equal iff the clock readings are equal, and the reading can be recovered from the id. |
| AddIncomeModal.Submit | components/AddIncomeModal.tsx:38-87 | An empty amount or source is reported as a missing field; the description is optional. A non-number or non-positive amount is reported only after that. The record carries the parsed amount and the source, the description (or '' when none), the clock-derived id, and the timestamp's date part. The form is cleared only after an accepted create. |
| AddIncomeModal.SubmittedSourceIsListed | components/AddIncomeModal.tsx:39-66 | Every income the form sends, after any edits from the empty form, has one of the six source ids. |
| GoalCard.Progress | components/GoalCard.tsx:15 | For any non-zero target, progress is at most 100 and is either 100 or current/target·100. For a positive target it is exactly 100 iff current ≥ target, is current/target·100 below the target, and is never negative for a non-negative current. For a negative target it is exactly 100 iff current ≤ target. |
| GoalCard.NegativeTargetProgress | components/GoalCard.tsx:15 | With a target of −100, a saved 50 shows as −50%, and a saved −100 shows as 100%. |
| GoalCard.Remaining | components/GoalCard.tsx:16 | Remaining is never negative. It equals target − current when current ≤ target, and is 0 iff current ≥ target. |
| GoalCard.ProgressMonotone | components/GoalCard.tsx:15 | For a fixed positive target, progress does not decrease as current grows. |
| GoalCard.CompleteIffNothingRemains | components/GoalCard.tsx:15-16 | For a positive target, progress = 100 ⇔ remaining = 0 ⇔ current ≥ target. |
| GoalCard.RemainingIsUncoveredShare | components/GoalCard.tsx:15-16 | remaining = target·(100 − progress)/100 for every current amount. |
| GoalCard.NewGoalStartsEmpty | components/AddGoalModal.tsx:38-67 | A goal the form created has a positive target, so the card's division is defined. It shows 0% with the whole target remaining. |
| GoalCard.DaysLabel | components/GoalCard.tsx:26-28 | The label is "Target reached!" exactly when the day count is not positive or is `NaN`. Otherwise it is the count's decimal numeral followed by " days left". |
| GoalCard.DaysLabelShowsCount | components/GoalCard.tsx:27 | The numeral in a days-left label reads back as the day count. |
| Decimal.FromNat | components/GoalCard.tsx:27 | `${n}` for an integer 0 ≤ n < 10^21 is a non-empty string of ASCII digits with no leading zero. It has one digit exactly when n < 10. |
| Decimal.ValueOfFromNat | components/GoalCard.tsx:27 | Reading a rendered number back gives the number. |
| Decimal.FromNatInjective | components/AddIncomeModal.tsx:60 | Different numbers render differently. |
| ExpenseCard.Icon | components/ExpenseCard.tsx:37 | A known category gets its table icon. Any other category gets 'category'. |
| ExpenseCard.Color | components/ExpenseCard.tsx:38 | A known category gets its table colour. Any other category gets '#F7DC6F'. |
| ExpenseCard.TablesCoverCategories | components/ExpenseCard.tsx:14-34 | Both card tables have keys for exactly the eight ids of the form's category list. |
| ExpenseCard.UnknownCategoryLooksLikeOther | components/ExpenseCard.tsx:22-38 | A category outside the list gets the same icon and colour as 'other', which are the fallbacks. |
| ExpenseCard.CardAgreesWithForm | components/ExpenseCard.tsx:14-34 | For each of the eight categories, the card's icon and colour equal the form's. |
| ExpenseCard.UpperAscii | components/ExpenseCard.tsx:48 | `toUpperCase` maps a-z to A-Z and leaves every other character alone. |
| ExpenseCard.CategoryLabel | components/ExpenseCard.tsx:48 | The label has the input's length. Its first character is upper-cased and the rest is unchanged, so an empty input gives an empty label. |
| ExpenseCard.CategoryLabelIdempotent | components/ExpenseCard.tsx:48 | Capitalising a label again leaves it unchanged. |
| ExpenseCard.LabelOfCapitalised | components/ExpenseCard.tsx:48 | A name that differs from a lower-case id only in its capitalised first letter is that id's label. |
| ExpenseCard.LabelIsEnglishName | components/ExpenseCard.tsx:48 | For each of the eight categories, the card's label equals the form's English name. |
| ExpenseCard.FormNameAgainstCardLabel | components/AddExpenseModal.tsx:150 | The form shows `nameHi` in Hindi and `name` otherwise. For each of the eight categories, that name equals the card's capitalised-id label iff the language is English. |
| IncomeCard.StyleFor | components/IncomeCard.tsx:58 | A known source gets its configured icon and colour. Any other source gets the 'other' style. |
| IncomeCard.SourceName | components/IncomeCard.tsx:28-38 | A key of the names object gets its localised name, which differs from the key. Any other string is returned unchanged. |
| IncomeCard.SourceNameAgreesWithForm | components/IncomeCard.tsx:28-38 | The card's `getSourceName` and the form's give the same result for every string and both languages. |
| IncomeCard.StylesCoverSources | components/IncomeCard.tsx:16-23 | The style table has keys for exactly the six ids of the form's source list. |
| IncomeCard.StyleAgreesWithForm | components/IncomeCard.tsx:16-23 | For each of the six sources, the card's icon and colour equal the form's. |
| IncomeCard.UnknownSourceLooksLikeOther | components/IncomeCard.tsx:37-58 | A source outside the list is drawn in the 'other' style and named by its raw string. |
| IncomeCard.ShowsDescription | components/IncomeCard.tsx:69-73 | The description row is shown iff a description is present and non-empty. |
| IncomeCard.CreatedIncomeShowsTypedDescription | components/IncomeCard.tsx:69-73 | For an income the form created, the row is shown iff a description was typed into the form. |
| LanguageContext.EntriesAreFilled | contexts/LanguageContext.tsx:12-113 | Every entry of both tables is non-empty and differs from its key. |
| LanguageContext.Translate | contexts/LanguageContext.tsx:144-146 | `t(key)` is the current language's entry when the key exists, and the key itself otherwise. It returns the key iff the key is unknown. |
| LanguageContext.TablesShareKeys | contexts/LanguageContext.tsx:12-113 | The English and Hindi tables have the same keys, so `t` falls back for a key in one language iff it does in the other. |
| LanguageContext.RupeeSymbol | contexts/LanguageContext.tsx:61-111 | 'rupees' is '₹' in both languages. |
| LanguageContext.ParseLanguage | contexts/LanguageContext.tsx:127 | A stored string names a language iff it is exactly 'en' or 'hi', and then it is that language's code. |
| LanguageContext.ParseCode | contexts/LanguageContext.tsx:127-137 | Parsing a language's persisted code gives the language back. |
| LanguageContext.LoadLanguage | contexts/LanguageContext.tsx:124-133 | The language changes only on a successful read of that language's exact code. A stored 'en' or 'hi' is adopted. A failed read, a missing value or any other string leaves the language as it was. |
| LanguageContext.Mount | contexts/LanguageContext.tsx:118-133 | The provider comes up in Hindi iff the read succeeds and the stored value is exactly 'hi'. Otherwise it comes up in English. |
| LanguageContext.SetLanguage | contexts/LanguageContext.tsx:135-142 | A successful write sets both the memory and the storage to the new language. A failed write leaves both unchanged. |
| LanguageContext.SavedLanguageSurvivesRestart | contexts/LanguageContext.tsx:118-142 | After `setLanguage(l)` succeeds, a restart with a successful read comes up in `l`. |

## Left out

- Backend and authentication calls (`blink.auth.me`, `blink.db.*.create`): each is a `storeOk` flag plus a `userId` parameter. The error and success alerts, their texts and `console.error` are not modelled.
- `parseFloat`: the parsed amount is an independent `Option<real>` input (`None` for `NaN`). Prefix parsing such as "12abc" is not modelled, and neither is the `Infinity` that `parseFloat("Infinity")` returns and the amount check lets through, since reals have no infinity.
- `Date.now()`, `new Date()`, `toISOString()` and the day-count computation at components/GoalCard.tsx:17 depend on the clock and the time zone. They are inputs.
- Locale formatting (`toLocaleString`, `Intl.NumberFormat`, `toLocaleDateString`), `toFixed(1)` and the progress-bar width are not modelled. Amounts are exact reals, not IEEE doubles.
- The `loading` flag that disables the submit button during a request is not modelled. The race between `loadLanguage` and an early `setLanguage` is not modelled either: the model treats each call as atomic.
- Alert titles that read `t.error` (a property of the function `t`, not a lookup) are not modelled. The outside-provider throw of `useLanguage`, styles and layout are also left out.
- GoalCard.Progress: requires a non-zero target. With a zero target JavaScript gives `Infinity` (shown as 100), `-Infinity` or `NaN`, and reals have none of these. A `NaN` target, which the goals screen can store, is not modelled either.
- The goals screen (app/(tabs)/goals.tsx) is not part of this model beyond the facts about its goal creation, its "Add Money" prompt and its own copy of the progress formula stated above.
- Decimal.FromNat: matches `${n}` only for n < 10^21. From 10^21 up JavaScript writes exponent form (such as "1e+21"), and above 2^53 the double no longer holds every digit. Clock readings in milliseconds and day counts stay far below both bounds.
- AddIncomeModal.SourceName: treats the names object as holding only its own keys. In JavaScript, a key inherited from `Object.prototype` (for example "constructor") would return a function rather than the id.
- IncomeCard.SourceName: same as AddIncomeModal.SourceName; inherited `Object.prototype` keys are not modelled.
- IncomeCard.StyleFor: inherited `Object.prototype` keys are not modelled.
- ExpenseCard.Icon: inherited `Object.prototype` keys are not modelled.
- ExpenseCard.Color: inherited `Object.prototype` keys are not modelled.
- LanguageContext.Translate: inherited `Object.prototype` keys are not modelled.
- ExpenseCard.UpperAscii: upper-cases ASCII letters only. JavaScript's `toUpperCase` also maps other letters, some to more than one character, such as 'ß' to "SS". All category ids are ASCII.
- ExpenseCard.CategoryLabel: inherits the ASCII-only upper-casing of ExpenseCard.UpperAscii.
- components/InvestmentCard.tsx and app/_layout.tsx are not part of this model: they hold link opening, badges, the authentication subscription and splash gating.
- The investment screen's recommendation rules and the screens' monthly totals are not part of this model. They live in the tab screens, outside the components and context modelled here.
