/**
  The language context: the English and Hindi string tables, the `t(key)`
  lookup, and the language preference that is loaded from and saved to the
  device's key-value storage under the key 'language'.
 */
module LanguageContext {
  import opened Common

  /** The English strings, by key. */
  const English: map<string, string> := map[
    "dashboard" := "Dashboard",
    "expenses" := "Expenses",
    "goals" := "Goals",
    "invest" := "Invest",
    "profile" := "Profile",
    "welcome" := "Welcome",
    "monthlyOverview" := "Monthly Overview",
    "totalExpenses" := "Total Expenses",
    "savings" := "Savings",
    "quickActions" := "Quick Actions",
    "addExpense" := "Add Expense",
    "viewGoals" := "View Goals",
    "addNewExpense" := "Add New Expense",
    "amount" := "Amount",
    "category" := "Category",
    "description" := "Description",
    "food" := "Food",
    "transport" := "Transport",
    "utilities" := "Utilities",
    "entertainment" := "Entertainment",
    "healthcare" := "Healthcare",
    "other" := "Other",
    "savingsGoals" := "Savings Goals",
    "createGoal" := "Create Goal",
    "goalName" := "Goal Name",
    "targetAmount" := "Target Amount",
    "currentAmount" := "Current Amount",
    "investmentRecommendations" := "Investment Recommendations",
    "disclaimer" := "Investment Disclaimer",
    "disclaimerText" := "Investments are subject to market risks. Please read all scheme related documents carefully before investing.",
    "save" := "Save",
    "cancel" := "Cancel",
    "submit" := "Submit",
    "loading" := "Loading...",
    "error" := "Error",
    "success" := "Success",
    "rupees" := "₹"
  ]

  /** The Hindi strings, by key. */
  const Hindi: map<string, string> := map[
    "dashboard" := "डैशबोर्ड",
    "expenses" := "खर्च",
    "goals" := "लक्ष्य",
    "invest" := "निवेश",
    "profile" := "प्रोफाइल",
    "welcome" := "स्वागत",
    "monthlyOverview" := "मासिक अवलोकन",
    "totalExpenses" := "कुल खर्च",
    "savings" := "बचत",
    "quickActions" := "त्वरित कार्य",
    "addExpense" := "खर्च जोड़ें",
    "viewGoals" := "लक्ष्य देखें",
    "addNewExpense" := "नया खर्च जोड़ें",
    "amount" := "राशि",
    "category" := "श्रेणी",
    "description" := "विवरण",
    "food" := "भोजन",
    "transport" := "परिवहन",
    "utilities" := "उपयोगिताएं",
    "entertainment" := "मनोरंजन",
    "healthcare" := "स्वास्थ्य सेवा",
    "other" := "अन्य",
    "savingsGoals" := "बचत लक्ष्य",
    "createGoal" := "लक्ष्य बनाएं",
    "goalName" := "लक्ष्य का नाम",
    "targetAmount" := "लक्षित राशि",
    "currentAmount" := "वर्तमान राशि",
    "investmentRecommendations" := "निवेश सुझाव",
    "disclaimer" := "निवेश अस्वीकरण",
    "disclaimerText" := "निवेश बाजार जोखिमों के अधीन हैं। निवेश से पहले सभी योजना संबंधी दस्तावेजों को ध्यान से पढ़ें।",
    "save" := "सेव करें",
    "cancel" := "रद्द करें",
    "submit" := "जमा करें",
    "loading" := "लोड हो रहा है...",
    "error" := "त्रुटि",
    "success" := "सफलता",
    "rupees" := "₹"
  ]

  /** The table `t` reads for the current language. */
  function Translations(lang: Language): map<string, string> {
    match lang
    case En => English
    case Hi => Hindi
  }

  /** Every entry of both tables is a non-empty string, so the `|| key`
      fallback of `t` is never taken for a key that is present. */
  lemma EntriesAreFilled(lang: Language, key: string)
    requires key in Translations(lang)
    ensures Filled(Translations(lang)[key])
    ensures Translations(lang)[key] != key
  {
  }

  /** `t(key)`: the entry of the current language's table, or the key
      itself when the table has no (truthy) entry for it. */
  function Translate(lang: Language, key: string): (r: string)
    ensures key in Translations(lang) ==> r == Translations(lang)[key]
    ensures key !in Translations(lang) ==> r == key
    ensures r == key <==> key !in Translations(lang)
  {
    var table := Translations(lang);
    if key in table && Filled(table[key]) then
      EntriesAreFilled(lang, key);
      table[key]
    else
      key
  }

  /** The two tables translate exactly the same keys, so a key `t` knows in
      one language it knows in the other, and falls back in neither. */
  lemma TablesShareKeys(key: string)
    ensures key in English <==> key in Hindi
    ensures Translate(En, key) == key <==> Translate(Hi, key) == key
  {
  }

  /** The currency symbol is the same in both languages. */
  lemma RupeeSymbol()
    ensures Translate(En, "rupees") == "\U{20B9}"
    ensures Translate(Hi, "rupees") == "\U{20B9}"
  {
  }

  /** A stored value is adopted only when it is exactly 'en' or 'hi'. */
  function ParseLanguage(s: string): (r: Option<Language>)
    ensures r.Some? <==> s == "en" || s == "hi"
    ensures r.Some? ==> r.value.Code() == s
  {
    if s == "en" then Some(En)
    else if s == "hi" then Some(Hi)
    else None
  }

  /** Every language survives being written as its code and parsed back. */
  lemma ParseCode(lang: Language)
    ensures ParseLanguage(lang.Code()) == Some(lang)
  {
  }

  /** The provider's state: the language in memory, and what the storage
      holds under 'language' (absent, or any string written earlier). */
  datatype Preferences = Preferences(language: Language, stored: Option<string>)

  /** `loadLanguage`: read the stored value; adopt it when it names a
      language; when the read fails (`readOk` false) or the value is absent
      or anything else, keep the current language. */
  function LoadLanguage(p: Preferences, readOk: bool): (r: Preferences)
    ensures r.stored == p.stored
    ensures r.language != p.language ==> readOk && p.stored == Some(r.language.Code())
    ensures readOk && p.stored.Some? && (p.stored.value == "en" || p.stored.value == "hi")
            ==> r.language.Code() == p.stored.value
  {
    if readOk && p.stored.Some? && Filled(p.stored.value) then
      match ParseLanguage(p.stored.value)
      case Some(lang) => p.(language := lang)
      case None => p
    else
      p
  }

  /** The provider as it starts: English in memory, then `loadLanguage`. */
  function Mount(stored: Option<string>, readOk: bool): (r: Preferences)
    ensures r.language == Hi <==> readOk && stored == Some("hi")
    ensures r.language == En <==> !(readOk && stored == Some("hi"))
  {
    LoadLanguage(Preferences(En, stored), readOk)
  }

  /** `setLanguage(lang)`: persist first; only when the write succeeds
      (`writeOk`) does the language in memory change. */
  function SetLanguage(p: Preferences, lang: Language, writeOk: bool): (r: Preferences)
    ensures writeOk ==> r.language == lang && r.stored == Some(lang.Code())
    ensures !writeOk ==> r == p
  {
    if writeOk then Preferences(lang, Some(lang.Code())) else p
  }

  /** A language saved by `setLanguage` is the one the next start of the
      provider comes up with, whatever was there before. */
  lemma SavedLanguageSurvivesRestart(p: Preferences, lang: Language)
    ensures Mount(SetLanguage(p, lang, true).stored, true).language == lang
  {
    ParseCode(lang);
  }
}
