/**
  How an income card presents an income record: the icon and colour of its
  source (with the 'other' style for unknown sources), the localised source
  name, and whether the description row is shown.
 */
module IncomeCard {
  import opened Common
  import AddIncomeModal

  /** The icon and colour of one source. */
  datatype SourceStyle = SourceStyle(icon: string, color: string)

  /** `sourceConfig`. */
  const SourceConfig: map<string, SourceStyle> := map[
    "salary" := SourceStyle("briefcase", "#2E7D32"),
    "overtime" := SourceStyle("time", "#FF6F00"),
    "bonus" := SourceStyle("gift", "#1976D2"),
    "freelance" := SourceStyle("laptop", "#7B1FA2"),
    "rental" := SourceStyle("home", "#388E3C"),
    "other" := SourceStyle("cash", "#5D4037")
  ]

  /** `sourceConfig[income.source] || sourceConfig.other`; an entry is an
      object and so never falsy. */
  function StyleFor(source: string): (r: SourceStyle)
    ensures source in SourceConfig ==> r == SourceConfig[source]
    ensures source !in SourceConfig ==> r == SourceConfig["other"]
  {
    if source in SourceConfig then SourceConfig[source] else SourceConfig["other"]
  }

  /** The `sourceNames` object this card builds for itself. */
  function SourceNames(lang: Language): map<string, string> {
    map[
      "salary" := Localised(lang, "Salary", "वेतन"),
      "overtime" := Localised(lang, "Overtime", "ओवरटाइम"),
      "bonus" := Localised(lang, "Bonus", "बोनस"),
      "freelance" := Localised(lang, "Freelance", "फ्रीलांस"),
      "rental" := Localised(lang, "Rental", "किराया"),
      "other" := Localised(lang, "Other", "अन्य")
    ]
  }

  /** The card's `getSourceName`: the localised name of a known source, and
      the stored source string itself otherwise. */
  function SourceName(lang: Language, source: string): (r: string)
    ensures source in SourceNames(lang) ==> r == SourceNames(lang)[source] && r != source
    ensures source !in SourceNames(lang) ==> r == source
  {
    var names := SourceNames(lang);
    if source in names && Filled(names[source]) then names[source] else source
  }

  /** The card names every source exactly as the form does, in both
      languages and for every string, known or not. */
  lemma SourceNameAgreesWithForm(lang: Language, source: string)
    ensures SourceName(lang, source) == AddIncomeModal.SourceName(lang, source)
  {
    AddIncomeModal.SourceNamesCoverSources(lang, source);
    assert SourceNames(lang) == AddIncomeModal.SourceNames(lang);
  }

  /** The style table knows exactly the six sources the form offers. */
  lemma StylesCoverSources(source: string)
    ensures source in SourceConfig <==> AddIncomeModal.IsSourceId(source)
  {
    AddIncomeModal.SourceNamesCoverSources(En, source);
  }

  /** For each of the form's sources the card uses the form's icon and colour. */
  lemma StyleAgreesWithForm(i: nat)
    requires i < |AddIncomeModal.IncomeSources|
    ensures StyleFor(AddIncomeModal.IncomeSources[i].id).icon == AddIncomeModal.IncomeSources[i].icon
    ensures StyleFor(AddIncomeModal.IncomeSources[i].id).color == AddIncomeModal.IncomeSources[i].color
  {
  }

  /** An income whose source is not one of the six is drawn like one of
      source 'other', and named by its raw source string. */
  lemma UnknownSourceLooksLikeOther(lang: Language, source: string)
    requires !AddIncomeModal.IsSourceId(source)
    ensures StyleFor(source) == StyleFor("other")
    ensures SourceName(lang, source) == source
  {
    StylesCoverSources(source);
    AddIncomeModal.SourceNamesCoverSources(lang, source);
  }

  /** `income.description ? <row> : null`: the row is shown when the record
      has a description and it is not the empty string. */
  function ShowsDescription(description: Option<string>): (shown: bool)
    ensures shown ==> description.Some? && |description.value| > 0
    ensures description.Some? && |description.value| > 0 ==> shown
  {
    match description
    case Some(d) => Filled(d)
    case None => false
  }

  /** For an income the form created, the description row is shown exactly
      when a description was typed into the form. */
  lemma CreatedIncomeShowsTypedDescription(
    f: AddIncomeModal.IncomeForm, amount: Option<real>, nowMillis: nat, nowIso: string,
    userId: string, storeOk: bool)
    requires AddIncomeModal.Submit(f, amount, nowMillis, nowIso, userId, storeOk).outcome.Created?
    ensures ShowsDescription(Some(AddIncomeModal.Submit(f, amount, nowMillis, nowIso, userId, storeOk)
                                    .outcome.record.description))
            <==> f.description != ""
  {
  }
}
