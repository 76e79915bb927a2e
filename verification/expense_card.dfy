/**
  How an expense card presents a category: an icon and a colour looked up
  by category id with a fallback for unknown ids, and the category id shown
  as a label with its first letter capitalised.
 */
module ExpenseCard {
  import opened Common
  import AddExpenseModal

  /** `categoryIcons`. */
  const CategoryIcons: map<string, string> := map[
    "food" := "restaurant",
    "transport" := "directions-bus",
    "utilities" := "electrical-services",
    "healthcare" := "local-hospital",
    "entertainment" := "movie",
    "shopping" := "shopping-cart",
    "education" := "school",
    "other" := "category"
  ]

  /** `categoryColors`. */
  const CategoryColors: map<string, string> := map[
    "food" := "#FF6B6B",
    "transport" := "#4ECDC4",
    "utilities" := "#45B7D1",
    "healthcare" := "#96CEB4",
    "entertainment" := "#FFEAA7",
    "shopping" := "#DDA0DD",
    "education" := "#98D8C8",
    "other" := "#F7DC6F"
  ]

  /** The icon used for a category the table does not know. */
  const FallbackIcon := "category"

  /** The colour used for a category the table does not know. */
  const FallbackColor := "#F7DC6F"

  /** `categoryIcons[category] || 'category'`. */
  function Icon(category: string): (r: string)
    ensures category in CategoryIcons ==> r == CategoryIcons[category]
    ensures category !in CategoryIcons ==> r == FallbackIcon
  {
    if category in CategoryIcons && Filled(CategoryIcons[category]) then CategoryIcons[category]
    else FallbackIcon
  }

  /** `categoryColors[category] || '#F7DC6F'`. */
  function Color(category: string): (r: string)
    ensures category in CategoryColors ==> r == CategoryColors[category]
    ensures category !in CategoryColors ==> r == FallbackColor
  {
    if category in CategoryColors && Filled(CategoryColors[category]) then CategoryColors[category]
    else FallbackColor
  }

  /** Both tables know exactly the eight categories the form offers. */
  lemma TablesCoverCategories(category: string)
    ensures category in CategoryIcons <==> AddExpenseModal.IsCategoryId(category)
    ensures category in CategoryColors <==> AddExpenseModal.IsCategoryId(category)
  {
    var cs := AddExpenseModal.Categories;
    if AddExpenseModal.IsCategoryId(category) {
      var i :| 0 <= i < |cs| && cs[i].id == category;
    }
    if category in CategoryIcons {
      assert cs[0].id == "food" && cs[1].id == "transport" && cs[2].id == "utilities";
      assert cs[3].id == "healthcare" && cs[4].id == "entertainment" && cs[5].id == "shopping";
      assert cs[6].id == "education" && cs[7].id == "other";
    }
  }

  /** An expense whose category is not one of the eight is drawn like an
      expense of category 'other'. */
  lemma UnknownCategoryLooksLikeOther(category: string)
    requires !AddExpenseModal.IsCategoryId(category)
    ensures Icon(category) == Icon("other") == FallbackIcon
    ensures Color(category) == Color("other") == FallbackColor
  {
    TablesCoverCategories(category);
  }

  /** `toUpperCase` on a single ASCII character. */
  function UpperAscii(c: char): (u: char)
    ensures 'a' <= c <= 'z' ==> 'A' <= u <= 'Z' && u as int - 'A' as int == c as int - 'a' as int
    ensures !('a' <= c <= 'z') ==> u == c
  {
    if 'a' <= c <= 'z' then (c as int - 'a' as int + 'A' as int) as char else c
  }

  /** `category.charAt(0).toUpperCase() + category.slice(1)`. */
  function CategoryLabel(category: string): (r: string)
    ensures |r| == |category|
    ensures |category| > 0 ==> r[0] == UpperAscii(category[0]) && r[1..] == category[1..]
  {
    if |category| == 0 then "" else [UpperAscii(category[0])] + category[1..]
  }

  /** Capitalising a label again changes nothing. */
  lemma CategoryLabelIdempotent(category: string)
    ensures CategoryLabel(CategoryLabel(category)) == CategoryLabel(category)
  {
  }

  /** For each of the form's categories the card uses the same icon and
      colour as the form. */
  lemma CardAgreesWithForm(i: nat)
    requires i < |AddExpenseModal.Categories|
    ensures Icon(AddExpenseModal.Categories[i].id) == AddExpenseModal.Categories[i].icon
    ensures Color(AddExpenseModal.Categories[i].id) == AddExpenseModal.Categories[i].color
  {
  }

  /** A name that differs from a lower-case id only by its capitalised
      first letter is the id's label. */
  lemma LabelOfCapitalised(id: string, name: string)
    requires |id| > 0 && |name| == |id| && 'a' <= id[0] <= 'z'
    requires name[0] as int - 'A' as int == id[0] as int - 'a' as int
    requires forall k :: 1 <= k < |id| ==> name[k] == id[k]
    ensures CategoryLabel(id) == name
  {
    assert name == [name[0]] + name[1..];
  }

  /** For each of the form's categories the card's label is the form's
      English name of that category. */
  lemma LabelIsEnglishName(i: nat)
    requires i < |AddExpenseModal.Categories|
    ensures CategoryLabel(AddExpenseModal.Categories[i].id) == AddExpenseModal.Categories[i].name
  {
    var c := AddExpenseModal.Categories[i];
    LabelOfCapitalised(c.id, c.name);
  }

  /** The form names a category in the chosen language, while the card
      always shows the capitalised id: the two agree in English and never in
      Hindi. */
  lemma FormNameAgainstCardLabel(i: nat, lang: Language)
    requires i < |AddExpenseModal.Categories|
    ensures var c := AddExpenseModal.Categories[i];
            lang == En <==> AddExpenseModal.CategoryName(c, lang) == CategoryLabel(c.id)
  {
    var c := AddExpenseModal.Categories[i];
    LabelIsEnglishName(i);
    if lang == Hi {
      assert c.nameHi[0] != c.name[0];
    }
  }
}
