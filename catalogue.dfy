/** The category autocomplete shared by the school-certificate views: typing narrows a fixed
    catalogue to the entries that contain the typed text, ignoring case. */
module Catalogue {
  import opened JsValues
  import Seqs

  /** `category.toLowerCase().includes(value.toLowerCase())` */
  predicate Matches(value: string, category: string)
  {
    Contains(Lower(category), Lower(value))
  }

  /** `filterCategories(value)`: an empty value restores the whole catalogue. */
  function FilterCategories(categories: seq<string>, value: string): seq<string>
  {
    if value == "" then categories else Seqs.Filter(categories, c => Matches(value, c))
  }

  /** The narrowed list keeps, in catalogue order, exactly the entries that match; an empty
      value keeps everything. */
  lemma FilterCategoriesSpec(categories: seq<string>, value: string)
    ensures value == "" ==> FilterCategories(categories, value) == categories
    ensures value != "" ==> forall c :: c in FilterCategories(categories, value) <==> c in categories && Matches(value, c)
    ensures Seqs.IsSubsequence(FilterCategories(categories, value), categories)
  {
    if value == "" {
      Seqs.SubsequenceReflexive(categories);
    } else {
      Seqs.FilterMembers(categories, c => Matches(value, c));
      Seqs.FilterIsSubsequence(categories, c => Matches(value, c));
    }
  }

  /** Typing in upper or lower case narrows the catalogue alike. */
  lemma FilterIgnoresCase(categories: seq<string>, value: string)
    ensures FilterCategories(categories, Lower(value)) == FilterCategories(categories, value)
  {
    LowerIdempotent(value);
    if value != "" {
      assert Lower(value) != "";
      Seqs.FilterCongruent(categories, c => Matches(Lower(value), c), c => Matches(value, c));
    }
  }
}
