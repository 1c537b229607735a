/**
 * The welfare-schemes page (client/src/pages/schemes.tsx): the category and
 * eligibility filter over the fetched schemes, and the category badge colour.
 */
module SchemesPage {
  import opened Wrappers
  import opened Text
  import opened Seqs
  import opened Schema

  /** An empty category matches everything, any other value only that exact category. */
  predicate CategoryMatch(s: Scheme, category: string) {
    category == "" || s.data.category == category
  }

  /** An empty eligibility text matches everything, otherwise it must occur in the eligibility, ignoring ASCII case. */
  predicate EligibilityMatch(s: Scheme, eligibility: string) {
    eligibility == "" || Contains(Lower(s.data.eligibility), Lower(eligibility))
  }

  function SchemeMatches(category: string, eligibility: string): Scheme -> bool {
    (s: Scheme) => CategoryMatch(s, category) && EligibilityMatch(s, eligibility)
  }

  /** `filteredSchemes`: `schemes?.filter(..) || []`, so no schemes while the query has no data. */
  function FilteredSchemes(schemes: Option<seq<Scheme>>, category: string, eligibility: string): (r: seq<Scheme>)
    ensures schemes.None? ==> r == []
    ensures schemes.Some? ==> IsSubsequence(r, schemes.value)
    ensures schemes.Some? ==> forall s :: s in r <==>
      s in schemes.value && (category == "" || s.data.category == category)
      && (eligibility == "" || Contains(Lower(s.data.eligibility), Lower(eligibility)))
  {
    if schemes.None? then []
    else
      FilterMembership(SchemeMatches(category, eligibility), schemes.value);
      FilterIsSubsequence(SchemeMatches(category, eligibility), schemes.value);
      Filter(SchemeMatches(category, eligibility), schemes.value)
  }

  /** With both filters empty ("All Categories", "All Personnel") every scheme is kept, in order. */
  lemma NoFiltersKeepAll(schemes: seq<Scheme>)
    ensures FilteredSchemes(Some(schemes), "", "") == schemes
  {
    FilterKeepsAll(SchemeMatches("", ""), schemes);
  }

  const COLOR_EDUCATION := "bg-army-green-100 text-army-green-800"
  const COLOR_MEDICAL := "bg-red-100 text-red-800"
  const COLOR_HOUSING := "bg-blue-100 text-blue-800"
  const COLOR_FAMILY := "bg-purple-100 text-purple-800"
  const COLOR_OTHER := "bg-gray-100 text-gray-800"

  /** `getCategoryColor`: one colour per known category, gray for any other. */
  function CategoryColor(category: string): (c: string)
    ensures category !in {"education", "medical", "housing", "family"} <==> c == COLOR_OTHER
    ensures c in {COLOR_EDUCATION, COLOR_MEDICAL, COLOR_HOUSING, COLOR_FAMILY, COLOR_OTHER}
  {
    match category
    case "education" => COLOR_EDUCATION
    case "medical" => COLOR_MEDICAL
    case "housing" => COLOR_HOUSING
    case "family" => COLOR_FAMILY
    case _ => COLOR_OTHER
  }

  /** Different known categories get different colours. */
  lemma KnownCategoriesDistinct(a: string, b: string)
    requires a in {"education", "medical", "housing", "family"} && b in {"education", "medical", "housing", "family"}
    requires a != b
    ensures CategoryColor(a) != CategoryColor(b)
  {
  }
}
