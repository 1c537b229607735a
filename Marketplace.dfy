/**
 * The resource-sharing marketplace page (client/src/pages/marketplace.tsx):
 * the sample listings, the search, category and location filter, and the
 * counts on the tabs.
 */
module Marketplace {
  import opened Text
  import opened Seqs

  datatype Item = Item(id: int, title: string, description: string, category: string, kind: string,
                       price: string, location: string, postedBy: string, postedAt: string, status: string)

  const SAMPLE_ITEMS: seq<Item> := [
    Item(1, "Complete NCERT Mathematics Set (Class 6-12)",
         "Well-maintained textbooks for children's education. All books in excellent condition with minimal highlighting.",
         "books", "available", "Free", "Delhi Cantonment", "Major Suresh Kumar", "2 days ago", "Available"),
    Item(2, "Power Tools Kit - Complete Set",
         "Professional grade tools including drill machine, angle grinder, and hand tools. Perfect for home repairs.",
         "equipment", "available", "\U{20B9}500/month", "Pune Cantonment", "Capt. Amit Singh", "1 week ago", "Available"),
    Item(3, "2BHK Flat - Family Accommodation",
         "Spacious 2BHK near military base with parking. Available for temporary posting families.",
         "housing", "available", "\U{20B9}15,000/month", "Jaipur Cantonment", "Col. Rajesh Verma", "3 days ago", "Available"),
    Item(4, "Engineering Textbooks Needed",
         "Looking for mechanical engineering textbooks for my son's college. Willing to buy or borrow.",
         "books", "needed", "Negotiable", "Mumbai", "Mrs. Kavita Sharma", "5 days ago", "Looking")]

  /** The search box, the category select (initially empty) and the location box. */
  datatype Filters = Filters(search: string, category: string, location: string)

  const NO_FILTERS := Filters("", "", "")

  /** The select's "All Categories" entry. */
  const ALL_CATEGORIES := "all"

  /** Title or description contains the search text, ignoring ASCII case; an empty search matches everything. */
  predicate MatchesSearch(item: Item, search: string) {
    Contains(Lower(item.title), Lower(search)) || Contains(Lower(item.description), Lower(search))
  }

  /** The location contains the location text, ignoring ASCII case, when one is given. */
  predicate MatchesLocation(item: Item, location: string) {
    location == "" || Contains(Lower(item.location), Lower(location))
  }

  /** As written: an empty category matches everything, any other value only that exact category. */
  predicate MatchesCategory(item: Item, category: string) {
    category == "" || item.category == category
  }

  predicate Matches(item: Item, f: Filters) {
    MatchesSearch(item, f.search) && MatchesCategory(item, f.category) && MatchesLocation(item, f.location)
  }

  function MatchesFilters(f: Filters): Item -> bool {
    (item: Item) => Matches(item, f)
  }

  /** `filteredItems` as written. */
  function FilteredItems(items: seq<Item>, f: Filters): seq<Item> {
    Filter(MatchesFilters(f), items)
  }

  /** The kept items are the matching ones, in their original order. */
  lemma FilteredItemsSpec(items: seq<Item>, f: Filters)
    ensures forall x :: x in FilteredItems(items, f) <==>
      && x in items
      && MatchesSearch(x, f.search)
      && (f.category == "" || x.category == f.category)
      && (f.location == "" || Contains(Lower(x.location), Lower(f.location)))
    ensures IsSubsequence(FilteredItems(items, f), items)
  {
    FilterMembership(MatchesFilters(f), items);
    FilterIsSubsequence(MatchesFilters(f), items);
  }

  /** The empty string occurs in every string. */
  lemma ContainsEmpty(hay: string)
    ensures Contains(hay, "")
  {
  }

  /** With all three filters empty every item is kept. */
  lemma NoFiltersKeepAll(items: seq<Item>)
    ensures FilteredItems(items, NO_FILTERS) == items
  {
    forall i | 0 <= i < |items| ensures MatchesFilters(NO_FILTERS)(items[i]) {
      ContainsEmpty(Lower(items[i].title));
    }
    FilterKeepsAll(MatchesFilters(NO_FILTERS), items);
  }

  /** Search and location ignore ASCII case: texts that lower-case alike filter alike. */
  lemma CaseInsensitive(items: seq<Item>, f: Filters, search: string, location: string)
    requires Lower(search) == Lower(f.search)
    requires Lower(location) == Lower(f.location)
    requires location == "" <==> f.location == ""
    ensures FilteredItems(items, f.(search := search, location := location)) == FilteredItems(items, f)
  {
    FilterExtensional(MatchesFilters(f.(search := search, location := location)), MatchesFilters(f), items);
  }

  /** As written, "All Categories" keeps only items whose category is literally "all". */
  lemma AllCategoryAsWritten(items: seq<Item>, f: Filters)
    requires f.category == ALL_CATEGORIES
    ensures forall x :: x in FilteredItems(items, f) ==> x.category == ALL_CATEGORIES
  {
    FilteredItemsSpec(items, f);
  }

  /** So choosing "All Categories" hides every sample listing. */
  lemma AllCategoryHidesSamples()
    ensures FilteredItems(SAMPLE_ITEMS, Filters("", ALL_CATEGORIES, "")) == []
  {
    var f := Filters("", ALL_CATEGORIES, "");
    forall i | 0 <= i < |SAMPLE_ITEMS| ensures !MatchesFilters(f)(SAMPLE_ITEMS[i]) {
    }
    FilterKeepsNone(MatchesFilters(f), SAMPLE_ITEMS);
  }

  // ----- the intended category filter -----

  /** Intended: the empty category and "all" both match everything. */
  predicate MatchesCategoryIntended(item: Item, category: string) {
    category == "" || category == ALL_CATEGORIES || item.category == category
  }

  function MatchesFiltersIntended(f: Filters): Item -> bool {
    (item: Item) => MatchesSearch(item, f.search) && MatchesCategoryIntended(item, f.category) && MatchesLocation(item, f.location)
  }

  /** `filteredItems` with "All Categories" treated as no category filter. */
  function FilteredItemsIntended(items: seq<Item>, f: Filters): seq<Item> {
    Filter(MatchesFiltersIntended(f), items)
  }

  /** "All Categories" filters exactly like no category at all, and a real category as before. */
  lemma AllCategoryIntended(items: seq<Item>, f: Filters)
    ensures FilteredItemsIntended(items, f.(category := ALL_CATEGORIES)) == FilteredItems(items, f.(category := ""))
    ensures f.category != ALL_CATEGORIES ==> FilteredItemsIntended(items, f) == FilteredItems(items, f)
  {
    FilterExtensional(MatchesFiltersIntended(f.(category := ALL_CATEGORIES)), MatchesFilters(f.(category := "")), items);
    if f.category != ALL_CATEGORIES {
      FilterExtensional(MatchesFiltersIntended(f), MatchesFilters(f), items);
    }
  }

  /** With the intended filter, "All Categories" and no other filter shows every sample listing. */
  lemma AllCategoryShowsSamples()
    ensures FilteredItemsIntended(SAMPLE_ITEMS, Filters("", ALL_CATEGORIES, "")) == SAMPLE_ITEMS
  {
    AllCategoryIntended(SAMPLE_ITEMS, NO_FILTERS);
    assert NO_FILTERS.(category := ALL_CATEGORIES) == Filters("", ALL_CATEGORIES, "");
    assert NO_FILTERS.(category := "") == NO_FILTERS;
    NoFiltersKeepAll(SAMPLE_ITEMS);
  }

  // ----- tab counts -----

  predicate IsAvailable(item: Item) { item.kind == "available" }

  predicate IsNeeded(item: Item) { item.kind == "needed" }

  datatype TabCounts = TabCounts(all: nat, available: nat, needed: nat)

  /** The counts on the All, Available and Needed tabs; available and needed together never exceed all. */
  function Counts(filtered: seq<Item>): (c: TabCounts)
    ensures c.available + c.needed <= c.all == |filtered|
  {
    FilterDisjointCount(IsAvailable, IsNeeded, filtered);
    TabCounts(|filtered|, |Filter(IsAvailable, filtered)|, |Filter(IsNeeded, filtered)|)
  }
}
