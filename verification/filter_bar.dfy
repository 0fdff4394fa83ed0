/** The filter bar of the main marketplace (components/marketplace/FilterBar.tsx):
    each control produces a new filter record for the page, and the search
    box keeps its own text. */
module FilterBar {
  import opened Common
  import opened CatalogTypes
  import opened RootCatalog

  const NoFilters: Filters := Filters(None, None, None, None, None)

  /** `Boolean(category || minRating || sortBy || search)`; tags do not count. */
  predicate HasActiveFilters(f: Filters) {
    StringOn(f.category) || RatingOn(f.minRating) || f.sortBy.Some? || StringOn(f.search)
  }

  /** handleCategoryChange: "all" clears the category. */
  function WithCategory(f: Filters, value: string): (r: Filters)
    ensures r.category == (if value == "all" then None else Some(value))
    ensures r.(category := f.category) == f
  {
    f.(category := if value == "all" then None else Some(value))
  }

  /** handleMinRatingChange; `parsed` is the number the option's text reads as. */
  function WithMinRating(f: Filters, value: string, parsed: real): (r: Filters)
    ensures r.minRating == (if value == "all" then None else Some(parsed))
    ensures r.(minRating := f.minRating) == f
  {
    f.(minRating := if value == "all" then None else Some(parsed))
  }

  /** handleSortChange. */
  function WithSort(f: Filters, sortBy: SortBy): (r: Filters)
    ensures r.sortBy == Some(sortBy)
    ensures r.(sortBy := f.sortBy) == f
  {
    f.(sortBy := Some(sortBy))
  }

  /** The filter record of handleSearchChange: an empty box clears it. */
  function WithSearch(f: Filters, value: string): (r: Filters)
    ensures r.search == (if value == "" then None else Some(value))
    ensures r.(search := f.search) == f
  {
    f.(search := if value == "" then None else Some(value))
  }

  /** Clearing the category and rating badges of a record whose other
      fields are off leaves no active filter. */
  lemma BadgesClearCategoryAndRating(f: Filters, parsed: real)
    requires f.sortBy.None? && !StringOn(f.search)
    ensures !HasActiveFilters(WithMinRating(WithCategory(f, "all"), "all", parsed))
  {
  }

  /** The sort badge's close button chooses "popularity", which is itself
      a chosen sort: the filters stay active and the badge stays shown. */
  lemma SortBadgeStays(f: Filters)
    ensures HasActiveFilters(WithSort(f, Popularity))
    ensures WithSort(f, Popularity).sortBy.Some?
  {
  }

  /** What the sort badge's close button evidently means: no sort chosen. */
  function WithoutSort(f: Filters): (r: Filters)
    ensures r.sortBy.None?
    ensures r.(sortBy := f.sortBy) == f
  {
    f.(sortBy := None)
  }

  /** Closing every shown badge then leaves only the search active. */
  lemma ClosingBadgesLeavesSearch(f: Filters, parsed: real)
    ensures var g := WithoutSort(WithMinRating(WithCategory(f, "all"), "all", parsed));
      HasActiveFilters(g) <==> StringOn(f.search)
  {
  }

  class FilterBarState {
    /** The record the page holds, last produced by this bar. */
    var filters: Filters
    var searchValue: string

    constructor(filters: Filters)
      ensures this.filters == filters
      ensures searchValue == (if filters.search.Some? then filters.search.value else "")
    {
      this.filters := filters;
      searchValue := if filters.search.Some? then filters.search.value else "";
    }

    /** handleSearchChange: the box shows the text as typed. */
    method HandleSearchChange(value: string)
      modifies this
      ensures searchValue == value && filters == WithSearch(old(filters), value)
      ensures StringOn(filters.search) <==> value != ""
    {
      searchValue := value;
      filters := WithSearch(filters, value);
    }

    method HandleCategoryChange(value: string)
      modifies this`filters
      ensures filters == WithCategory(old(filters), value)
    {
      filters := WithCategory(filters, value);
    }

    method HandleSortChange(sortBy: SortBy)
      modifies this`filters
      ensures filters == WithSort(old(filters), sortBy)
    {
      filters := WithSort(filters, sortBy);
    }

    method HandleMinRatingChange(value: string, parsed: real)
      modifies this`filters
      ensures filters == WithMinRating(old(filters), value, parsed)
    {
      filters := WithMinRating(filters, value, parsed);
    }

    /** The close button of the category badge. */
    method CloseCategoryBadge()
      modifies this`filters
      ensures filters == old(filters).(category := None)
    {
      filters := WithCategory(filters, "all");
    }

    /** The close button of the rating badge. */
    method CloseRatingBadge()
      modifies this`filters
      ensures filters == old(filters).(minRating := None)
    {
      filters := WithMinRating(filters, "all", 0.0);
    }

    /** The close button of the sort badge, with the corrected rule: the
        sort is removed rather than set to "popularity" (SortBadgeStays). */
    method CloseSortBadge()
      modifies this`filters
      ensures filters == WithoutSort(old(filters))
      ensures !HasActiveFilters(filters) <==> !StringOn(filters.category) && !RatingOn(filters.minRating) && !StringOn(filters.search)
    {
      filters := WithoutSort(filters);
    }

    /** clearFilters: an empty record and an empty box. */
    method ClearFilters()
      modifies this
      ensures filters == NoFilters && searchValue == ""
      ensures !HasActiveFilters(filters)
    {
      searchValue := "";
      filters := NoFilters;
    }
  }
}
