/**
 * The courses page: the category filter followed by a case-insensitive text
 * search, the page's two pieces of filter state, and the result-count wording.
 */
module CoursesPage {
  import opened Seqs
  import opened Text
  import opened CourseCard
  import opened Catalog

  /** The search test: the lowered query occurs in the lowered title or description. */
  predicate Matches(query: string, c: Course) {
    Contains(Lower(c.title), Lower(query)) || Contains(Lower(c.description), Lower(query))
  }

  /** The courses of `cs` that match the query, in their order in `cs`. */
  function Search(cs: seq<Course>, query: string): (r: seq<Course>)
    ensures IsSubseq(r, cs)
    ensures forall i :: 0 <= i < |r| ==> r[i] in cs && Matches(query, r[i])
    ensures forall c :: c in cs && Matches(query, c) ==> c in r
    ensures forall c {:trigger Occurrences(r, c)} :: Occurrences(r, c) == if Matches(query, c) then Occurrences(cs, c) else 0
  {
    var p := (c: Course) => Matches(query, c);
    FilterIsSubseq(cs, p);
    Filter(cs, p)
  }

  /** `filteredCourses`: the selected category's courses that match the query, in catalog order. */
  function FilteredCourses(category: string, query: string): (r: seq<Course>)
    ensures IsSubseq(r, CoursesByCategory(category))
    ensures forall i :: 0 <= i < |r| ==> r[i] in CoursesByCategory(category) && Matches(query, r[i])
    ensures forall c :: c in CoursesByCategory(category) && Matches(query, c) ==> c in r
  {
    Search(CoursesByCategory(category), query)
  }

  /** Whatever the filters, the page shows an ordered selection of the catalog. */
  lemma FilteredWithinCatalog(category: string, query: string)
    ensures IsSubseq(FilteredCourses(category, query), Courses)
    ensures forall c :: c in FilteredCourses(category, query) ==> c in Courses
  {
    CoursesByCategoryIsSubseq(category);
    IsSubseqTransitive(FilteredCourses(category, query), CoursesByCategory(category), Courses);
    IsSubseqMembers(FilteredCourses(category, query), Courses);
  }

  /** The empty query keeps every course of the selected category. */
  lemma EmptyQueryKeepsCategory(category: string)
    ensures FilteredCourses(category, "") == CoursesByCategory(category)
  {
    forall c | c in CoursesByCategory(category)
      ensures Matches("", c)
    {
      ContainsEmpty(Lower(c.title));
    }
    FilterKeepsAll(CoursesByCategory(category), (c: Course) => Matches("", c));
  }

  /** Queries that agree after lowering give identical results. */
  lemma CaseInsensitive(category: string, q1: string, q2: string)
    requires Lower(q1) == Lower(q2)
    ensures FilteredCourses(category, q1) == FilteredCourses(category, q2)
  {
    FilterAgrees(CoursesByCategory(category), (c: Course) => Matches(q1, c), (c: Course) => Matches(q2, c));
  }

  /** Lengthening a query only narrows the result: each course it keeps the shorter query keeps too. */
  lemma NarrowingQuery(category: string, q: string, q': string)
    requires Contains(Lower(q'), Lower(q))
    ensures IsSubseq(FilteredCourses(category, q'), FilteredCourses(category, q))
  {
    forall c | c in CoursesByCategory(category) && Matches(q', c)
      ensures Matches(q, c)
    {
      if Contains(Lower(c.title), Lower(q')) {
        ContainsTransitive(Lower(q), Lower(q'), Lower(c.title));
      } else {
        ContainsTransitive(Lower(q), Lower(q'), Lower(c.description));
      }
    }
    FilterNarrows(CoursesByCategory(category), (c: Course) => Matches(q', c), (c: Course) => Matches(q, c));
  }

  /** The cleared state (wildcard category, empty query) shows the entire catalog in order. */
  lemma ClearedFiltersShowCatalog()
    ensures FilteredCourses(AllCategories, "") == Courses
  {
    EmptyQueryKeepsCategory(AllCategories);
  }

  /** The unit word after the result count: plural unless exactly one course is shown. */
  function ResultNoun(count: nat): (r: string)
    ensures r == "course" <==> count == 1
    ensures r == "courses" <==> count != 1
  {
    "course" + (if count != 1 then "s" else "")
  }

  /** The page's filter state: the selected category pill and the search box text. */
  class CatalogFilters {
    var selectedCategory: string
    var searchQuery: string

    constructor ()
      ensures selectedCategory == AllCategories && searchQuery == ""
    {
      selectedCategory := AllCategories;
      searchQuery := "";
    }

    /** The courses the grid shows for the current state. */
    function Shown(): (r: seq<Course>)
      reads this
      ensures r == FilteredCourses(selectedCategory, searchQuery)
      ensures IsSubseq(r, Courses)
      ensures forall i :: 0 <= i < |r| ==> r[i] in Courses && Matches(searchQuery, r[i])
    {
      FilteredWithinCatalog(selectedCategory, searchQuery);
      FilteredCourses(selectedCategory, searchQuery)
    }

    /** A category pill click. */
    method SelectCategory(category: string)
      modifies this
      ensures selectedCategory == category && searchQuery == old(searchQuery)
    {
      selectedCategory := category;
    }

    /** A keystroke in the search box replaces the query. */
    method SetSearchQuery(query: string)
      modifies this
      ensures searchQuery == query && selectedCategory == old(selectedCategory)
    {
      searchQuery := query;
    }

    /**
     * "Clear Filters", a button shown only when no course matches: back to the
     * wildcard and the empty query, which shows the whole catalog.
     */
    method ClearFilters()
      requires Shown() == []
      modifies this
      ensures selectedCategory == AllCategories && searchQuery == ""
      ensures Shown() == Courses
    {
      selectedCategory := AllCategories;
      searchQuery := "";
      var shown := Shown();
      assert shown == FilteredCourses(AllCategories, "");
      ClearedFiltersShowCatalog();
    }
  }
}
