/** The Postulants page: the full list of applicants fetched once, the
    search term and ten filters the user sets, and the filtered list,
    item count, page count and current page that the filter effect
    recomputes from them. */
module Postulants {
  import opened Js
  import opened Text
  import opened Listing
  import opened Volunteers
  import opened Filtering

  /** The ten filter names, all unset: the initial state and `clearFilters`. */
  function ClearedFilters(): (f: Filters)
    ensures f.Keys == {"typeVolunteer", "area", "status", "university", "year",
                       "month", "wasVoluntary", "quechuaLevel", "howDidYouFindUs", "schoolGrades"}
    ensures forall k :: Selected(f, k) == ""
  {
    map["typeVolunteer" := "", "area" := "", "status" := "", "university" := "",
        "year" := "", "month" := "", "wasVoluntary" := "", "quechuaLevel" := "",
        "howDidYouFindUs" := "", "schoolGrades" := ""]
  }

  /** Year and month of a `datePostulation` string, as the page reads them
      through `new Date(...)`. Date parsing is outside the model. */
  datatype DateParts = DateParts(year: string -> string, month: string -> string)

  /** The page's filter effect, block by block: the search, then type,
      area, status, university, year, month, "was a volunteer", Quechua
      level, "how did you find us" and school grades. */
  function PostulantRules(dates: DateParts): (rules: seq<Rule>)
    ensures |rules| == 11 && rules[0] == ByText
    ensures forall i :: 1 <= i < |rules| ==> !rules[i].ByText?
  {
    [ByText, ByTypeVolunteer, ByArea, ByStatus, ByUniversity, ByYear(dates.year),
     ByMonth(dates.month), ByWasVoluntary, ByQuechuaLevel, ByHowDidYouFindUs, BySchoolGrades]
  }

  class PostulantsPage {
    /** The page's filter blocks, fixed when the page is created. */
    const rules: seq<Rule>
    var allPostulants: seq<Postulant>
    var filteredPostulants: seq<Postulant>
    var searchTerm: string
    var loading: bool
    var error: Option<string>
    var currentPage: int
    var totalPages: int
    var totalItems: int
    var filters: Filters

    /** The view agrees with the loaded list, the term and the filters. */
    ghost predicate Synced()
      reads this
    {
      && filteredPostulants == Shortlist(allPostulants, rules, searchTerm, filters)
      && totalItems == |filteredPostulants|
      && totalPages == PageCount(|filteredPostulants|)
    }

    /** The page's initial state. */
    constructor (dates: DateParts)
      ensures rules == PostulantRules(dates)
      ensures allPostulants == [] && filteredPostulants == [] && searchTerm == ""
      ensures loading && error == None
      ensures currentPage == 1 && totalPages == 1 && totalItems == 0
      ensures filters == ClearedFilters()
    {
      rules := PostulantRules(dates);
      allPostulants, filteredPostulants, searchTerm := [], [], "";
      loading, error := true, None;
      currentPage, totalPages, totalItems := 1, 1, 0;
      filters := ClearedFilters();
    }

    /** `fetchPostulants` once the request settles: `response` is the data
      of a successful request, `None` a failed one. */
    method FetchPostulants(response: Option<seq<Postulant>>)
      modifies this
      ensures !loading
      ensures response.Some? ==>
        && allPostulants == filteredPostulants == response.value
        && totalItems == |response.value| && totalPages == PageCount(|response.value|)
        && error == None
      ensures response.None? ==>
        && error == Some("Error al cargar los postulantes")
        && allPostulants == old(allPostulants) && filteredPostulants == old(filteredPostulants)
        && totalItems == old(totalItems) && totalPages == old(totalPages)
      ensures searchTerm == old(searchTerm) && filters == old(filters) && currentPage == old(currentPage)
    {
      loading := true;
      error := None;
      match response {
        case Some(data) =>
          allPostulants := data;
          filteredPostulants := data;
          totalItems := |data|;
          totalPages := PageCount(|data|);
        case None =>
          error := Some("Error al cargar los postulantes");
      }
      loading := false;
    }

    /** The filter effect, run whenever the term, the filters or the loaded
      list change: stores the shortlist, its size and page count, and goes
      back to page 1. */
    method Refilter()
      modifies this`filteredPostulants, this`totalItems, this`totalPages, this`currentPage
      ensures Synced()
      ensures currentPage == 1
    {
      var filtered := ApplyFilters(allPostulants, rules, searchTerm, filters);
      filteredPostulants := filtered;
      totalItems := |filtered|;
      totalPages := PageCount(|filtered|);
      currentPage := 1;
    }

    /** `handleSearch`: stores the term as typed. */
    method HandleSearch(value: string)
      modifies this`searchTerm
      ensures searchTerm == value
    {
      searchTerm := value;
    }

    /** `handleFilterChange`: sets one filter, every other one unchanged. */
    method HandleFilterChange(filterName: string, value: string)
      modifies this`filters
      ensures filters == old(filters)[filterName := value]
      ensures Selected(filters, filterName) == value
      ensures forall k :: k != filterName ==> Selected(filters, k) == Selected(old(filters), k)
    {
      filters := filters[filterName := value];
    }

    /** `clearFilters`: all ten filters back to "". */
    method ClearFilters()
      modifies this`filters
      ensures filters == ClearedFilters()
    {
      filters := ClearedFilters();
    }

    /** `handlePageChange`. */
    method HandlePageChange(page: int)
      modifies this`currentPage
      ensures currentPage == page
    {
      currentPage := page;
    }

    /** The table body: the current page of the filtered list. */
    function VisibleRows(): (rows: seq<Postulant>)
      reads this
      ensures currentPage >= 1 ==> |rows| <= ItemsPerPage
      ensures 1 <= currentPage <= PageCount(|filteredPostulants|) ==> |rows| >= 1
      ensures forall i :: 0 <= i < |rows| ==> rows[i] in filteredPostulants
    {
      PageRows(filteredPostulants, currentPage)
    }

    /** `getUniqueUniversities`: each truthy university over the loaded
      list, once. */
    function UniqueUniversities(): (r: seq<JsValue>)
      reads this
      ensures NoDuplicates(r)
      ensures forall v :: v in r <==> Truthy(v) && exists p :: p in allPostulants && OptionalStr(p.programsUniversity) == v
    {
      UniqueValues(allPostulants, ProgramsUniversity)
    }

    /** `getUniqueHowDidYouFindUs`: each non-empty answer over the loaded
      list, once. */
    function UniqueHowDidYouFindUs(): (r: seq<JsValue>)
      reads this
      ensures NoDuplicates(r)
      ensures forall v :: v in r <==> Truthy(v) && exists p :: p in allPostulants && Str(p.howDidYouFindUs) == v
    {
      UniqueValues(allPostulants, HowDidYouFindUs)
    }
  }
}
