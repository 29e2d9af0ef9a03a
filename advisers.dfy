/** The AdviserVolunteers page: the approved advisers among the fetched
    applicants, a search term and five filters, and the filtered list, item
    count, page count and current page the filter effect recomputes. */
module Advisers {
  import opened Js
  import opened Listing
  import opened Volunteers
  import opened Filtering

  /** The fetch keeps only accepted advisers. */
  predicate IsApprovedAdviser(p: Postulant)
  {
    p.statusVolunteer == "APPROVED" && p.typeVolunteer == "ADVISER"
  }

  /** The advisers the page loads from a fetched list: only approved
      advisers, each one taken from the response. */
  function ApprovedAdvisers(fetched: seq<Postulant>): (advisers: seq<Postulant>)
    ensures |advisers| <= |fetched|
    ensures forall i :: 0 <= i < |advisers| ==> IsApprovedAdviser(advisers[i]) && advisers[i] in fetched
  {
    FilterMembers(fetched, IsApprovedAdviser);
    Filter(fetched, IsApprovedAdviser)
  }

  /** The loaded list is exactly the approved advisers of the response, in
      response order. */
  lemma ApprovedAdvisersExact(fetched: seq<Postulant>)
    ensures IsSubsequence(ApprovedAdvisers(fetched), fetched)
    ensures forall p :: p in ApprovedAdvisers(fetched) <==> p in fetched && IsApprovedAdviser(p)
  {
    FilterIsSubsequence(fetched, IsApprovedAdviser);
    FilterMembers(fetched, IsApprovedAdviser);
    forall p | p in fetched && IsApprovedAdviser(p) ensures p in ApprovedAdvisers(fetched) {
      var i :| 0 <= i < |fetched| && fetched[i] == p;
    }
  }

  /** The five filter names, all unset: the initial state and `clearFilters`. */
  function ClearedAdviserFilters(): (f: Filters)
    ensures f.Keys == {"area", "university", "quechuaLevel", "howDidYouFindUs", "schoolGrades"}
    ensures forall k :: Selected(f, k) == ""
  {
    map["area" := "", "university" := "", "quechuaLevel" := "", "howDidYouFindUs" := "",
        "schoolGrades" := ""]
  }

  /** The page's filter effect, block by block: the search, then area,
      university, Quechua level, "how did you find us" and school grades. */
  function AdviserRules(): (rules: seq<Rule>)
    ensures |rules| == 6 && rules[0] == ByText
  {
    [ByText, ByArea, ByUniversity, ByQuechuaLevel, ByHowDidYouFindUs, BySchoolGrades]
  }

  /** A filter this page does not offer (type, status, year, month, "was a
      volunteer") has no effect on its list, whatever value it holds. */
  lemma {:induction false} OtherFiltersIgnored(all: seq<Postulant>, term: string, f: Filters, name: string, value: string)
    requires name in {"typeVolunteer", "status", "year", "month", "wasVoluntary"}
    ensures Shortlist(all, AdviserRules(), term, f[name := value]) == Shortlist(all, AdviserRules(), term, f)
  {
    var rules := AdviserRules();
    var g := f[name := value];
    var before, after := PassesFirstFn(rules, term, f, |rules|), PassesFirstFn(rules, term, g, |rules|);
    forall i | 0 <= i < |all| ensures before(all[i]) == after(all[i]) {
      forall j | 1 <= j < |rules| ensures Selected(g, FilterName(rules[j])) == Selected(f, FilterName(rules[j])) {
      }
      assert forall j :: 0 <= j < |rules| ==>
        (Criterion(all[i], term, f, rules[j]) <==> Criterion(all[i], term, g, rules[j]));
    }
    FilterCongruent(all, before, after);
  }

  class AdvisersPage {
    var allAdvisers: seq<Postulant>
    var filteredAdvisers: seq<Postulant>
    var searchTerm: string
    var loading: bool
    var error: Option<string>
    var currentPage: int
    var totalPages: int
    var totalItems: int
    var filters: Filters

    /** The view agrees with the loaded list, the term and the filters. */
    ghost predicate Synced()
      reads this
    {
      && filteredAdvisers == Shortlist(allAdvisers, AdviserRules(), searchTerm, filters)
      && totalItems == |filteredAdvisers|
      && totalPages == PageCount(|filteredAdvisers|)
    }

    /** Every loaded record is an approved adviser. */
    ghost predicate OnlyAdvisers()
      reads this
    {
      forall i :: 0 <= i < |allAdvisers| ==> IsApprovedAdviser(allAdvisers[i])
    }

    /** The page's initial state. */
    constructor ()
      ensures allAdvisers == [] && filteredAdvisers == [] && searchTerm == ""
      ensures loading && error == None
      ensures currentPage == 1 && totalPages == 1 && totalItems == 0
      ensures filters == ClearedAdviserFilters()
      ensures OnlyAdvisers()
    {
      allAdvisers, filteredAdvisers, searchTerm := [], [], "";
      loading, error := true, None;
      currentPage, totalPages, totalItems := 1, 1, 0;
      filters := ClearedAdviserFilters();
    }

    /** `fetchAdvisers` once the request settles: `response` is the data of
      a successful request, `None` a failed one. */
    method FetchAdvisers(response: Option<seq<Postulant>>)
      modifies this
      requires OnlyAdvisers()
      ensures OnlyAdvisers()
      ensures !loading
      ensures response.Some? ==>
        && allAdvisers == filteredAdvisers == ApprovedAdvisers(response.value)
        && totalItems == |allAdvisers| && totalPages == PageCount(|allAdvisers|)
        && error == None
      ensures response.None? ==>
        && error == Some("Error al cargar los voluntarios asesores")
        && allAdvisers == old(allAdvisers) && filteredAdvisers == old(filteredAdvisers)
        && totalItems == old(totalItems) && totalPages == old(totalPages)
      ensures searchTerm == old(searchTerm) && filters == old(filters) && currentPage == old(currentPage)
    {
      loading := true;
      error := None;
      match response {
        case Some(data) =>
          var advisers := ApprovedAdvisers(data);
          FilterMembers(data, IsApprovedAdviser);
          allAdvisers := advisers;
          filteredAdvisers := advisers;
          totalItems := |advisers|;
          totalPages := PageCount(|advisers|);
        case None =>
          error := Some("Error al cargar los voluntarios asesores");
      }
      loading := false;
    }

    /** The filter effect: stores the shortlist of the loaded advisers, its
      size and page count, and goes back to page 1. */
    method Refilter()
      modifies this`filteredAdvisers, this`totalItems, this`totalPages, this`currentPage
      ensures Synced()
      ensures currentPage == 1
    {
      var filtered := ApplyFilters(allAdvisers, AdviserRules(), searchTerm, filters);
      filteredAdvisers := filtered;
      totalItems := |filtered|;
      totalPages := PageCount(|filtered|);
      currentPage := 1;
    }

    /** `handleSearch`: stores the term as typed. */
    method HandleSearch(value: string)
      modifies this`searchTerm
      ensures searchTerm == value
    {
      searchTerm := value;
    }

    /** `handleFilterChange`: sets one filter, every other one unchanged. */
    method HandleFilterChange(filterName: string, value: string)
      modifies this`filters
      ensures filters == old(filters)[filterName := value]
      ensures Selected(filters, filterName) == value
      ensures forall k :: k != filterName ==> Selected(filters, k) == Selected(old(filters), k)
    {
      filters := filters[filterName := value];
    }

    /** `clearFilters`: all five filters back to "". */
    method ClearFilters()
      modifies this`filters
      ensures filters == ClearedAdviserFilters()
    {
      filters := ClearedAdviserFilters();
    }

    /** The pager's `onPageChange`, which is `setCurrentPage`. */
    method HandlePageChange(page: int)
      modifies this`currentPage
      ensures currentPage == page
    {
      currentPage := page;
    }

    /** The table body: the current page of the filtered list. */
    function VisibleRows(): (rows: seq<Postulant>)
      reads this
      ensures currentPage >= 1 ==> |rows| <= ItemsPerPage
      ensures 1 <= currentPage <= PageCount(|filteredAdvisers|) ==> |rows| >= 1
    {
      PageRows(filteredAdvisers, currentPage)
    }

    /** `getUnique(field)`: each truthy value of the field over the loaded
      advisers, once. */
    function GetUnique(field: PostulantKey): (r: seq<JsValue>)
      reads this
      ensures NoDuplicates(r)
      ensures forall v :: v in r <==> Truthy(v) && exists p :: p in allAdvisers && FieldValue(p, field) == v
    {
      UniqueValues(allAdvisers, field)
    }
  }
}
