/** The client-side filtering both volunteer list pages apply to the records
    they hold: a free-text search followed by exact-match filters, each one
    an `if` block that narrows the list only when its filter is set. */
module Filtering {
  import opened Js
  import opened Text
  import opened Listing
  import opened Volunteers

  /** A page's `filters` state: filter name to selected value. */
  type Filters = map<string, string>

  /** `filters[key]`; a key that is not there reads as `undefined`, which the
      effect treats exactly like "" (no constraint). */
  function Selected(f: Filters, key: string): string
  {
    if key in f then f[key] else ""
  }

  /** One `if` block of a filter effect. The year and month blocks read the
      year and month of `datePostulation` through `new Date(...)`
      (`getFullYear()` and `getMonth() + 1`, rendered with `toString()`);
      date parsing is outside the model, so they carry the extractor. */
  datatype Rule =
    | ByText
    | ByTypeVolunteer
    | ByArea
    | ByStatus
    | ByUniversity
    | ByYear(yearOf: string -> string)
    | ByMonth(monthOf: string -> string)
    | ByWasVoluntary
    | ByQuechuaLevel
    | ByHowDidYouFindUs
    | BySchoolGrades

  /** The `filters` entry an exact-match block reads. */
  function FilterName(r: Rule): string
    requires !r.ByText?
  {
    match r
    case ByTypeVolunteer => "typeVolunteer"
    case ByArea => "area"
    case ByStatus => "status"
    case ByUniversity => "university"
    case ByYear(_) => "year"
    case ByMonth(_) => "month"
    case ByWasVoluntary => "wasVoluntary"
    case ByQuechuaLevel => "quechuaLevel"
    case ByHowDidYouFindUs => "howDidYouFindUs"
    case BySchoolGrades => "schoolGrades"
  }

  /** The block's guard: the search runs when the term has a character
      `trim` keeps; a filter block runs when its filter is set (a missing
      filter counts as unset). */
  function Active(term: string, f: Filters, r: Rule): (a: bool)
    ensures r.ByText? ==> (a <==> exists i :: 0 <= i < |term| && !IsJsWhitespace(term[i]))
    ensures !r.ByText? ==> (a <==> FilterName(r) in f && f[FilterName(r)] != "")
  {
    if r.ByText? then !IsBlank(term) else Selected(f, FilterName(r)) != ""
  }

  /** The callback the block passes to `filter`. The search matches the term
      as typed (it is trimmed only for the guard); the area block compares
      the id's decimal rendering; the "was a volunteer" block compares the
      flag with whether the selected value is "true". */
  function Keeps(p: Postulant, term: string, f: Filters, r: Rule): (k: bool)
    ensures r.ByTypeVolunteer? ==> (k <==> FieldValue(p, TypeVolunteer) == Str(Selected(f, "typeVolunteer")))
    ensures r.ByStatus? ==> (k <==> FieldValue(p, StatusVolunteer) == Str(Selected(f, "status")))
    ensures r.ByUniversity? ==> (k <==> FieldValue(p, ProgramsUniversity) == Str(Selected(f, "university")))
    ensures r.ByQuechuaLevel? ==> (k <==> FieldValue(p, QuechuaLevel) == Str(Selected(f, "quechuaLevel")))
    ensures r.ByHowDidYouFindUs? ==> (k <==> FieldValue(p, HowDidYouFindUs) == Str(Selected(f, "howDidYouFindUs")))
    ensures r.BySchoolGrades? ==> (k <==> FieldValue(p, SchoolGrades) == Str(Selected(f, "schoolGrades")))
    ensures r.ByWasVoluntary? ==> (k <==> FieldValue(p, WasVoluntary) == Bool(Selected(f, "wasVoluntary") == "true"))
  {
    match r
    case ByText => MatchesText(p, term)
    case ByTypeVolunteer => p.typeVolunteer == Selected(f, "typeVolunteer")
    case ByArea => IntToString(p.idPostulationArea) == Selected(f, "area")
    case ByStatus => p.statusVolunteer == Selected(f, "status")
    case ByUniversity => p.programsUniversity == Some(Selected(f, "university"))
    case ByYear(yearOf) => yearOf(p.datePostulation) == Selected(f, "year")
    case ByMonth(monthOf) => monthOf(p.datePostulation) == Selected(f, "month")
    case ByWasVoluntary => p.wasVoluntary == (Selected(f, "wasVoluntary") == "true")
    case ByQuechuaLevel => p.quechuaLevel == Some(Selected(f, "quechuaLevel"))
    case ByHowDidYouFindUs => p.howDidYouFindUs == Selected(f, "howDidYouFindUs")
    case BySchoolGrades => p.schoolGrades == Some(Selected(f, "schoolGrades"))
  }

  function KeepFn(term: string, f: Filters, r: Rule): Postulant -> bool
  {
    (p: Postulant) => Keeps(p, term, f, r)
  }

  /** A record passes a block: the block is inactive or its callback
      accepts the record. */
  predicate Criterion(p: Postulant, term: string, f: Filters, r: Rule)
  {
    !Active(term, f, r) || Keeps(p, term, f, r)
  }

  /** A record passes the first `k` blocks of `rules`. */
  predicate PassesFirst(p: Postulant, rules: seq<Rule>, term: string, f: Filters, k: nat)
  {
    forall i :: 0 <= i < k && i < |rules| ==> Criterion(p, term, f, rules[i])
  }

  function PassesFirstFn(rules: seq<Rule>, term: string, f: Filters, k: nat): Postulant -> bool
  {
    (p: Postulant) => PassesFirst(p, rules, term, f, k)
  }

  /** A record passes a page's filters: it matches the search term (or the
      term is blank) and every set filter. */
  predicate Matches(p: Postulant, rules: seq<Rule>, term: string, f: Filters)
  {
    PassesFirst(p, rules, term, f, |rules|)
  }

  /** The records a page shows: the loaded records that pass every block,
      in their order. */
  function Shortlist(all: seq<Postulant>, rules: seq<Rule>, term: string, f: Filters): seq<Postulant>
  {
    Filter(all, PassesFirstFn(rules, term, f, |rules|))
  }

  /** One `if` block of the effect: whether or not the block is active, the
      list afterwards is the records passing the first `k + 1` blocks. */
  lemma {:induction false} Narrow(all: seq<Postulant>, rules: seq<Rule>, term: string, f: Filters, k: nat)
    requires k < |rules|
    ensures var before := Filter(all, PassesFirstFn(rules, term, f, k));
            (if Active(term, f, rules[k]) then Filter(before, KeepFn(term, f, rules[k])) else before)
            == Filter(all, PassesFirstFn(rules, term, f, k + 1))
  {
    var before, after := PassesFirstFn(rules, term, f, k), PassesFirstFn(rules, term, f, k + 1);
    var r := rules[k];
    assert forall p :: after(p) == (before(p) && Criterion(p, term, f, r)) by {
      forall p ensures after(p) == (before(p) && Criterion(p, term, f, r)) {
        if before(p) && Criterion(p, term, f, r) {
          forall i | 0 <= i < k + 1 && i < |rules| ensures Criterion(p, term, f, rules[i]) {
            if i < k { assert PassesFirst(p, rules, term, f, k); }
          }
        }
      }
    }
    if Active(term, f, r) {
      FilterFuse(all, before, KeepFn(term, f, r), after);
    } else {
      FilterCongruent(all, before, after);
    }
  }

  /** The body of a filter effect: starting from the loaded list, each
      active `if` block in turn replaces the list by the records its
      callback accepts. The result is the shortlist. */
  method ApplyFilters(all: seq<Postulant>, rules: seq<Rule>, term: string, f: Filters)
      returns (filtered: seq<Postulant>)
    ensures filtered == Shortlist(all, rules, term, f)
  {
    filtered := all;
    assert filtered == Filter(all, PassesFirstFn(rules, term, f, 0)) by {
      FilterKeepsAll(all, PassesFirstFn(rules, term, f, 0));
    }
    for k := 0 to |rules|
      invariant filtered == Filter(all, PassesFirstFn(rules, term, f, k))
    {
      var rule := rules[k];
      if Active(term, f, rule) {
        filtered := Filter(filtered, KeepFn(term, f, rule));
      }
      Narrow(all, rules, term, f, k);
    }
  }

  /** Filtering never adds or reorders: the shown list is a subsequence of
      the loaded one. */
  lemma ShortlistIsSubsequence(all: seq<Postulant>, rules: seq<Rule>, term: string, f: Filters)
    ensures IsSubsequence(Shortlist(all, rules, term, f), all)
    ensures |Shortlist(all, rules, term, f)| <= |all|
  {
    FilterIsSubsequence(all, PassesFirstFn(rules, term, f, |rules|));
  }

  /** A record is shown exactly when it is loaded and passes every block. */
  lemma ShortlistMembers(all: seq<Postulant>, rules: seq<Rule>, term: string, f: Filters, p: Postulant)
    ensures p in Shortlist(all, rules, term, f) <==> p in all && Matches(p, rules, term, f)
  {
    var s := Shortlist(all, rules, term, f);
    FilterMembers(all, PassesFirstFn(rules, term, f, |rules|));
    if p in s {
      var i :| 0 <= i < |s| && s[i] == p;
    }
    if p in all && Matches(p, rules, term, f) {
      var i :| 0 <= i < |all| && all[i] == p;
    }
  }

  /** With a blank (empty or whitespace-only) term and no filter set, every
      loaded record is shown, in order. */
  lemma ShortlistUnconstrained(all: seq<Postulant>, rules: seq<Rule>, term: string, f: Filters)
    requires AllWhitespace(term)
    requires forall k :: k in f ==> f[k] == ""
    ensures Shortlist(all, rules, term, f) == all
  {
    FilterKeepsAll(all, PassesFirstFn(rules, term, f, |rules|));
  }

  /** Setting one more filter only removes records: the shortlist under the
      extended filters is a subsequence of the one before. */
  lemma {:induction false} SetFilterNarrows(all: seq<Postulant>, rules: seq<Rule>, term: string,
                                            f: Filters, name: string, value: string)
    requires Selected(f, name) == ""
    ensures IsSubsequence(Shortlist(all, rules, term, f[name := value]), Shortlist(all, rules, term, f))
  {
    var g := f[name := value];
    var wide, narrow := PassesFirstFn(rules, term, f, |rules|), PassesFirstFn(rules, term, g, |rules|);
    var both := (p: Postulant) => wide(p) && narrow(p);
    forall p ensures narrow(p) == (wide(p) && narrow(p)) {
      if narrow(p) {
        forall i | 0 <= i < |rules| ensures Criterion(p, term, f, rules[i]) {
          assert Criterion(p, term, g, rules[i]);
          if !rules[i].ByText? && FilterName(rules[i]) == name {
            assert !Active(term, f, rules[i]);
          } else if !rules[i].ByText? {
            assert Selected(g, FilterName(rules[i])) == Selected(f, FilterName(rules[i]));
          }
        }
      }
    }
    FilterFuse(all, wide, narrow, narrow);
    FilterIsSubsequence(Filter(all, wide), narrow);
  }

  /** The area block compares `idPostulationArea.toString()` with the
      selected value, so selecting the rendering of an id keeps exactly the
      records of that area. */
  lemma AreaFilterSelectsId(p: Postulant, term: string, f: Filters, area: int)
    requires Selected(f, "area") == IntToString(area)
    ensures Keeps(p, term, f, ByArea) <==> p.idPostulationArea == area
  {
    if IntToString(p.idPostulationArea) == IntToString(area) {
      IntToStringInjective(p.idPostulationArea, area);
    }
  }

  /** The "was a volunteer" block keeps the records whose flag equals
      whether the selected value is the string "true": any other non-empty
      value selects the records whose flag is false. */
  lemma WasVoluntaryFilter(p: Postulant, term: string, f: Filters)
    requires Selected(f, "wasVoluntary") != ""
    ensures Criterion(p, term, f, ByWasVoluntary) <==> (p.wasVoluntary <==> Selected(f, "wasVoluntary") == "true")
  {
  }
}
