/**
 * The "all applications" view: the conjunctive search/status/platform/
 * modality filter, ten-per-page pagination with its page clamps, the
 * filter state with its resets, and the salary summary of each row.
 */
module AllApplications {
  import opened Wrappers
  import opened Database
  import opened Seqs
  import opened Text

  const ItemsPerPage: nat := 10

  /** The filter state: a search text and three selects, where `None` is the "all" option. */
  datatype Filters = Filters(
    query: string,
    status: Option<Status>,
    platform: Option<Platform>,
    modality: Option<LocationType>)

  const NoFilters := Filters("", None, None, None)

  /** The lower-cased query occurs in the lower-cased company or position. */
  predicate MatchesSearch(app: Application, query: string) {
    Contains(ToLower(app.companyName), ToLower(query)) || Contains(ToLower(app.positionTitle), ToLower(query))
  }

  /** The four conditions of the filter, each satisfied by its "all" option. */
  predicate Matches(app: Application, f: Filters) {
    && MatchesSearch(app, f.query)
    && (f.status.None? || app.status == f.status.value)
    && (f.platform.None? || app.platform == PlatformName(f.platform.value))
    && (f.modality.None? || app.locationType == Some(f.modality.value))
  }

  function MatchesFilters(f: Filters): Application -> bool {
    (app: Application) => Matches(app, f)
  }

  /** `filteredApplications`: the applications passing all four conditions, in list order. */
  function FilteredApplications(apps: seq<Application>, f: Filters): (r: seq<Application>)
    ensures |r| <= |apps|
    ensures forall a :: a in r <==> a in apps && Matches(a, f)
  {
    Filter(apps, MatchesFilters(f))
  }

  /** Filtering keeps relative order: it distributes over concatenation. */
  lemma FilteredConcat(a: seq<Application>, b: seq<Application>, f: Filters)
    ensures FilteredApplications(a + b, f) == FilteredApplications(a, f) + FilteredApplications(b, f)
  {
    FilterConcat(a, b, MatchesFilters(f));
  }

  lemma ToLowerEmpty()
    ensures ToLower("") == ""
  {
  }

  /** The search ignores the case of the query. */
  lemma SearchIgnoresQueryCase(app: Application, query: string)
    ensures MatchesSearch(app, ToLower(query)) == MatchesSearch(app, query)
  {
    ToLowerIdempotent(query);
  }

  /** Accented capitals fold too: "telefó" finds "TELEFÓNICA". */
  lemma AccentedSearchMatches(app: Application)
    requires app.companyName == "TELEF\U{D3}NICA"
    ensures MatchesSearch(app, "telef\U{F3}")
  {
    var name := ToLower(app.companyName);
    assert name[..6] == "telef\U{F3}";
    assert ToLower("telef\U{F3}") == "telef\U{F3}";
    assert OccursAt(name, "telef\U{F3}", 0);
  }

  /** With an empty search and every select on "all", every application is shown, in order. */
  lemma NoFiltersKeepsAll(apps: seq<Application>)
    ensures FilteredApplications(apps, NoFilters) == apps
  {
    ToLowerEmpty();
    forall i | 0 <= i < |apps| ensures MatchesFilters(NoFilters)(apps[i]) {
      ContainsEmpty(ToLower(apps[i].companyName));
    }
    FilterAll(apps, MatchesFilters(NoFilters));
  }

  /** `hasActiveFilters` is false exactly when the filters are the cleared ones. */
  function HasActiveFilters(f: Filters): (active: bool)
    ensures !active <==> f == NoFilters
  {
    f.query != "" || f.status.Some? || f.platform.Some? || f.modality.Some?
  }

  /** `Math.ceil(n / ITEMS_PER_PAGE)`: the fewest pages of ten that hold `n` items. */
  function TotalPages(n: nat): (pages: nat)
    ensures pages * ItemsPerPage >= n
    ensures pages > 0 ==> (pages - 1) * ItemsPerPage < n
    ensures pages == 0 <==> n == 0
  {
    (n + ItemsPerPage - 1) / ItemsPerPage
  }

  /** `filtered.slice((page - 1) * 10, (page - 1) * 10 + 10)`. */
  function PageItems(filtered: seq<Application>, page: nat): (r: seq<Application>)
    requires page >= 1
    ensures |r| <= ItemsPerPage
    ensures forall k :: 0 <= k < |r| ==>
              (page - 1) * ItemsPerPage + k < |filtered| && r[k] == filtered[(page - 1) * ItemsPerPage + k]
    ensures page <= TotalPages(|filtered|) ==> |r| > 0
    ensures page > TotalPages(|filtered|) ==> r == []
  {
    var start := (page - 1) * ItemsPerPage;
    Slice(filtered, start, start + ItemsPerPage)
  }

  /** Pages 1..k one after another. */
  function FirstPages(filtered: seq<Application>, k: nat): seq<Application> {
    if k == 0 then [] else FirstPages(filtered, k - 1) + PageItems(filtered, k)
  }

  /** The first k pages are the first 10k items (or all of them). */
  lemma {:induction false} FirstPagesArePrefix(filtered: seq<Application>, k: nat)
    ensures FirstPages(filtered, k) == filtered[..Min(k * ItemsPerPage, |filtered|)]
  {
    if k > 0 {
      FirstPagesArePrefix(filtered, k - 1);
      var lo := Min((k - 1) * ItemsPerPage, |filtered|);
      var hi := Min(k * ItemsPerPage, |filtered|);
      var page := PageItems(filtered, k);
      assert |page| == hi - lo;
      assert filtered[..hi] == filtered[..lo] + filtered[lo..hi];
      assert page == filtered[lo..hi];
    }
  }

  /** Every filtered application is on exactly one page: the pages put end to end give the filtered list. */
  lemma PagesCoverFiltered(filtered: seq<Application>)
    ensures FirstPages(filtered, TotalPages(|filtered|)) == filtered
  {
    FirstPagesArePrefix(filtered, TotalPages(|filtered|));
  }

  function Max(a: int, b: int): int {
    if a >= b then a else b
  }

  /**
   * The view's filter and page state.  `currentPage` starts at 1 and no
   * handler takes it below 1; it may exceed the page count when the list
   * shrinks underneath it, in which case the page shown is empty.
   */
  class FilterState {
    var query: string
    var statusFilter: Option<Status>
    var platformFilter: Option<Platform>
    var modalityFilter: Option<LocationType>
    var currentPage: int

    ghost predicate Valid()
      reads this
    {
      currentPage >= 1
    }

    function Current(): Filters
      reads this
    {
      Filters(query, statusFilter, platformFilter, modalityFilter)
    }

    constructor()
      ensures Valid()
      ensures Current() == NoFilters && currentPage == 1
    {
      query, statusFilter, platformFilter, modalityFilter := "", None, None, None;
      currentPage := 1;
    }

    /** Typing in the search box: the new text, back to page 1. */
    method SetSearchQuery(q: string)
      modifies this
      ensures Valid()
      ensures Current() == old(Current()).(query := q) && currentPage == 1
    {
      query := q;
      currentPage := 1;
    }

    /** Choosing a status: the new choice, back to page 1. */
    method SetStatusFilter(s: Option<Status>)
      modifies this
      ensures Valid()
      ensures Current() == old(Current()).(status := s) && currentPage == 1
    {
      statusFilter := s;
      currentPage := 1;
    }

    /** Choosing a platform: the new choice, back to page 1. */
    method SetPlatformFilter(p: Option<Platform>)
      modifies this
      ensures Valid()
      ensures Current() == old(Current()).(platform := p) && currentPage == 1
    {
      platformFilter := p;
      currentPage := 1;
    }

    /** Choosing a modality: the new choice, back to page 1. */
    method SetModalityFilter(m: Option<LocationType>)
      modifies this
      ensures Valid()
      ensures Current() == old(Current()).(modality := m) && currentPage == 1
    {
      modalityFilter := m;
      currentPage := 1;
    }

    /** `clearFilters`: the cleared filters and page 1, after which no filter is active. */
    method ClearFilters()
      modifies this
      ensures Valid()
      ensures Current() == NoFilters && currentPage == 1
      ensures !HasActiveFilters(Current())
    {
      query, statusFilter, platformFilter, modalityFilter := "", None, None, None;
      currentPage := 1;
    }

    /** "Anterior": one page back, never below page 1. */
    method PreviousPage()
      requires Valid()
      modifies this
      ensures Valid()
      ensures currentPage == Max(old(currentPage) - 1, 1)
      ensures Current() == old(Current())
    {
      currentPage := Max(currentPage - 1, 1);
    }

    /**
     * "Siguiente", shown only when there is more than one page: one page
     * forward, never beyond the last page.
     */
    method NextPage(apps: seq<Application>)
      requires Valid()
      requires TotalPages(|FilteredApplications(apps, Current())|) > 1
      modifies this
      ensures Valid()
      ensures currentPage == Min(old(currentPage) + 1, TotalPages(|FilteredApplications(apps, Current())|))
      ensures currentPage <= TotalPages(|FilteredApplications(apps, Current())|)
      ensures Current() == old(Current())
    {
      currentPage := Min(currentPage + 1, TotalPages(|FilteredApplications(apps, Current())|));
    }

    /** A page-number button: the pages offered are 1..totalPages. */
    method GoToPage(apps: seq<Application>, page: int)
      requires 1 <= page <= TotalPages(|FilteredApplications(apps, Current())|)
      modifies this
      ensures Valid()
      ensures currentPage == page && Current() == old(Current())
    {
      currentPage := page;
    }

    /** `paginatedApplications`: the current page of the filtered list. */
    function Shown(apps: seq<Application>): (r: seq<Application>)
      requires Valid()
      reads this
      ensures r == PageItems(FilteredApplications(apps, Current()), currentPage)
      ensures |r| <= ItemsPerPage
      ensures forall a :: a in r ==> a in apps && Matches(a, Current())
    {
      var filtered := FilteredApplications(apps, Current());
      var r := PageItems(filtered, currentPage);
      assert forall a :: a in r ==> a in filtered by {
        forall a | a in r ensures a in filtered {
          var k :| 0 <= k < |r| && r[k] == a;
          assert filtered[(currentPage - 1) * ItemsPerPage + k] == a;
        }
      }
      r
    }
  }

  // ---------------------------------------------------------------------
  // formatSalary
  // ---------------------------------------------------------------------

  /** Which amounts the salary text shows. */
  datatype SalaryShape =
    | Between(min: int, max: int)   // "$min - $max"
    | AtLeast(min: int)             // "$min+"
    | UpTo(max: int)                // "Hasta $max"

  /** A salary text: the amounts, the currency, and the period suffix. */
  datatype SalaryDisplay = SalaryDisplay(shape: SalaryShape, currency: Currency, suffix: string)

  /** A JavaScript-truthy amount: present and not zero. */
  predicate Truthy(amount: Option<int>) {
    amount.Some? && amount.value != 0
  }

  /** `salary_period === "anual" ? "/año" : "/mes"`. */
  function PeriodSuffix(p: Option<Period>): (suffix: string)
    ensures suffix == "/año" <==> p == Some(Anual)
    ensures suffix == "/mes" <==> p != Some(Anual)
  {
    if p == Some(Anual) then "/año" else "/mes"
  }

  /** `salary_currency || "USD"`. */
  function CurrencyOrDefault(c: Option<Currency>): (r: Currency)
    ensures c.Some? ==> r == c.value
    ensures c.None? ==> r == USD
  {
    if c.Some? then c.value else USD
  }

  /**
   * `formatSalary` of the list view: nothing when the salary is marked as
   * not specified or when neither amount is truthy; otherwise the range
   * when both are, "min+" or "Hasta max" when one is.
   */
  function FormatSalary(app: Application): (r: Option<SalaryDisplay>)
    ensures r.None? <==> app.salaryNotSpecified || (!Truthy(app.salaryMin) && !Truthy(app.salaryMax))
    ensures r.Some? ==> r.value.currency == CurrencyOrDefault(app.salaryCurrency)
    ensures r.Some? ==> r.value.suffix == PeriodSuffix(app.salaryPeriod)
    ensures r.Some? ==> (r.value.shape.Between? <==> Truthy(app.salaryMin) && Truthy(app.salaryMax))
    ensures r.Some? ==> (r.value.shape.AtLeast? <==> Truthy(app.salaryMin) && !Truthy(app.salaryMax))
    ensures r.Some? ==> (r.value.shape.UpTo? <==> !Truthy(app.salaryMin) && Truthy(app.salaryMax))
    ensures r.Some? && !r.value.shape.UpTo? ==> r.value.shape.min == app.salaryMin.value
    ensures r.Some? && !r.value.shape.AtLeast? ==> r.value.shape.max == app.salaryMax.value
  {
    if app.salaryNotSpecified then None
    else if !Truthy(app.salaryMin) && !Truthy(app.salaryMax) then None
    else
      var currency := CurrencyOrDefault(app.salaryCurrency);
      var suffix := PeriodSuffix(app.salaryPeriod);
      if Truthy(app.salaryMin) && Truthy(app.salaryMax) then
        Some(SalaryDisplay(Between(app.salaryMin.value, app.salaryMax.value), currency, suffix))
      else if Truthy(app.salaryMin) then
        Some(SalaryDisplay(AtLeast(app.salaryMin.value), currency, suffix))
      else
        Some(SalaryDisplay(UpTo(app.salaryMax.value), currency, suffix))
  }
}
