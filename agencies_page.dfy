/** The agencies listing page: the filter state, its initial value taken from the
    URL, and the client-side filter over the fetched agencies. */
module AgenciesPage {
  import opened Text
  import opened Wrappers
  import Seqs

  /** An agency as the listing receives it from the agencies API. */
  datatype ListedAgency = ListedAgency(
    id: string,
    name: string,
    location: string,
    rating: real,
    reviewCount: real,
    tags: seq<string>,
    smartMatchScore: int,
    priceRangeMax: real,
    imageUrl: string,
    portfolio: seq<string>)

  datatype Filters = Filters(locations: seq<string>, maxBudget: real, eventTypes: seq<string>, minRating: real)

  /** `INITIAL_FILTERS`. */
  const InitialFilters: Filters := Filters([], 2000000.0, [], 0.0)

  /** The page's filter state: the search box and the sidebar filters. */
  datatype PageState = PageState(searchQuery: string, filters: Filters)

  /** The lower-cased, trimmed search term is contained in the name, the location or
      a tag; an empty or white-space-only query matches every agency. */
  predicate MatchesSearch(a: ListedAgency, searchQuery: string)
    ensures AllSpace(searchQuery) ==> MatchesSearch(a, searchQuery)
  {
    LowerKeepsSpace(searchQuery);
    TrimEmptyIff(Lower(searchQuery));
    var term := Trim(Lower(searchQuery));
    term == [] ||
    Contains(Lower(a.name), term) ||
    Contains(Lower(a.location), term) ||
    exists t :: t in a.tags && Contains(Lower(t), term)
  }

  /** Some selected location is contained in the agency's location, ignoring case.
      No selection passes every agency, and selecting an agency's own location
      passes it. */
  predicate MatchesLocation(a: ListedAgency, f: Filters)
    ensures f.locations == [] ==> MatchesLocation(a, f)
    ensures a.location in f.locations ==> MatchesLocation(a, f)
  {
    ContainsSelf(Lower(a.location));
    f.locations == [] || exists loc :: loc in f.locations && Contains(Lower(a.location), Lower(loc))
  }

  predicate MatchesBudget(a: ListedAgency, f: Filters) {
    a.priceRangeMax <= f.maxBudget
  }

  /** Some tag is one of the selected event types, compared exactly (case matters).
      No selection passes every agency; an agency without tags passes only then. */
  predicate MatchesEventType(a: ListedAgency, f: Filters)
    ensures f.eventTypes == [] ==> MatchesEventType(a, f)
    ensures a.tags == [] ==> (MatchesEventType(a, f) <==> f.eventTypes == [])
  {
    f.eventTypes == [] || exists t :: t in a.tags && t in f.eventTypes
  }

  predicate MatchesRating(a: ListedAgency, f: Filters) {
    a.rating >= f.minRating
  }

  /** All five tests pass. With a blank query and nothing selected only the budget
      ceiling and the minimum rating decide. */
  predicate Matches(a: ListedAgency, searchQuery: string, f: Filters)
    ensures AllSpace(searchQuery) && f.locations == [] && f.eventTypes == [] ==>
      (Matches(a, searchQuery, f) <==> a.priceRangeMax <= f.maxBudget && a.rating >= f.minRating)
  {
    MatchesSearch(a, searchQuery) && MatchesLocation(a, f) && MatchesBudget(a, f) &&
    MatchesEventType(a, f) && MatchesRating(a, f)
  }

  function Matcher(searchQuery: string, f: Filters): ListedAgency -> bool {
    a => Matches(a, searchQuery, f)
  }

  /** `filteredAgencies`: the in-order subsequence of the agencies that pass the
      search, location, budget, event-type and rating tests. */
  function FilteredAgencies(agencies: seq<ListedAgency>, searchQuery: string, f: Filters): (r: seq<ListedAgency>)
    ensures Seqs.IsSubsequence(r, agencies)
    ensures forall a :: a in r <==> a in agencies && Matches(a, searchQuery, f)
    ensures forall a :: multiset(r)[a] == if Matches(a, searchQuery, f) then multiset(agencies)[a] else 0
  {
    Seqs.FilterIsSubsequence(agencies, Matcher(searchQuery, f));
    Seqs.FilterMultiplicities(agencies, Matcher(searchQuery, f));
    Seqs.Filter(agencies, Matcher(searchQuery, f))
  }

  /** The first value of a URL parameter, or "" (`searchParams.get(k) || ""`). */
  function ParamOrEmpty(v: Option<string>): string {
    v.GetOr([])
  }

  /** The state the page starts in: `q` becomes the search query, a non-empty
      `location` becomes the only selected location, and everything else is taken
      from `INITIAL_FILTERS`. */
  function InitialState(q: Option<string>, location: Option<string>): (r: PageState)
    ensures r.searchQuery == (if q.Some? then q.value else [])
    ensures r.filters.locations == (if location.Some? && location.value != [] then [location.value] else [])
    ensures r.filters.(locations := []) == InitialFilters
  {
    PageState(ParamOrEmpty(q), InitialFilters.(locations := if location.Some? && location.value != [] then [location.value] else []))
  }

  /** The effect that runs when the URL parameters change: a present `q` replaces the
      query, a present `location` (even "") replaces the selected locations. */
  function SyncFromParams(s: PageState, q: Option<string>, location: Option<string>): (r: PageState)
    ensures r.searchQuery == (if q.Some? then q.value else s.searchQuery)
    ensures r.filters.locations == (if location.Some? then [location.value] else s.filters.locations)
    ensures r.filters.(locations := s.filters.locations) == s.filters
  {
    var s1 := if q.Some? then s.(searchQuery := q.value) else s;
    if location.Some? then s1.(filters := s1.filters.(locations := [location.value])) else s1
  }

  /** The reset button and "Clear All Filters": `INITIAL_FILTERS` and an empty query. */
  function Reset(): (r: PageState)
    ensures r.searchQuery == [] && r.filters == InitialFilters
  {
    PageState([], InitialFilters)
  }

  lemma LowerKeepsSpace(s: string)
    ensures AllSpace(s) ==> AllSpace(Lower(s))
  {
    if AllSpace(s) {
      forall i | 0 <= i < |s| ensures IsSpace(Lower(s)[i]) {
        assert IsSpace(s[i]);
      }
    }
  }

  /** An empty or white-space-only search matches every agency. */
  lemma BlankSearchMatchesAll(a: ListedAgency, searchQuery: string)
    requires AllSpace(searchQuery)
    ensures MatchesSearch(a, searchQuery)
  {
    LowerKeepsSpace(searchQuery);
    TrimEmptyIff(Lower(searchQuery));
  }

  /** The search ignores the case of the query. */
  lemma SearchIgnoresQueryCase(a: ListedAgency, searchQuery: string)
    ensures MatchesSearch(a, searchQuery) == MatchesSearch(a, Lower(searchQuery))
  {
    LowerIdempotent(searchQuery);
  }

  /** With no locations and no event types selected, only the search, the budget and
      the rating decide. */
  lemma EmptySelectionsImposeNothing(a: ListedAgency, searchQuery: string, f: Filters)
    requires f.locations == [] && f.eventTypes == []
    ensures Matches(a, searchQuery, f) <==>
      MatchesSearch(a, searchQuery) && a.priceRangeMax <= f.maxBudget && a.rating >= f.minRating
  {
  }

  /** The location test ignores case but the event-type test does not: the location
      "mumbai" selects an agency in "Mumbai", the event type "wedding" does not
      select an agency tagged "Wedding". */
  lemma LocationIgnoresCaseEventTypeDoesNot(a: ListedAgency)
    requires a.location == "Mumbai" && a.tags == ["Wedding"]
    ensures MatchesLocation(a, Filters(["mumbai"], 0.0, [], 0.0))
    ensures !MatchesEventType(a, Filters([], 0.0, ["wedding"], 0.0))
  {
    assert Lower(a.location) == Lower("mumbai");
    assert IsPrefix(Lower("mumbai"), Lower(a.location));
    assert "Wedding" != "wedding" by {
      assert "Wedding"[0] != "wedding"[0];
    }
  }

  /** Raising the budget ceiling never removes an agency from the result. */
  lemma RaisingMaxBudgetKeeps(agencies: seq<ListedAgency>, searchQuery: string, f: Filters, maxBudget: real)
    requires f.maxBudget <= maxBudget
    ensures Seqs.IsSubsequence(FilteredAgencies(agencies, searchQuery, f),
                               FilteredAgencies(agencies, searchQuery, f.(maxBudget := maxBudget)))
  {
    Weaker(agencies, searchQuery, f, f.(maxBudget := maxBudget));
  }

  /** Raising the minimum rating never adds an agency to the result. */
  lemma RaisingMinRatingNeverAdds(agencies: seq<ListedAgency>, searchQuery: string, f: Filters, minRating: real)
    requires f.minRating <= minRating
    ensures Seqs.IsSubsequence(FilteredAgencies(agencies, searchQuery, f.(minRating := minRating)),
                               FilteredAgencies(agencies, searchQuery, f))
  {
    Weaker(agencies, searchQuery, f.(minRating := minRating), f);
  }

  /** When `f` passes at least what `g` passes, the `g` result is a subsequence of
      the `f` result. */
  lemma Weaker(agencies: seq<ListedAgency>, searchQuery: string, g: Filters, f: Filters)
    requires g.locations == f.locations && g.eventTypes == f.eventTypes
    requires g.maxBudget <= f.maxBudget && g.minRating >= f.minRating
    ensures Seqs.IsSubsequence(FilteredAgencies(agencies, searchQuery, g), FilteredAgencies(agencies, searchQuery, f))
  {
    var p := Matcher(searchQuery, g);
    var q := Matcher(searchQuery, f);
    Seqs.FilterOfFilter(agencies, p, q);
    Seqs.FilterIsSubsequence(Seqs.Filter(agencies, q), p);
  }

  /** Filtering the result again with the same query and filters changes nothing. */
  lemma FilterIdempotent(agencies: seq<ListedAgency>, searchQuery: string, f: Filters)
    ensures FilteredAgencies(FilteredAgencies(agencies, searchQuery, f), searchQuery, f) ==
            FilteredAgencies(agencies, searchQuery, f)
  {
    Seqs.FilterOfFilter(agencies, Matcher(searchQuery, f), Matcher(searchQuery, f));
  }

  /** After a reset every agency within the default budget ceiling and with a
      non-negative rating is listed. */
  lemma ResetShowsAllAffordable(agencies: seq<ListedAgency>)
    requires forall a :: a in agencies ==> a.priceRangeMax <= 2000000.0 && a.rating >= 0.0
    ensures FilteredAgencies(agencies, Reset().searchQuery, Reset().filters) == agencies
  {
    forall a | a in agencies ensures Matcher(Reset().searchQuery, Reset().filters)(a) {
      BlankSearchMatchesAll(a, []);
    }
    Seqs.FilterAll(agencies, Matcher(Reset().searchQuery, Reset().filters));
  }
}
