/** The landing page: the header links that depend on the session, and the hero
    search that navigates to the agencies listing. */
module HomePage {
  import opened Wrappers
  import AgenciesPage

  /** What the header knows of a signed-in session: the user's role, if any. */
  datatype Session = Session(role: Option<string>)

  /** The `AgencyLink` component: the "Agency Portal" link is hidden exactly when a
      session exists whose role is "USER" (no session, or no role, shows it). */
  function AgencyPortalLinkShown(session: Option<Session>): (shown: bool)
    ensures !shown <==> session.Some? && session.value.role == Some("USER")
  {
    var role := if session.Some? then session.value.role else None;
    role != Some("USER")
  }

  datatype HeaderButton = Dashboard | Login

  /** The `AuthButton` component: Dashboard with a session, Login without. */
  function AuthButton(session: Option<Session>): (b: HeaderButton)
    ensures b == Dashboard <==> session.Some?
  {
    if session.Some? then Dashboard else Login
  }

  /** A client-side navigation: a path and its query parameters in order (the
      serialisation into a query string is not modelled). */
  datatype Navigation = Navigation(path: string, params: seq<(string, string)>)

  /** The query parameters the search sends: `q` when the search text is
      non-empty, then `location` when the location text is non-empty. */
  function SearchParams(searchQuery: string, locationQuery: string): (ps: seq<(string, string)>)
    ensures (exists i :: 0 <= i < |ps| && ps[i].0 == "q") <==> searchQuery != []
    ensures (exists i :: 0 <= i < |ps| && ps[i].0 == "location") <==> locationQuery != []
    ensures searchQuery != [] ==> ps[0] == ("q", searchQuery)
    ensures |ps| <= 2
  {
    assert "q" != "location" by { assert |"q"| != |"location"|; }
    var ps :=
      if searchQuery != [] && locationQuery != [] then [("q", searchQuery), ("location", locationQuery)]
      else if searchQuery != [] then [("q", searchQuery)]
      else if locationQuery != [] then [("location", locationQuery)]
      else [];
    assert searchQuery != [] ==> ps[0].0 == "q";
    assert locationQuery != [] ==> ps[|ps| - 1].0 == "location";
    ps
  }

  /** Where the search goes: nowhere when both fields are empty, otherwise
      `/agencies` with the search parameters. */
  function SearchTarget(searchQuery: string, locationQuery: string): (r: Option<Navigation>)
    ensures r.None? <==> searchQuery == [] && locationQuery == []
    ensures r.Some? ==> r.value.path == "/agencies" && r.value.params == SearchParams(searchQuery, locationQuery)
  {
    if searchQuery == [] && locationQuery == [] then None
    else Some(Navigation("/agencies", SearchParams(searchQuery, locationQuery)))
  }

  /** `handleSearch`: builds the parameters by successive appends. */
  method HandleSearch(searchQuery: string, locationQuery: string) returns (r: Option<Navigation>)
    ensures r == SearchTarget(searchQuery, locationQuery)
  {
    if searchQuery == [] && locationQuery == [] {
      return None;
    }
    var params: seq<(string, string)> := [];
    if searchQuery != [] {
      params := params + [("q", searchQuery)];
    }
    if locationQuery != [] {
      params := params + [("location", locationQuery)];
    }
    assert params == SearchParams(searchQuery, locationQuery);
    r := Some(Navigation("/agencies", params));
  }

  /** `handleKeyDown`: Enter searches, any other key does nothing. */
  method HandleKeyDown(key: string, searchQuery: string, locationQuery: string) returns (r: Option<Navigation>)
    ensures r == if key == "Enter" then SearchTarget(searchQuery, locationQuery) else None
  {
    r := None;
    if key == "Enter" {
      r := HandleSearch(searchQuery, locationQuery);
    }
  }

  /** `URLSearchParams.get`: the first value under `key`. */
  function GetParam(ps: seq<(string, string)>, key: string): (v: Option<string>)
    ensures v.Some? ==>
              exists i :: (0 <= i < |ps| && ps[i] == (key, v.value) &&
                           forall j :: 0 <= j < i ==> ps[j].0 != key)
    ensures v.None? ==> forall i :: 0 <= i < |ps| ==> ps[i].0 != key
  {
    if ps == [] then None
    else if ps[0].0 == key then Some(ps[0].1)
    else GetParam(ps[1..], key)
  }

  /** Searching from the landing page and opening the agencies listing from the
      resulting URL: the listing's query is the search text and its selected
      locations are exactly the location text, or none when it was empty. */
  lemma SearchRoundTrip(searchQuery: string, locationQuery: string)
    requires searchQuery != [] || locationQuery != []
    ensures var ps := SearchTarget(searchQuery, locationQuery).value.params;
            var st := AgenciesPage.InitialState(GetParam(ps, "q"), GetParam(ps, "location"));
            st.searchQuery == searchQuery &&
            st.filters.locations == (if locationQuery != [] then [locationQuery] else []) &&
            st.filters.maxBudget == AgenciesPage.InitialFilters.maxBudget &&
            st.filters.eventTypes == [] && st.filters.minRating == AgenciesPage.InitialFilters.minRating
  {
    var ps := SearchParams(searchQuery, locationQuery);
    assert "q" != "location" by { assert |"q"| != |"location"|; }
    if searchQuery != [] {
      assert GetParam(ps, "q") == Some(searchQuery);
      if locationQuery != [] {
        assert ps[1..] == [("location", locationQuery)];
      }
    } else {
      assert ps == [("location", locationQuery)];
    }
  }
}
