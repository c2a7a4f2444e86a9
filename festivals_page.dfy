/** The festivals page: a fixed table of festivals and a filter by search text,
    category and status. */
module FestivalsPage {
  import opened Text
  import Seqs

  datatype Festival = Festival(
    id: string,
    name: string,
    date: string,
    location: string,
    category: string,
    status: string,
    theme: string)

  /** `FESTIVALS` (image URLs and descriptions are presentation and not kept). */
  const Festivals: seq<Festival> := [
    Festival("diwali", "Diwali Gala 2024", "Oct 24 - Oct 28", "New Delhi, India", "Religious", "Upcoming", "Saffron"),
    Festival("holi", "Holi Celebration Mumbai", "Mar 14, 2025", "Mumbai, Maharashtra", "Culture", "Planning", "Pink"),
    Festival("navratri", "Navratri Night Ahmedabad", "Oct 03 - Oct 12", "Ahmedabad, Gujarat", "Music", "Live", "Gold"),
    Festival("pushkar", "Pushkar Camel Fair", "Nov 09 - Nov 15", "Pushkar, Rajasthan", "Tradition", "Upcoming", "Amber"),
    Festival("goa-carnival", "Goa Carnival 2025", "Feb 22 - Feb 25", "Panaji, Goa", "Parade", "Announced", "Blue")
  ]

  const All: string := "All"
  const Categories: seq<string> := [All, "Religious", "Culture", "Music", "Tradition", "Parade"]
  const Statuses: seq<string> := [All, "Upcoming", "Planning", "Live", "Announced"]

  /** Case-insensitive substring test on name or location; the query is not trimmed.
      The empty query finds every festival, and a festival's own name finds it. */
  predicate MatchesSearch(f: Festival, searchQuery: string)
    ensures searchQuery == [] ==> MatchesSearch(f, searchQuery)
    ensures searchQuery == f.name ==> MatchesSearch(f, searchQuery)
  {
    ContainsEmpty(Lower(f.name));
    ContainsSelf(Lower(f.name));
    Contains(Lower(f.name), Lower(searchQuery)) || Contains(Lower(f.location), Lower(searchQuery))
  }

  /** "All" passes every festival; any other category must be equal. */
  predicate MatchesCategory(f: Festival, category: string) {
    category == All || f.category == category
  }

  /** "All" passes every festival; any other status must be equal. */
  predicate MatchesStatus(f: Festival, status: string) {
    status == All || f.status == status
  }

  function Matcher(searchQuery: string, category: string, status: string): Festival -> bool {
    f => MatchesSearch(f, searchQuery) && MatchesCategory(f, category) && MatchesStatus(f, status)
  }

  /** `filteredFestivals`: the in-order subsequence of `FESTIVALS` passing the search,
      category and status tests. */
  function FilteredFestivals(searchQuery: string, category: string, status: string): (r: seq<Festival>)
    ensures Seqs.IsSubsequence(r, Festivals)
    ensures forall f :: f in r <==>
      f in Festivals && MatchesSearch(f, searchQuery) && MatchesCategory(f, category) && MatchesStatus(f, status)
  {
    Seqs.FilterIsSubsequence(Festivals, Matcher(searchQuery, category, status));
    Seqs.Filter(Festivals, Matcher(searchQuery, category, status))
  }

  /** "All" switches the category or status test off; any other value demands exact
      equality. */
  lemma AllDisablesFilters(f: Festival, category: string, status: string)
    ensures MatchesCategory(f, All) && MatchesStatus(f, All)
    ensures category != All ==> (MatchesCategory(f, category) <==> f.category == category)
    ensures status != All ==> (MatchesStatus(f, status) <==> f.status == status)
  {
  }

  /** "Clear All Filters" (empty query, All, All) shows every festival. */
  lemma ClearAllShowsEverything()
    ensures FilteredFestivals([], All, All) == Festivals
  {
    forall f | f in Festivals ensures Matcher([], All, All)(f) {
      ContainsEmpty(Lower(f.name));
    }
    Seqs.FilterAll(Festivals, Matcher([], All, All));
  }

  /** The table is consistent with the filter menus: every category and status is
      offered, none is "All", and the ids are distinct. */
  lemma TableIsWellFormed()
    ensures forall i :: 0 <= i < |Festivals| ==>
      Festivals[i].category in Categories && Festivals[i].category != All &&
      Festivals[i].status in Statuses && Festivals[i].status != All
    ensures forall i, j :: 0 <= i < j < |Festivals| ==> Festivals[i].id != Festivals[j].id
  {
    forall i, j | 0 <= i < j < |Festivals| ensures Festivals[i].id != Festivals[j].id {
      assert Festivals[i].id[0] != Festivals[j].id[0] || |Festivals[i].id| != |Festivals[j].id|;
    }
  }
}
