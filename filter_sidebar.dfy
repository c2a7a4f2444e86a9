/** The filter sidebar's handlers: each builds a new filter record from the current
    one and hands it to the page. */
module FilterSidebar {
  import opened AgenciesPage
  import Seqs

  function NotEqual(x: string): string -> bool {
    y => y != x
  }

  /** The list edit shared by the location and event-type checkboxes: a present
      entry is removed (every occurrence), an absent one is appended. */
  function Toggle(l: seq<string>, x: string): (r: seq<string>)
    ensures x in r <==> x !in l
    ensures x in l ==> Seqs.IsSubsequence(r, l)
    ensures x !in l ==> |r| == |l| + 1 && r[|l|] == x
  {
    Seqs.FilterIsSubsequence(l, NotEqual(x));
    if x in l then Seqs.Filter(l, NotEqual(x)) else l + [x]
  }

  /** After a toggle, `x` is listed exactly when it was not listed before, and every
      other entry is listed exactly when it was. */
  lemma ToggleFlipsMembership(l: seq<string>, x: string)
    ensures x in Toggle(l, x) <==> x !in l
    ensures forall y :: y != x ==> (y in Toggle(l, x) <==> y in l)
  {
    if x in l {
      forall y | y != x ensures y in Toggle(l, x) <==> y in l {
        Seqs.FilterMultiplicity(l, NotEqual(x), y);
      }
      Seqs.FilterMultiplicity(l, NotEqual(x), x);
    }
  }

  /** Toggling a listed entry removes all its occurrences and keeps every other
      entry, with its multiplicity, in the original order. */
  lemma ToggleRemovesEveryOccurrence(l: seq<string>, x: string)
    requires x in l
    ensures x !in Toggle(l, x)
    ensures Seqs.IsSubsequence(Toggle(l, x), l)
    ensures forall y :: y != x ==> multiset(Toggle(l, x))[y] == multiset(l)[y]
  {
    Seqs.FilterIsSubsequence(l, NotEqual(x));
    Seqs.FilterMultiplicity(l, NotEqual(x), x);
    forall y | y != x ensures multiset(Toggle(l, x))[y] == multiset(l)[y] {
      Seqs.FilterMultiplicity(l, NotEqual(x), y);
    }
  }

  /** Toggling an unlisted entry appends it at the end, and toggling it once more
      gives back the original list. */
  lemma ToggleAbsentTwiceRestores(l: seq<string>, x: string)
    requires x !in l
    ensures Toggle(l, x) == l + [x]
    ensures Toggle(Toggle(l, x), x) == l
  {
    assert x in l + [x];
    Seqs.FilterAppend(l, [x], NotEqual(x));
    Seqs.FilterAll(l, NotEqual(x));
    assert Seqs.Filter([x], NotEqual(x)) == [];
  }

  /** `handleLocationToggle`: only `locations` changes. */
  function HandleLocationToggle(f: Filters, location: string): (r: Filters)
    ensures r.eventTypes == f.eventTypes && r.maxBudget == f.maxBudget && r.minRating == f.minRating
    ensures location in r.locations <==> location !in f.locations
    ensures forall y :: y != location ==> (y in r.locations <==> y in f.locations)
    ensures r.locations == Toggle(f.locations, location)
  {
    ToggleFlipsMembership(f.locations, location);
    f.(locations := Toggle(f.locations, location))
  }

  /** `handleEventTypeToggle`: only `eventTypes` changes. */
  function HandleEventTypeToggle(f: Filters, eventType: string): (r: Filters)
    ensures r.locations == f.locations && r.maxBudget == f.maxBudget && r.minRating == f.minRating
    ensures eventType in r.eventTypes <==> eventType !in f.eventTypes
    ensures forall y :: y != eventType ==> (y in r.eventTypes <==> y in f.eventTypes)
    ensures r.eventTypes == Toggle(f.eventTypes, eventType)
  {
    ToggleFlipsMembership(f.eventTypes, eventType);
    f.(eventTypes := Toggle(f.eventTypes, eventType))
  }

  /** `handleBudgetChange`: only `maxBudget` changes, to the slider value. */
  function HandleBudgetChange(f: Filters, value: real): (r: Filters)
    ensures r.maxBudget == value
    ensures r.locations == f.locations && r.eventTypes == f.eventTypes && r.minRating == f.minRating
  {
    f.(maxBudget := value)
  }

  /** `handleRatingChange`: only `minRating` changes, to the chosen rating. */
  function HandleRatingChange(f: Filters, rating: real): (r: Filters)
    ensures r.minRating == rating
    ensures r.locations == f.locations && r.eventTypes == f.eventTypes && r.maxBudget == f.maxBudget
  {
    f.(minRating := rating)
  }
}
