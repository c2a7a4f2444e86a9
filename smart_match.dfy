/** Smart Match: a fixed weighted score of how well an agency fits a customer's
    stated preferences (event type 40, location 30, budget 20, rating and reviews
    10), and the ranking of agencies by that score. */
module SmartMatch {
  import opened Text
  import opened JsMath

  datatype BudgetRange = BudgetRange(min: real, max: real)

  /** The agency projection the score reads. */
  datatype Agency = Agency(
    id: string,
    name: string,
    location: string,
    eventTypes: seq<string>,
    budgetRange: BudgetRange,
    rating: real,
    reviewCount: real)

  datatype Preferences = Preferences(eventType: string, location: string, budget: real)

  const EventTypeWeight: real := 40.0
  const LocationWeight: real := 30.0
  const NearbyLocationCredit: real := 15.0
  const BudgetFitWeight: real := 20.0
  const BudgetCloseCredit: real := 10.0
  const RatingWeight: real := 8.0
  const ReviewWeight: real := 2.0
  /** Reviews beyond this many earn nothing more. */
  const ReviewSaturation: real := 50.0

  /** Some tag equals the preferred event type, ignoring case. */
  predicate EventTypeMatch(a: Agency, p: Preferences) {
    exists t :: t in a.eventTypes && Lower(t) == Lower(p.eventType)
  }

  /** The agency's location contains the preferred location, ignoring case. */
  predicate LocationMatch(a: Agency, p: Preferences) {
    Contains(Lower(a.location), Lower(p.location))
  }

  predicate BudgetFits(a: Agency, p: Preferences) {
    a.budgetRange.min <= p.budget <= a.budgetRange.max
  }

  /** The budget lies in the range widened by 20% on each side. */
  predicate BudgetClose(a: Agency, p: Preferences) {
    a.budgetRange.min * 0.8 <= p.budget <= a.budgetRange.max * 1.2
  }

  /** The event-type factor: all of its 40 points or none, and none for an agency
      without tags. */
  function EventTypePoints(a: Agency, p: Preferences): (r: real)
    ensures r == EventTypeWeight || r == 0.0
    ensures a.eventTypes == [] ==> r == 0.0
  {
    if EventTypeMatch(a, p) then EventTypeWeight else 0.0
  }

  /** The location factor: 30 for a contained location, else the nearby credit of
      15; an empty preferred location is contained in every location. */
  function LocationPoints(a: Agency, p: Preferences): (r: real)
    ensures r == LocationWeight || r == NearbyLocationCredit
    ensures p.location == [] ==> r == LocationWeight
  {
    ContainsEmpty(Lower(a.location));
    assert p.location == [] ==> Lower(p.location) == [];
    if LocationMatch(a, p) then LocationWeight else NearbyLocationCredit
  }

  /** The budget factor: 20, 10 or 0; for a non-negative range the budget earns
      something exactly when it lies in the widened window. */
  function BudgetPoints(a: Agency, p: Preferences): (r: real)
    ensures r == BudgetFitWeight || r == BudgetCloseCredit || r == 0.0
    ensures 0.0 <= a.budgetRange.min ==> (r > 0.0 <==> BudgetClose(a, p))
  {
    if BudgetFits(a, p) then BudgetFitWeight
    else if BudgetClose(a, p) then BudgetCloseCredit
    else 0.0
  }

  /** The rating's share of the 8 points: a rating in [0, 5] earns between 0 and 8,
      a perfect 5 all of them. */
  function RatingPoints(a: Agency): (r: real)
    ensures 0.0 <= a.rating <= 5.0 ==> 0.0 <= r <= RatingWeight
    ensures a.rating == 5.0 ==> r == RatingWeight
  {
    a.rating / 5.0 * RatingWeight
  }

  /** The review count's share of the 2 points, saturating at 50 reviews. */
  function ReviewPoints(a: Agency): (r: real)
    ensures a.reviewCount >= 0.0 ==> 0.0 <= r <= ReviewWeight
    ensures a.reviewCount >= ReviewSaturation ==> r == ReviewWeight
  {
    Min(a.reviewCount / ReviewSaturation, 1.0) * ReviewWeight
  }

  /** The accumulated `score` before rounding. For a rating in [0, 5] and a
      non-negative review count it lies in [15, 100]: at least the nearby credit,
      at most the sum of the weights. */
  function RawScore(a: Agency, p: Preferences): (r: real)
    ensures 0.0 <= a.rating <= 5.0 && a.reviewCount >= 0.0 ==> 15.0 <= r <= 100.0
  {
    EventTypePoints(a, p) + LocationPoints(a, p) + BudgetPoints(a, p) + RatingPoints(a) + ReviewPoints(a)
  }

  /** `calculateSmartMatchScore`: the weighted sum, rounded with `Math.round`. For a
      rating in [0, 5] and a non-negative review count the score lies in [15, 100]. */
  function CalculateSmartMatchScore(a: Agency, p: Preferences): (r: int)
    ensures 0.0 <= a.rating <= 5.0 && a.reviewCount >= 0.0 ==> 15 <= r <= 100
  {
    Round(RawScore(a, p))
  }

  /** The event-type test is a case-insensitive equality against some tag: a tag that
      matches earns the full 40, an agency without tags earns nothing. */
  lemma EventTypePointsCases(a: Agency, p: Preferences)
    ensures (exists i :: 0 <= i < |a.eventTypes| && Lower(a.eventTypes[i]) == Lower(p.eventType)) <==> EventTypePoints(a, p) == 40.0
    ensures a.eventTypes == [] ==> EventTypePoints(a, p) == 0.0
    ensures EventTypePoints(a, p) == 0.0 || EventTypePoints(a, p) == 40.0
  {
    if EventTypeMatch(a, p) {
      var t :| t in a.eventTypes && Lower(t) == Lower(p.eventType);
      var i :| 0 <= i < |a.eventTypes| && a.eventTypes[i] == t;
    }
  }

  /** Location never contributes less than 15, and an empty preferred location
      always earns the full 30 (every string contains the empty string). */
  lemma LocationPointsCases(a: Agency, p: Preferences)
    ensures LocationPoints(a, p) == 15.0 || LocationPoints(a, p) == 30.0
    ensures p.location == [] ==> LocationPoints(a, p) == 30.0
  {
    if p.location == [] {
      assert Lower(p.location) == [];
      ContainsEmpty(Lower(a.location));
    }
  }

  /** The budget tiers are exclusive: 20 exactly inside the range, 10 exactly in the
      widened window but outside the range, 0 otherwise; for a non-negative range the
      budget earns something exactly when it lies in the widened window. */
  lemma BudgetTiers(a: Agency, p: Preferences)
    ensures BudgetPoints(a, p) == 20.0 <==> a.budgetRange.min <= p.budget <= a.budgetRange.max
    ensures BudgetPoints(a, p) == 10.0 <==>
      !(a.budgetRange.min <= p.budget <= a.budgetRange.max) &&
      a.budgetRange.min * 0.8 <= p.budget <= a.budgetRange.max * 1.2
    ensures BudgetPoints(a, p) == 0.0 <==>
      !(a.budgetRange.min <= p.budget <= a.budgetRange.max) &&
      !(a.budgetRange.min * 0.8 <= p.budget <= a.budgetRange.max * 1.2)
    ensures 0.0 <= a.budgetRange.min ==>
      (BudgetPoints(a, p) > 0.0 <==> a.budgetRange.min * 0.8 <= p.budget <= a.budgetRange.max * 1.2)
  {
  }

  /** A better rating never lowers the score. */
  lemma ScoreMonotoneInRating(a: Agency, p: Preferences, rating: real)
    requires a.rating <= rating
    ensures CalculateSmartMatchScore(a, p) <= CalculateSmartMatchScore(a.(rating := rating), p)
  {
    var b := a.(rating := rating);
    assert EventTypePoints(a, p) == EventTypePoints(b, p);
    assert LocationPoints(a, p) == LocationPoints(b, p);
    assert BudgetPoints(a, p) == BudgetPoints(b, p);
    assert RawScore(a, p) <= RawScore(b, p);
    RoundMonotone(RawScore(a, p), RawScore(b, p));
  }

  /** More reviews never lower the score. */
  lemma ScoreMonotoneInReviews(a: Agency, p: Preferences, reviewCount: real)
    requires a.reviewCount <= reviewCount
    ensures CalculateSmartMatchScore(a, p) <= CalculateSmartMatchScore(a.(reviewCount := reviewCount), p)
  {
    var b := a.(reviewCount := reviewCount);
    assert EventTypePoints(a, p) == EventTypePoints(b, p);
    assert LocationPoints(a, p) == LocationPoints(b, p);
    assert BudgetPoints(a, p) == BudgetPoints(b, p);
    assert RawScore(a, p) <= RawScore(b, p);
    RoundMonotone(RawScore(a, p), RawScore(b, p));
  }

  /** From 50 reviews on, the review count no longer matters. */
  lemma ReviewsSaturate(a: Agency, p: Preferences, reviewCount: real)
    requires a.reviewCount >= 50.0 && reviewCount >= 50.0
    ensures CalculateSmartMatchScore(a, p) == CalculateSmartMatchScore(a.(reviewCount := reviewCount), p)
  {
    var b := a.(reviewCount := reviewCount);
    assert EventTypePoints(a, p) == EventTypePoints(b, p);
    assert LocationPoints(a, p) == LocationPoints(b, p);
    assert BudgetPoints(a, p) == BudgetPoints(b, p);
    assert ReviewPoints(a) == 2.0 == ReviewPoints(b);
  }

  /** A Mumbai wedding agency priced 200000-800000, rated 4.7 with 80 reviews. */
  function MumbaiWeddingAgency(): Agency {
    Agency("a1", "Elite", "Mumbai, Maharashtra", ["Wedding"], BudgetRange(200000.0, 800000.0), 4.7, 80.0)
  }

  /** Every factor matches: 40 + 30 + 20 + 7.52 + 2 = 99.52, rounded to 100. */
  lemma ExactMatchScenario(a: Agency, p: Preferences)
    requires a == MumbaiWeddingAgency() && p == Preferences("Wedding", "Mumbai", 500000.0)
    ensures CalculateSmartMatchScore(a, p) == 100
  {
    WeddingTagMatches(a, p);
    MumbaiIsContained(a, p);
    MumbaiRatingAndReviews(a);
    assert BudgetPoints(a, p) == 20.0;
    ScoreFromParts(a, p, 40.0, 30.0, 20.0);
  }

  /** No event type match, location contained, budget only in the widened window:
      0 + 30 + 10 + 9.52 = 49.52, rounded to 50. */
  lemma ToleranceBandScenario(a: Agency, p: Preferences)
    requires a == MumbaiWeddingAgency() && p == Preferences("Corporate", "Mumbai", 900000.0)
    ensures CalculateSmartMatchScore(a, p) == 50
  {
    CorporateTagMisses(a, p);
    MumbaiIsContained(a, p);
    MumbaiRatingAndReviews(a);
    assert BudgetPoints(a, p) == 10.0;
    ScoreFromParts(a, p, 0.0, 30.0, 10.0);
  }

  lemma ScoreFromParts(a: Agency, p: Preferences, e: real, l: real, b: real)
    requires EventTypePoints(a, p) == e && LocationPoints(a, p) == l && BudgetPoints(a, p) == b
    requires RatingPoints(a) == 7.52 && ReviewPoints(a) == 2.0
    ensures CalculateSmartMatchScore(a, p) == Round(e + l + b + 9.52)
  {
  }

  lemma MumbaiRatingAndReviews(a: Agency)
    requires a == MumbaiWeddingAgency()
    ensures RatingPoints(a) == 7.52 && ReviewPoints(a) == 2.0
  {
  }

  lemma WeddingTagMatches(a: Agency, p: Preferences)
    requires a.eventTypes == ["Wedding"] && p.eventType == "Wedding"
    ensures EventTypePoints(a, p) == 40.0
  {
    assert a.eventTypes[0] in a.eventTypes && Lower(a.eventTypes[0]) == Lower(p.eventType);
  }

  lemma CorporateTagMisses(a: Agency, p: Preferences)
    requires a.eventTypes == ["Wedding"] && p.eventType == "Corporate"
    ensures EventTypePoints(a, p) == 0.0
  {
    assert Lower(a.eventTypes[0])[0] == 'w' && Lower(p.eventType)[0] == 'c';
    assert forall t :: t in a.eventTypes ==> t == a.eventTypes[0];
  }

  lemma MumbaiIsContained(a: Agency, p: Preferences)
    requires a.location == "Mumbai, Maharashtra" && p.location == "Mumbai"
    ensures LocationPoints(a, p) == 30.0
  {
    var s := "Mumbai, Maharashtra";
    assert s[..6] == "Mumbai";
    LowerPrefix(s, 6);
    assert IsPrefix(Lower(p.location), Lower(a.location));
  }

  /** An agency with its computed `smartMatchScore` attached. */
  datatype RankedAgency = RankedAgency(agency: Agency, smartMatchScore: int)

  /** The `map` step of `rankAgenciesByMatch`. */
  function Annotate(agencies: seq<Agency>, p: Preferences): (r: seq<RankedAgency>)
    ensures |r| == |agencies|
    ensures forall i :: 0 <= i < |r| ==>
      r[i].agency == agencies[i] && r[i].smartMatchScore == CalculateSmartMatchScore(agencies[i], p)
  {
    if agencies == [] then []
    else [RankedAgency(agencies[0], CalculateSmartMatchScore(agencies[0], p))] + Annotate(agencies[1..], p)
  }

  predicate SortedByScoreDesc(s: seq<RankedAgency>) {
    forall i, j :: 0 <= i < j < |s| ==> s[i].smartMatchScore >= s[j].smartMatchScore
  }

  /** The entries with score `k`, in order. */
  function WithScore(s: seq<RankedAgency>, k: int): seq<RankedAgency> {
    if s == [] then []
    else (if s[0].smartMatchScore == k then [s[0]] else []) + WithScore(s[1..], k)
  }

  /** Inserts `x` before the first entry whose score does not exceed its own, so an
      entry inserted later (coming from earlier in the input) precedes equal scores. */
  function Insert(x: RankedAgency, l: seq<RankedAgency>): (r: seq<RankedAgency>)
    ensures |r| == |l| + 1
    ensures multiset(r) == multiset(l) + multiset{x}
  {
    if l == [] || l[0].smartMatchScore <= x.smartMatchScore then [x] + l
    else
      assert l == [l[0]] + l[1..];
      [l[0]] + Insert(x, l[1..])
  }

  /** A stable descending sort by `smartMatchScore` (JavaScript's `Array.prototype.sort`
      with comparator `b.smartMatchScore - a.smartMatchScore` is stable). The result
      is a permutation of the input; the order is `SortProperties`. */
  function SortByScoreDesc(s: seq<RankedAgency>): (r: seq<RankedAgency>)
    ensures |r| == |s|
    ensures multiset(r) == multiset(s)
  {
    if s == [] then []
    else
      assert s == [s[0]] + s[1..];
      Insert(s[0], SortByScoreDesc(s[1..]))
  }

  /** `rankAgenciesByMatch`: every agency once with its score attached, in
      non-increasing score order, agencies with equal scores in input order. */
  function RankAgenciesByMatch(agencies: seq<Agency>, p: Preferences): (r: seq<RankedAgency>)
    ensures |r| == |agencies|
    ensures multiset(r) == multiset(Annotate(agencies, p))
    ensures SortedByScoreDesc(r)
    ensures forall k :: WithScore(r, k) == WithScore(Annotate(agencies, p), k)
  {
    SortProperties(Annotate(agencies, p));
    SortByScoreDesc(Annotate(agencies, p))
  }

  lemma {:induction false} InsertSorted(x: RankedAgency, l: seq<RankedAgency>)
    requires SortedByScoreDesc(l)
    ensures SortedByScoreDesc(Insert(x, l))
  {
    if !(l == [] || l[0].smartMatchScore <= x.smartMatchScore) {
      var rest := Insert(x, l[1..]);
      InsertSorted(x, l[1..]);
      forall y | y in rest ensures l[0].smartMatchScore >= y.smartMatchScore {
        assert y in multiset(rest);
        if y != x {
          assert y in multiset(l[1..]);
          var j :| 0 <= j < |l[1..]| && l[1..][j] == y;
          assert l[j + 1] == y;
        }
      }
      forall i, j | 0 <= i < j < |[l[0]] + rest|
        ensures ([l[0]] + rest)[i].smartMatchScore >= ([l[0]] + rest)[j].smartMatchScore
      {
        if i == 0 {
          assert ([l[0]] + rest)[j] == rest[j - 1];
          assert rest[j - 1] in rest;
        }
      }
    }
  }

  lemma WithScoreCons(x: RankedAgency, l: seq<RankedAgency>, k: int)
    ensures WithScore([x] + l, k) == (if x.smartMatchScore == k then [x] else []) + WithScore(l, k)
  {
    assert ([x] + l)[1..] == l;
  }

  lemma {:induction false} InsertWithScore(x: RankedAgency, l: seq<RankedAgency>, k: int)
    ensures WithScore(Insert(x, l), k) == (if x.smartMatchScore == k then [x] else []) + WithScore(l, k)
  {
    if l == [] || l[0].smartMatchScore <= x.smartMatchScore {
      WithScoreCons(x, l, k);
    } else {
      var rest := Insert(x, l[1..]);
      InsertWithScore(x, l[1..], k);
      WithScoreCons(l[0], rest, k);
      WithScoreCons(l[0], l[1..], k);
      assert [l[0]] + l[1..] == l;
    }
  }

  lemma {:induction false} SortProperties(s: seq<RankedAgency>)
    ensures multiset(SortByScoreDesc(s)) == multiset(s)
    ensures SortedByScoreDesc(SortByScoreDesc(s))
    ensures forall k :: WithScore(SortByScoreDesc(s), k) == WithScore(s, k)
  {
    if s != [] {
      SortProperties(s[1..]);
      InsertSorted(s[0], SortByScoreDesc(s[1..]));
      assert s == [s[0]] + s[1..];
      forall k ensures WithScore(SortByScoreDesc(s), k) == WithScore(s, k) {
        InsertWithScore(s[0], SortByScoreDesc(s[1..]), k);
      }
    }
  }

  /** The ranking is a permutation of the input, each agency carrying its own score,
      in non-increasing score order; agencies with equal scores keep their input
      order (for every score, the entries with it appear as they did in the input). */
  lemma RankingCorrect(agencies: seq<Agency>, p: Preferences)
    ensures multiset(RankAgenciesByMatch(agencies, p)) == multiset(Annotate(agencies, p))
    ensures |RankAgenciesByMatch(agencies, p)| == |agencies|
    ensures forall x :: x in RankAgenciesByMatch(agencies, p) ==>
      x.agency in agencies && x.smartMatchScore == CalculateSmartMatchScore(x.agency, p)
    ensures SortedByScoreDesc(RankAgenciesByMatch(agencies, p))
    ensures forall k :: WithScore(RankAgenciesByMatch(agencies, p), k) == WithScore(Annotate(agencies, p), k)
  {
    var a := Annotate(agencies, p);
    var r := RankAgenciesByMatch(agencies, p);
    SortProperties(a);
    assert |multiset(r)| == |multiset(a)|;
    forall x | x in r ensures x.agency in agencies && x.smartMatchScore == CalculateSmartMatchScore(x.agency, p) {
      assert x in multiset(r);
      assert x in multiset(a);
      var i :| 0 <= i < |a| && a[i] == x;
    }
  }

  /** Stability on an example: scores 50, 50, 70 in input order come out as the 70,
      then the two 50s in their input order. */
  lemma StableTieExample(x: RankedAgency, y: RankedAgency, z: RankedAgency)
    requires x.smartMatchScore == 50 && y.smartMatchScore == 50 && z.smartMatchScore == 70
    ensures SortByScoreDesc([x, y, z]) == [z, x, y]
  {
    assert [x, y, z][1..] == [y, z];
    assert [y, z][1..] == [z];
    assert [z][1..] == [];
    assert SortByScoreDesc([z]) == [z];
    assert [z] + Insert(y, []) == [z, y];
    assert SortByScoreDesc([y, z]) == [z, y];
    assert [z, y][1..] == [y];
    assert Insert(x, [y]) == [x, y];
  }
}
