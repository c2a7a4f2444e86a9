/** `GET /api/agencies`: the stored agency rows, with the comma-separated `tags`
    column split into a list and the JSON `portfolio` column parsed into an array. */
module AgenciesApi {
  import opened Text
  import opened Wrappers

  /** An agency row as the store returns it; `tags` and `portfolio` are text. */
  datatype AgencyRow = AgencyRow(
    id: string,
    name: string,
    location: string,
    description: string,
    rating: real,
    reviewCount: int,
    imageUrl: string,
    priceRangeMin: real,
    priceRangeMax: real,
    smartMatchScore: int,
    tags: Option<string>,
    portfolio: string)

  /** The row as the route returns it: every column as stored, with `tags` and
      `portfolio` turned into lists. */
  datatype FormattedAgency = FormattedAgency(
    id: string,
    name: string,
    location: string,
    description: string,
    rating: real,
    reviewCount: int,
    imageUrl: string,
    priceRangeMin: real,
    priceRangeMax: real,
    smartMatchScore: int,
    tags: seq<string>,
    portfolio: seq<string>)

  /** The outcome of `JSON.parse`, which is opaque here: it throws, or yields an
      array (its elements kept as they are), or yields some other value. */
  datatype Parsed = ParseFailure | ParsedArray(items: seq<string>) | ParsedOther

  /** `agency.tags ? agency.tags.split(',') : []`. */
  function SplitTags(tags: Option<string>): (r: seq<string>)
    ensures (tags.None? || tags.value == []) ==> r == []
    ensures tags.Some? && tags.value != [] ==> r == Split(tags.value, ',')
  {
    if tags.Some? && tags.value != [] then Split(tags.value, ',') else []
  }

  /** The tag list of a non-empty column joins back to the column. */
  lemma SplitTagsRoundTrip(tags: string)
    requires tags != []
    ensures Join(SplitTags(Some(tags)), ',') == tags
  {
    JoinSplit(tags, ',');
  }

  /** No tag contains a comma, there is one tag more than there are commas, and
      empty tags (",," or a trailing comma) are kept. */
  lemma SplitTagsShape(tags: string)
    requires tags != []
    ensures forall k :: 0 <= k < |SplitTags(Some(tags))| ==> ',' !in SplitTags(Some(tags))[k]
    ensures |SplitTags(Some(tags))| == Count(tags, ',') + 1
  {
    SplitPiecesFree(tags, ',');
    SplitCount(tags, ',');
  }

  /** Two adjacent commas yield an empty tag between their neighbours:
      "a,,b" splits into `[a, "", b]` when `a` and `b` hold no comma. */
  lemma EmptyTagKept(a: string, b: string)
    requires ',' !in a && ',' !in b && a + ",," + b != []
    ensures SplitTags(Some(a + ",," + b)) == [a, [], b]
  {
    var s := a + ",," + b;
    SplitFree(b, ',');
    assert s[|a| + 2..] == b;
    assert s[|a| + 1..] == [','] + b;
    assert Split(s[|a| + 1..], ',') == [[]] + Split(b, ',');
    assert s[|a|..] == [','] + s[|a| + 1..];
    assert Split(s[|a|..], ',') == [[]] + Split(s[|a| + 1..], ',');
    SplitPrefix(s, |a|, ',');
    assert s[..|a|] == a;
    var t := Split(s[|a|..], ',');
    assert t == [[], [], b];
    assert Split(s, ',') == [a + []] + [[], b];
    assert a + [] == a;
    assert [a] + [[], b] == [a, [], b];
  }

  /** A string without the separator is a single piece. */
  lemma {:induction false} SplitFree(s: string, sep: char)
    requires sep !in s
    ensures Split(s, sep) == [s]
    decreases |s|
  {
    if s != [] {
      assert s[0] != sep;
      assert sep !in s[1..];
      SplitFree(s[1..], sep);
      assert [s[0]] + s[1..] == s;
    }
  }

  /** Separator-free leading characters extend the first piece. */
  lemma {:induction false} SplitPrefix(s: string, n: nat, sep: char)
    requires n <= |s|
    requires forall i :: 0 <= i < n ==> s[i] != sep
    ensures Split(s, sep) == [s[..n] + Split(s[n..], sep)[0]] + Split(s[n..], sep)[1..]
  {
    if n > 0 {
      var t := Split(s[n..], sep);
      assert s[1..][n - 1..] == s[n..];
      SplitPrefix(s[1..], n - 1, sep);
      var r1 := Split(s[1..], sep);
      assert r1 == [s[1..][..n - 1] + t[0]] + t[1..];
      assert r1[0] == s[1..][..n - 1] + t[0];
      assert r1[1..] == t[1..];
      assert s[..n] == [s[0]] + s[1..][..n - 1];
      assert s[0] != sep;
      assert Split(s, sep) == [[s[0]] + r1[0]] + r1[1..];
      assert [s[0]] + r1[0] == s[..n] + t[0];
    } else {
      var r := Split(s, sep);
      assert s[n..] == s && s[..n] == [];
      assert [] + r[0] == r[0];
      assert [r[0]] + r[1..] == r;
    }
  }

  /** The `portfolio` computation: the parsed array, or `[]` when parsing throws or
      yields something that is not an array. */
  function ParsePortfolio(parse: string -> Parsed, text: string): (r: seq<string>)
    ensures parse(text).ParsedArray? ==> r == parse(text).items
    ensures !parse(text).ParsedArray? ==> r == []
  {
    var p := parse(text);
    if p.ParsedArray? then p.items else []
  }

  /** The `formattedAgencies` element for one row. */
  function Format(parse: string -> Parsed, a: AgencyRow): (r: FormattedAgency)
    ensures r.id == a.id && r.name == a.name && r.location == a.location &&
            r.description == a.description && r.rating == a.rating &&
            r.reviewCount == a.reviewCount && r.imageUrl == a.imageUrl &&
            r.priceRangeMin == a.priceRangeMin && r.priceRangeMax == a.priceRangeMax &&
            r.smartMatchScore == a.smartMatchScore
    ensures r.tags == SplitTags(a.tags) && r.portfolio == ParsePortfolio(parse, a.portfolio)
  {
    FormattedAgency(a.id, a.name, a.location, a.description, a.rating, a.reviewCount, a.imageUrl,
                    a.priceRangeMin, a.priceRangeMax, a.smartMatchScore,
                    SplitTags(a.tags), ParsePortfolio(parse, a.portfolio))
  }

  /** `formattedAgencies`: one formatted agency per row, in the same order. */
  function FormatAgencies(parse: string -> Parsed, rows: seq<AgencyRow>): (r: seq<FormattedAgency>)
    ensures |r| == |rows|
    ensures forall i :: 0 <= i < |rows| ==> r[i] == Format(parse, rows[i])
  {
    if rows == [] then [] else [Format(parse, rows[0])] + FormatAgencies(parse, rows[1..])
  }

  datatype Response = Ok(body: seq<FormattedAgency>) | Error(status: nat, message: string)

  predicate RatingDescending(rows: seq<AgencyRow>) {
    forall i, j :: 0 <= i < j < |rows| ==> rows[i].rating >= rows[j].rating
  }

  /** `GET`: the store's rows (ordered by rating, highest first, by the query) are
      formatted; a store failure is a 500. */
  function Get(parse: string -> Parsed, rows: seq<AgencyRow>, storeFails: bool): (r: Response)
    ensures storeFails ==> r == Error(500, "Failed to fetch agencies")
    ensures !storeFails ==> r.Ok? && r.body == FormatAgencies(parse, rows)
  {
    if storeFails then Error(500, "Failed to fetch agencies") else Ok(FormatAgencies(parse, rows))
  }

  /** Formatting keeps the rating order of the query. */
  lemma FormatKeepsRatingOrder(parse: string -> Parsed, rows: seq<AgencyRow>)
    requires RatingDescending(rows)
    ensures forall i, j :: 0 <= i < j < |rows| ==>
      FormatAgencies(parse, rows)[i].rating >= FormatAgencies(parse, rows)[j].rating
  {
  }
}
