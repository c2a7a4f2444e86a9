/** The agency profile form: the values loaded from the profile API and the
    portfolio edits. */
module AgencyProfile {
  import opened Wrappers

  datatype FormData = FormData(
    name: string,
    location: string,
    description: string,
    priceRangeMin: real,
    priceRangeMax: real,
    tags: string,
    portfolio: seq<string>,
    newImageUrl: string)

  /** The form before the profile arrives. */
  const InitialForm: FormData := FormData([], [], [], 100000.0, 500000.0, [], [], [])

  /** The profile as `/api/agency/profile` returns it; absent columns are `None`. */
  datatype Profile = Profile(
    name: string,
    location: string,
    description: Option<string>,
    priceRangeMin: real,
    priceRangeMax: real,
    tags: Option<string>,
    portfolio: Option<string>)

  /** The outcome of the request: `fetch` itself throws, no ok answer, or the profile. */
  datatype FetchResult = Threw | NotOk | Fetched(profile: Profile)

  /** `value || ""`. */
  function OrEmpty(v: Option<string>): (r: string)
    ensures v.Some? && v.value != [] ==> r == v.value
    ensures v.None? || v.value == [] ==> r == []
  {
    if v.Some? then v.value else []
  }

  /** `fetchProfile`. `parse` stands for `JSON.parse` on the portfolio column,
      `None` when it throws. A `fetch` that throws and a portfolio that does not
      parse are caught alike: the form is left as it was and no toast is raised.
      A request answered without ok raises the "Failed to load profile" toast. */
  function LoadProfile(form: FormData, res: FetchResult, parse: string -> Option<seq<string>>): (r: (FormData, Option<string>))
    ensures res.Threw? ==> r == (form, None)
    ensures res.NotOk? ==> r == (form, Some("Failed to load profile"))
    ensures res.Fetched? && Given(res.profile.portfolio) && parse(res.profile.portfolio.value).None? ==>
      r == (form, None)
    ensures res.Fetched? && !(Given(res.profile.portfolio) && parse(res.profile.portfolio.value).None?) ==>
      r.1 == None &&
      r.0.name == res.profile.name && r.0.location == res.profile.location &&
      r.0.description == OrEmpty(res.profile.description) && r.0.tags == OrEmpty(res.profile.tags) &&
      r.0.priceRangeMin == res.profile.priceRangeMin && r.0.priceRangeMax == res.profile.priceRangeMax &&
      r.0.portfolio == (if Given(res.profile.portfolio) then parse(res.profile.portfolio.value).value else []) &&
      r.0.newImageUrl == []
  {
    if res.Threw? then (form, None)
    else if res.NotOk? then (form, Some("Failed to load profile"))
    else
      var p := res.profile;
      if Given(p.portfolio) && parse(p.portfolio.value).None? then (form, None)
      else
        var portfolio := if Given(p.portfolio) then parse(p.portfolio.value).value else [];
        (FormData(p.name, p.location, OrEmpty(p.description), p.priceRangeMin, p.priceRangeMax,
                  OrEmpty(p.tags), portfolio, []), None)
  }

  predicate Given(v: Option<string>) {
    v.Some? && v.value != []
  }

  /** A profile with no description, tags or portfolio loads as "", "" and `[]`. */
  lemma MissingColumnsDefault(form: FormData, p: Profile, parse: string -> Option<seq<string>>)
    requires p.description.None? && p.tags.None? && p.portfolio.None?
    ensures LoadProfile(form, Fetched(p), parse).0.description == []
    ensures LoadProfile(form, Fetched(p), parse).0.tags == []
    ensures LoadProfile(form, Fetched(p), parse).0.portfolio == []
  {
  }

  /** `addImage`: an empty URL does nothing; otherwise the URL goes to the end of
      the portfolio and the box is cleared. Duplicates are not filtered. */
  function AddImage(f: FormData): (r: FormData)
    ensures f.newImageUrl == [] ==> r == f
    ensures f.newImageUrl != [] ==> r == f.(portfolio := f.portfolio + [f.newImageUrl], newImageUrl := [])
  {
    if f.newImageUrl == [] then f
    else f.(portfolio := f.portfolio + [f.newImageUrl], newImageUrl := [])
  }

  /** `portfolio.filter((_, i) => i !== index)`. */
  function RemoveAt(s: seq<string>, index: int): (r: seq<string>)
    ensures !(0 <= index < |s|) ==> r == s
    ensures 0 <= index < |s| ==> |r| == |s| - 1
    ensures 0 <= index < |s| ==> forall j :: 0 <= j < index ==> r[j] == s[j]
    ensures 0 <= index < |s| ==> forall j :: index <= j < |r| ==> r[j] == s[j + 1]
    decreases |s|
  {
    if s == [] then []
    else (if index == 0 then [] else [s[0]]) + RemoveAt(s[1..], index - 1)
  }

  /** `removeImage(index)`: only the portfolio changes. */
  function RemoveImage(f: FormData, index: int): (r: FormData)
    ensures r == f.(portfolio := RemoveAt(f.portfolio, index))
  {
    f.(portfolio := RemoveAt(f.portfolio, index))
  }

  /** Removing drops exactly one occurrence of the element at the index. */
  lemma {:induction false} RemoveAtMultiset(s: seq<string>, index: nat)
    requires index < |s|
    ensures multiset(RemoveAt(s, index)) + multiset{s[index]} == multiset(s)
    decreases |s|
  {
    if index > 0 {
      RemoveAtMultiset(s[1..], index - 1);
      assert RemoveAt(s, index) == [s[0]] + RemoveAt(s[1..], index - 1);
      assert s == [s[0]] + s[1..];
    } else {
      assert RemoveAt(s, index) == RemoveAt(s[1..], -1) == s[1..];
      assert s == [s[0]] + s[1..];
    }
  }

  /** Adding an image and removing it again restores the portfolio. */
  lemma AddThenRemove(f: FormData)
    requires f.newImageUrl != []
    ensures RemoveImage(AddImage(f), |f.portfolio|).portfolio == f.portfolio
  {
  }

  /** Adding a URL already in the portfolio stores it twice. */
  lemma AddKeepsDuplicates(f: FormData)
    requires f.newImageUrl != [] && f.newImageUrl in f.portfolio
    ensures multiset(AddImage(f).portfolio)[f.newImageUrl] == multiset(f.portfolio)[f.newImageUrl] + 1
    ensures multiset(AddImage(f).portfolio)[f.newImageUrl] >= 2
  {
  }
}
