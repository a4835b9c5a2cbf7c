/**
 * The component's single filter record (src/App.js:28-39) and the event
 * handlers that replace it. Every handler builds a new record from the old
 * one; none of them bounds `page`, and of the filter edits only the letter
 * jump resets it (the `first` move also sets it to 1).
 */
module Filters {
  import opened Options
  import IdLists

  /**
   * `search` and `search_first` are `""` in the initial record and `null` or
   * the entered text afterwards, so both are optional strings here.
   */
  datatype Filter = Filter(
    industryCategory: seq<int>,
    country: seq<int>,
    fields: string,
    search: Option<string>,
    searchFirst: Option<string>,
    order: string,
    orderby: string,
    page: int,
    perPage: int)

  /** The `_fields` projection requested for every listing (sent as written, `ig_url` twice). */
  const ListingFields: string :=
    "id,title,content,exhibitor_name,logo,is_premium,banner_logo,description,country,industry_category,stand,fb_url,ig_url,twitter_url,yt_url,ig_url,linkedln_url,company_url,company_email,company_phone,address,gallery_image_1,gallery_image_2,gallery_title_1,gallery_title_2"

  /** The record the component mounts with. */
  const Initial: Filter :=
    Filter([], [], ListingFields, Some(""), Some(""), "asc", "is_premium", 1, 5)

  // ---- checkboxes and badges (src/App.js:117-138, 161-173)

  /** `handleFilterIndustry`: a check appends `id`; an uncheck removes every `id`. */
  function CheckIndustry(f: Filter, id: int, checked: bool): (r: Filter)
    ensures r.(industryCategory := f.industryCategory) == f
    ensures checked ==> r.industryCategory == f.industryCategory + [id]
    ensures !checked ==> IdLists.RemovedAll(r.industryCategory, f.industryCategory, id)
  {
    if checked then f.(industryCategory := f.industryCategory + [id])
    else f.(industryCategory := IdLists.Without(f.industryCategory, id))
  }

  /** `handleFilterCountry`: the same on the country list. */
  function CheckCountry(f: Filter, id: int, checked: bool): (r: Filter)
    ensures r.(country := f.country) == f
    ensures checked ==> r.country == f.country + [id]
    ensures !checked ==> IdLists.RemovedAll(r.country, f.country, id)
  {
    if checked then f.(country := f.country + [id])
    else f.(country := IdLists.Without(f.country, id))
  }

  /** `removeIndustryFilter`: clicking an industry badge removes every occurrence of its id. */
  function RemoveIndustry(f: Filter, id: int): (r: Filter)
    ensures r.(industryCategory := f.industryCategory) == f
    ensures IdLists.RemovedAll(r.industryCategory, f.industryCategory, id)
  {
    f.(industryCategory := IdLists.Without(f.industryCategory, id))
  }

  /** `removeCountryFilter`: the same for a country badge. */
  function RemoveCountry(f: Filter, id: int): (r: Filter)
    ensures r.(country := f.country) == f
    ensures IdLists.RemovedAll(r.country, f.country, id)
  {
    f.(country := IdLists.Without(f.country, id))
  }

  /** Unchecking a box and clicking its badge are the same transition. */
  lemma UncheckIsBadge(f: Filter, id: int)
    ensures CheckIndustry(f, id, false) == RemoveIndustry(f, id)
    ensures CheckCountry(f, id, false) == RemoveCountry(f, id)
  {
  }

  /** Checking a box that was not checked and unchecking it again restores the record. */
  lemma CheckUncheckRestores(f: Filter, id: int)
    ensures id !in f.industryCategory ==> CheckIndustry(CheckIndustry(f, id, true), id, false) == f
    ensures id !in f.country ==> CheckCountry(CheckCountry(f, id, true), id, false) == f
  {
    IdLists.WithoutAppended(f.industryCategory, id);
    IdLists.WithoutAppended(f.country, id);
    if id !in f.industryCategory { IdLists.WithoutAbsent(f.industryCategory, id); }
    if id !in f.country { IdLists.WithoutAbsent(f.country, id); }
  }

  /** Removing an id that is not selected leaves the record unchanged, and removal is idempotent. */
  lemma RemoveAbsentAndIdempotent(f: Filter, id: int)
    ensures id !in f.industryCategory ==> RemoveIndustry(f, id) == f
    ensures id !in f.country ==> RemoveCountry(f, id) == f
    ensures RemoveIndustry(RemoveIndustry(f, id), id) == RemoveIndustry(f, id)
    ensures RemoveCountry(RemoveCountry(f, id), id) == RemoveCountry(f, id)
  {
    if id !in f.industryCategory { IdLists.WithoutAbsent(f.industryCategory, id); }
    if id !in f.country { IdLists.WithoutAbsent(f.country, id); }
    IdLists.WithoutIdempotent(f.industryCategory, id);
    IdLists.WithoutIdempotent(f.country, id);
  }

  /**
   * The checkboxes are controlled by `includes(id)` (src/App.js:255, 292), so
   * a change event reports `checked` exactly when the id is not yet listed.
   * Under that discipline the id lists stay repeat-free.
   */
  lemma CheckKeepsNoRepeats(f: Filter, id: int, checked: bool)
    requires checked == (id !in f.industryCategory)
    requires IdLists.NoRepeats(f.industryCategory)
    ensures IdLists.NoRepeats(CheckIndustry(f, id, checked).industryCategory)
  {
    if !checked {
      IdLists.SubsequenceNoRepeats(CheckIndustry(f, id, checked).industryCategory, f.industryCategory);
    }
  }

  /** The same for the country checkboxes. */
  lemma CheckCountryKeepsNoRepeats(f: Filter, id: int, checked: bool)
    requires checked == (id !in f.country)
    requires IdLists.NoRepeats(f.country)
    ensures IdLists.NoRepeats(CheckCountry(f, id, checked).country)
  {
    if !checked {
      IdLists.SubsequenceNoRepeats(CheckCountry(f, id, checked).country, f.country);
    }
  }

  /** Badge removal keeps the lists repeat-free as well. */
  lemma RemoveKeepsNoRepeats(f: Filter, id: int)
    requires IdLists.NoRepeats(f.industryCategory) && IdLists.NoRepeats(f.country)
    ensures IdLists.NoRepeats(RemoveIndustry(f, id).industryCategory)
    ensures IdLists.NoRepeats(RemoveCountry(f, id).country)
  {
    IdLists.SubsequenceNoRepeats(RemoveIndustry(f, id).industryCategory, f.industryCategory);
    IdLists.SubsequenceNoRepeats(RemoveCountry(f, id).country, f.country);
  }

  /**
   * Nothing in the handler de-duplicates: a check event for an id already
   * listed (which the rendered checkbox never sends) lists it twice.
   */
  lemma CheckTwiceDuplicates(f: Filter, id: int)
    ensures multiset(CheckIndustry(CheckIndustry(f, id, true), id, true).industryCategory)[id]
         == multiset(f.industryCategory)[id] + 2
  {
    var twice := CheckIndustry(CheckIndustry(f, id, true), id, true).industryCategory;
    assert twice == f.industryCategory + [id] + [id];
  }

  // ---- search box and letter jump (src/App.js:175-179, 209-216)

  /** `handleSearchWithDebounce` with the text committed once input settles: `""` clears the search. */
  function SearchInput(f: Filter, text: string): (r: Filter)
    ensures r.(search := f.search) == f
    ensures r.search == None <==> text == ""
    ensures text != "" ==> r.search == Some(text)
  {
    f.(search := if text == "" then None else Some(text))
  }

  /** `handleSearchFirst`: `"All"` clears the first-letter filter; any jump goes back to page 1. */
  function JumpToLetter(f: Filter, letter: string): (r: Filter)
    ensures r.(searchFirst := f.searchFirst, page := f.page) == f
    ensures r.page == 1
    ensures r.searchFirst == None <==> letter == "All"
    ensures letter != "All" ==> r.searchFirst == Some(letter)
  {
    f.(page := 1, searchFirst := if letter == "All" then None else Some(letter))
  }

  // ---- pagination moves (src/App.js:82-115); none of them checks a bound

  /** `handlePagination(n)`. */
  function GoToPage(f: Filter, n: int): (r: Filter)
    ensures r.(page := f.page) == f
    ensures r.page == n
  {
    f.(page := n)
  }

  /** `next`. */
  function NextPage(f: Filter): (r: Filter)
    ensures r.(page := f.page) == f
    ensures r.page > f.page
  {
    f.(page := f.page + 1)
  }

  /** `prev`. */
  function PrevPage(f: Filter): (r: Filter)
    ensures r.(page := f.page) == f
    ensures r.page < f.page
  {
    f.(page := f.page - 1)
  }

  /** `first`. */
  function FirstPage(f: Filter): (r: Filter)
    ensures r.(page := f.page) == f
    ensures r.page == 1
  {
    f.(page := 1)
  }

  /** `last`: jumps to the page total of the latest response. */
  function LastPage(f: Filter, countPage: int): (r: Filter)
    ensures r.(page := f.page) == f
    ensures r.page == countPage
  {
    f.(page := countPage)
  }

  /** Next and previous undo each other, whatever the page. */
  lemma NextPrevInverse(f: Filter)
    ensures PrevPage(NextPage(f)) == f
    ensures NextPage(PrevPage(f)) == f
  {
  }

  /** Next and previous are single steps of a numbered jump; first and last are jumps to the ends. */
  lemma MovesAreJumps(f: Filter, countPage: int)
    ensures NextPage(f) == GoToPage(f, f.page + 1)
    ensures PrevPage(f) == GoToPage(f, f.page - 1)
    ensures FirstPage(f) == GoToPage(f, 1)
    ensures LastPage(f, countPage) == GoToPage(f, countPage)
    ensures GoToPage(f, f.page) == f
  {
  }

  /** Only the letter jump moves back to page 1; the other filter edits keep the page. */
  lemma FilterEditsKeepPage(f: Filter, id: int, on: bool, text: string, letter: string)
    ensures CheckIndustry(f, id, on).page == f.page
    ensures CheckCountry(f, id, on).page == f.page
    ensures RemoveIndustry(f, id).page == f.page
    ensures RemoveCountry(f, id).page == f.page
    ensures SearchInput(f, text).page == f.page
    ensures JumpToLetter(f, letter).page == 1
  {
  }
}
