/**
 * The parameters `loadExhibitors` hands to the listing request
 * (src/App.js:64-71): every field of the filter record, with the two id
 * lists comma-joined, or `null` when empty.
 */
module Query {
  import opened Options
  import Decimal
  import Filters

  /** A parameter value: `null`, a string or a number. */
  datatype Param = Null | Text(s: string) | Number(n: int)

  /**
   * The keys of the parameter object: the filter's own field names, sent as
   * `industry_category`, `country`, `_fields`, `search`, `search_first`,
   * `order`, `orderby`, `page` and `per_page`.
   */
  datatype Key = IndustryCategory | Country | Fields | Search | SearchFirst | Order | Orderby | Page | PerPage

  type Params = map<Key, Param>

  const Keys: set<Key> := {IndustryCategory, Country, Fields, Search, SearchFirst, Order, Orderby, Page, PerPage}

  /** An id list as a parameter: `ids.join(",")` when non-empty, `null` otherwise. */
  function IdsParam(ids: seq<int>): (p: Param)
    ensures p == Null <==> |ids| == 0
    ensures p.Number? == false
    ensures p.Text? ==> Decimal.ParseIds(p.s) == Some(ids)
  {
    if |ids| > 0 then
      Decimal.IdsRoundTrip(ids);
      Text(Decimal.JoinIds(ids))
    else Null
  }

  /** A `null`-or-string field passed through as it stands. */
  function OptionParam(o: Option<string>): (p: Param)
    ensures p == Null <==> o == None
    ensures o.Some? ==> p == Text(o.value)
  {
    match o
    case None => Null
    case Some(s) => Text(s)
  }

  /** The value the filter record gives each key: the spread `...filter` with the two id lists overridden. */
  function ParamOf(f: Filters.Filter, k: Key): (p: Param)
    ensures k == IndustryCategory ==> (p == Null <==> |f.industryCategory| == 0)
    ensures k == Country ==> (p == Null <==> |f.country| == 0)
    ensures k == Search ==> (p == Null <==> f.search == None)
    ensures k == SearchFirst ==> (p == Null <==> f.searchFirst == None)
    ensures k == Fields ==> p == Text(f.fields)
    ensures k == Order ==> p == Text(f.order)
    ensures k == Orderby ==> p == Text(f.orderby)
    ensures k == Page ==> p == Number(f.page)
    ensures k == PerPage ==> p == Number(f.perPage)
  {
    match k
    case IndustryCategory => IdsParam(f.industryCategory)
    case Country => IdsParam(f.country)
    case Fields => Text(f.fields)
    case Search => OptionParam(f.search)
    case SearchFirst => OptionParam(f.searchFirst)
    case Order => Text(f.order)
    case Orderby => Text(f.orderby)
    case Page => Number(f.page)
    case PerPage => Number(f.perPage)
  }

  /** The parameter object built from the filter record: one entry per key. */
  function ToParams(f: Filters.Filter): (m: Params)
    ensures m.Keys == Keys
    ensures forall k :: k in m ==> m[k] == ParamOf(f, k)
  {
    map k | k in Keys :: ParamOf(f, k)
  }

  /** Reads an id-list parameter back. */
  function IdsFromParam(p: Param): Option<seq<int>>
  {
    match p
    case Null => Some([])
    case Text(s) => Decimal.ParseIds(s)
    case Number(_) => None
  }

  function OptionFromParam(p: Param): Option<Option<string>>
  {
    match p
    case Null => Some(None)
    case Text(s) => Some(Some(s))
    case Number(_) => None
  }

  /** Reads a whole parameter object back into a filter record, when it has the right shape. */
  function FromParams(m: Params): Option<Filters.Filter>
  {
    if Keys <= m.Keys
       && IdsFromParam(m[IndustryCategory]).Some? && IdsFromParam(m[Country]).Some?
       && OptionFromParam(m[Search]).Some? && OptionFromParam(m[SearchFirst]).Some?
       && m[Fields].Text? && m[Order].Text? && m[Orderby].Text?
       && m[Page].Number? && m[PerPage].Number?
    then
      Some(Filters.Filter(
        IdsFromParam(m[IndustryCategory]).value,
        IdsFromParam(m[Country]).value,
        m[Fields].s,
        OptionFromParam(m[Search]).value,
        OptionFromParam(m[SearchFirst]).value,
        m[Order].s,
        m[Orderby].s,
        m[Page].n,
        m[PerPage].n))
    else None
  }

  /** Nothing is lost in serialisation: the filter can be read back from its parameters. */
  lemma ParamsRoundTrip(f: Filters.Filter)
    ensures FromParams(ToParams(f)) == Some(f)
  {
    var m := ToParams(f);
    assert IdsFromParam(m[IndustryCategory]) == Some(f.industryCategory);
    assert IdsFromParam(m[Country]) == Some(f.country);
  }

  /** So two different filter records never produce the same request. */
  lemma ParamsInjective(f: Filters.Filter, g: Filters.Filter)
    requires ToParams(f) == ToParams(g)
    ensures f == g
  {
    ParamsRoundTrip(f);
    ParamsRoundTrip(g);
  }

  /**
   * The parameters that reach the query string: the HTTP client leaves out
   * every parameter whose value is `null`.
   */
  function Sent(m: Params): (r: Params)
    ensures r.Keys <= m.Keys
    ensures forall k :: k in r ==> r[k] == m[k] && r[k] != Null
    ensures forall k :: k in m && m[k] != Null ==> k in r
  {
    map k | k in m && m[k] != Null :: m[k]
  }

  /** An empty id list and a cleared search are absent from the request; a non-empty list is sent joined. */
  lemma SentOmitsEmpty(f: Filters.Filter)
    ensures IndustryCategory in Sent(ToParams(f)) <==> |f.industryCategory| > 0
    ensures Country in Sent(ToParams(f)) <==> |f.country| > 0
    ensures Search in Sent(ToParams(f)) <==> f.search.Some?
    ensures |f.industryCategory| > 0 ==>
      Sent(ToParams(f))[IndustryCategory] == Text(Decimal.JoinIds(f.industryCategory))
    ensures |f.country| > 0 ==>
      Sent(ToParams(f))[Country] == Text(Decimal.JoinIds(f.country))
  {
    var m := ToParams(f);
    assert IndustryCategory in m && Country in m && Search in m;
  }

  /** Clearing the search box drops `search` from the request. */
  lemma EmptySearchNotSent(f: Filters.Filter)
    ensures Search !in Sent(ToParams(Filters.SearchInput(f, "")))
  {
  }

  /**
   * The request made at mount: page 1 of 5, premium first ascending, no id
   * filters, and `search` / `search_first` sent as empty strings (they start
   * as `""`, not `null`).
   */
  lemma InitialRequest()
    ensures var m := Sent(ToParams(Filters.Initial));
      && m.Keys == Keys - {IndustryCategory, Country}
      && m[Page] == Number(1) && m[PerPage] == Number(5)
      && m[Orderby] == Text("is_premium") && m[Order] == Text("asc")
      && m[Search] == Text("") && m[SearchFirst] == Text("")
      && m[Fields] == Text(Filters.ListingFields)
  {
    var m := Sent(ToParams(Filters.Initial));
    assert m.Keys == Keys - {IndustryCategory, Country};
  }

  /** Ids 3 and 7 are sent as `"3,7"`. */
  lemma JoinExample(f: Filters.Filter)
    requires f.industryCategory == [3, 7]
    ensures ToParams(f)[IndustryCategory] == Text("3,7")
  {
    Decimal.JoinIdsExample();
    assert ParamOf(f, IndustryCategory) == Text(Decimal.JoinIds([3, 7]));
  }
}
