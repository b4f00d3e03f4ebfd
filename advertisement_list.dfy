/**
 * The list page's computation over the fetched advertisements: a search and
 * category filter, then a page of at most ITEMS_PER_PAGE of the matches.
 */
module AdvertisementList {
  import opened Wrappers
  import opened JsValue
  import opened JsBuiltins
  import opened Advertisement

  const ITEMS_PER_PAGE: nat := 5

  /** The category selector: one category, or `'all'`. */
  datatype CategoryFilter = All | Only(category: AdvertisementType)

  predicate MatchesSearch(ad: Advertisement, search: string)
  {
    Includes(ToLower(ad.base.name), ToLower(search))
  }

  predicate MatchesCategory(ad: Advertisement, category: CategoryFilter)
  {
    category == All || TypeOf(ad) == category.category
  }

  predicate Keep(ad: Advertisement, search: string, category: CategoryFilter)
  {
    MatchesSearch(ad, search) && MatchesCategory(ad, category)
  }

  /** `filteredAds`: the advertisements both tests keep, in their order. */
  function FilterAds(ads: seq<Advertisement>, search: string, category: CategoryFilter): seq<Advertisement>
  {
    Filter(ads, ad => Keep(ad, search, category))
  }

  /**
   * An advertisement is listed exactly when its lower-cased name contains
   * the lower-cased search and the category is `'all'` or its own; the
   * listing is the input at increasing positions, those kept, in order.
   */
  lemma FilterAdsSpec(ads: seq<Advertisement>, search: string, category: CategoryFilter)
    returns (idx: seq<nat>)
    ensures forall ad :: ad in FilterAds(ads, search, category) <==>
      && ad in ads
      && Includes(ToLower(ad.base.name), ToLower(search))
      && (category == All || TypeOf(ad) == category.category)
    ensures SelectsKept(ads, ad => Keep(ad, search, category), FilterAds(ads, search, category), idx)
  {
    idx := FilterIndices(ads, ad => Keep(ad, search, category));
  }

  /** Filtering consecutive runs of the fetched list gives consecutive runs of the listing. */
  lemma FilterAdsConcat(a: seq<Advertisement>, b: seq<Advertisement>, search: string, category: CategoryFilter)
    ensures FilterAds(a + b, search, category) == FilterAds(a, search, category) + FilterAds(b, search, category)
  {
    FilterConcat(a, b, ad => Keep(ad, search, category));
  }

  /** With an empty search and `'all'`, every advertisement is listed. */
  lemma {:induction false} EmptySearchKeepsAll(ads: seq<Advertisement>)
    ensures FilterAds(ads, "", All) == ads
  {
    if ads != [] {
      assert ToLower("") == "";
      assert OccursAt(ToLower(ads[0].base.name), "", 0);
      EmptySearchKeepsAll(ads[1..]);
      assert FilterAds(ads, "", All) == [ads[0]] + FilterAds(ads[1..], "", All);
    }
  }

  // ---------------------------------------------------------------------
  // The same filter on the objects the server sends
  // ---------------------------------------------------------------------

  /** `ad.name.toLowerCase()` throws a TypeError unless `name` is a string. */
  predicate NameIsString(rec: Record)
  {
    Get(rec, "name").Str?
  }

  /** The page's test on a fetched object: it reads only `name` and `type`. */
  predicate KeepRecord(rec: Record, search: string, category: CategoryFilter)
    requires NameIsString(rec)
  {
    && Includes(ToLower(Get(rec, "name").s), ToLower(search))
    && (category == All || Get(rec, "type") == Str(Label(category.category)))
  }

  /** The page's test on fetched objects, as a function value. */
  function RecordTest(search: string, category: CategoryFilter): Record -> bool
  {
    rec => NameIsString(rec) && KeepRecord(rec, search, category)
  }

  /**
   * `filteredAds` over the fetched objects, whatever they hold: None when
   * the filter throws, because some object's `name` is not a string.
   */
  function FilterRecords(recs: seq<Record>, search: string, category: CategoryFilter): Option<seq<Record>>
  {
    if forall i :: 0 <= i < |recs| ==> NameIsString(recs[i]) then
      Some(Filter(recs, RecordTest(search, category)))
    else
      None
  }

  /**
   * The filter throws exactly when some object lacks a string `name`;
   * otherwise an object is listed exactly when its lower-cased name contains
   * the lower-cased search and the category is `'all'` or its `type` is that
   * category's literal, and the listing is the input at increasing positions.
   */
  lemma FilterRecordsSpec(recs: seq<Record>, search: string, category: CategoryFilter)
    returns (idx: seq<nat>)
    ensures FilterRecords(recs, search, category).None? <==>
      exists i :: 0 <= i < |recs| && !Get(recs[i], "name").Str?
    ensures FilterRecords(recs, search, category).Some? ==>
      forall rec :: rec in FilterRecords(recs, search, category).value <==>
        && rec in recs
        && Includes(ToLower(Get(rec, "name").s), ToLower(search))
        && (category == All || Get(rec, "type") == Str(Label(category.category)))
    ensures FilterRecords(recs, search, category).Some? ==>
      SelectsKept(recs, RecordTest(search, category), FilterRecords(recs, search, category).value, idx)
  {
    idx := FilterIndices(recs, RecordTest(search, category));
  }

  /** An advertisement and its JSON object pass the page's test alike. */
  lemma KeepRecordOfAdvertisement(ad: Advertisement, search: string, category: CategoryFilter)
    ensures NameIsString(ToRecord(ad))
    ensures KeepRecord(ToRecord(ad), search, category) == Keep(ad, search, category)
  {
    if category.Only? {
      assert FromLabel(Label(TypeOf(ad))) == Some(TypeOf(ad));
    }
  }

  /** The JSON objects of a list of advertisements. */
  function Records(ads: seq<Advertisement>): (r: seq<Record>)
    ensures |r| == |ads|
    ensures forall i :: 0 <= i < |ads| ==> r[i] == ToRecord(ads[i])
  {
    seq(|ads|, i requires 0 <= i < |ads| => ToRecord(ads[i]))
  }

  /**
   * On the objects of typed advertisements the filter never throws and lists
   * the objects of exactly the advertisements FilterAds lists.
   */
  lemma {:induction false} FilterRecordsOfAdvertisements(ads: seq<Advertisement>, search: string, category: CategoryFilter)
    ensures FilterRecords(Records(ads), search, category) == Some(Records(FilterAds(ads, search, category)))
  {
    forall i | 0 <= i < |ads| ensures NameIsString(Records(ads)[i]) {
      KeepRecordOfAdvertisement(ads[i], search, category);
    }
    RecordsFilter(ads, search, category);
  }

  lemma {:induction false} RecordsFilter(ads: seq<Advertisement>, search: string, category: CategoryFilter)
    ensures Filter(Records(ads), RecordTest(search, category)) == Records(FilterAds(ads, search, category))
  {
    if ads != [] {
      var head, tail := ads[0], ads[1..];
      RecordsFilter(tail, search, category);
      RecordsConcat([head], tail);
      assert ads == [head] + tail;
      FilterConcat(Records([head]), Records(tail), RecordTest(search, category));
      FilterAdsConcat([head], tail, search, category);
      RecordsConcat(FilterAds([head], search, category), FilterAds(tail, search, category));
      SingleRecordFilter(head, search, category);
    }
  }

  lemma SingleRecordFilter(ad: Advertisement, search: string, category: CategoryFilter)
    ensures Filter(Records([ad]), RecordTest(search, category)) == Records(FilterAds([ad], search, category))
  {
    KeepRecordOfAdvertisement(ad, search, category);
    assert Records([ad]) == [ToRecord(ad)];
  }

  lemma RecordsConcat(a: seq<Advertisement>, b: seq<Advertisement>)
    ensures Records(a + b) == Records(a) + Records(b)
  {
  }

  /** With an empty search and `'all'`, every object with a string `name` is listed, and the filter does not throw. */
  lemma {:induction false} EmptySearchKeepsAllRecords(recs: seq<Record>)
    requires forall i :: 0 <= i < |recs| ==> NameIsString(recs[i])
    ensures FilterRecords(recs, "", All) == Some(recs)
  {
    EmptySearchKeepsEach(recs);
  }

  lemma {:induction false} EmptySearchKeepsEach(recs: seq<Record>)
    requires forall i :: 0 <= i < |recs| ==> NameIsString(recs[i])
    ensures Filter(recs, RecordTest("", All)) == recs
  {
    if recs != [] {
      assert ToLower("") == "";
      assert OccursAt(ToLower(Get(recs[0], "name").s), "", 0);
      EmptySearchKeepsEach(recs[1..]);
      assert Filter(recs, RecordTest("", All)) == [recs[0]] + Filter(recs[1..], RecordTest("", All));
    }
  }

  /** `Math.ceil(n / ITEMS_PER_PAGE)`: the least page count whose pages hold n items. */
  function PageCount(n: nat): (r: nat)
    ensures ITEMS_PER_PAGE * r >= n
    ensures r > 0 ==> ITEMS_PER_PAGE * (r - 1) < n
  {
    (n + ITEMS_PER_PAGE - 1) / ITEMS_PER_PAGE
  }

  /** No page count below PageCount(n) suffices, so nothing matching means no pages. */
  lemma PageCountLeast(n: nat, k: nat)
    requires ITEMS_PER_PAGE * k >= n
    ensures PageCount(n) <= k
  {
  }

  /** `paginatedAds` for page number `page`, counted from 1. */
  function Page<T>(ads: seq<T>, page: int): seq<T>
  {
    Slice(ads, (page - 1) * ITEMS_PER_PAGE, page * ITEMS_PER_PAGE)
  }

  /** A page is the run of at most ITEMS_PER_PAGE items that starts at (page-1)*ITEMS_PER_PAGE. */
  lemma PageIsRun<T>(ads: seq<T>, page: int)
    requires page >= 1
    ensures var lo := Min((page - 1) * ITEMS_PER_PAGE, |ads|);
      Page(ads, page) == ads[lo..Min(page * ITEMS_PER_PAGE, |ads|)]
    ensures |Page(ads, page)| <= ITEMS_PER_PAGE
    ensures page > PageCount(|ads|) ==> Page(ads, page) == []
  {
  }

  function Min(a: int, b: int): int
  {
    if a <= b then a else b
  }

  /** Pages 1..k one after another. */
  function Pages<T>(ads: seq<T>, k: nat): seq<T>
  {
    if k == 0 then [] else Pages(ads, k - 1) + Page(ads, k)
  }

  lemma {:induction false} PagesArePrefix<T>(ads: seq<T>, k: nat)
    ensures Pages(ads, k) == ads[..Min(k * ITEMS_PER_PAGE, |ads|)]
  {
    if k > 0 {
      PagesArePrefix(ads, k - 1);
      PageIsRun(ads, k);
    }
  }

  /** Pages 1..pageCount together are exactly the filtered advertisements. */
  lemma PagesCoverAll<T>(ads: seq<T>)
    ensures Pages(ads, PageCount(|ads|)) == ads
  {
    PagesArePrefix(ads, PageCount(|ads|));
  }

  /** Pages 1..pageCount of the listing of the server's objects together are exactly that listing. */
  lemma PagesCoverAllRecords(recs: seq<Record>, search: string, category: CategoryFilter)
    requires FilterRecords(recs, search, category).Some?
    ensures var listing := FilterRecords(recs, search, category).value;
      Pages(listing, PageCount(|listing|)) == listing
    ensures var listing := FilterRecords(recs, search, category).value;
      forall p :: p >= 1 ==> |Page(listing, p)| <= ITEMS_PER_PAGE && (p > PageCount(|listing|) ==> Page(listing, p) == [])
  {
    var listing := FilterRecords(recs, search, category).value;
    PagesCoverAll(listing);
    forall p | p >= 1
      ensures |Page(listing, p)| <= ITEMS_PER_PAGE && (p > PageCount(|listing|) ==> Page(listing, p) == [])
    {
      PageIsRun(listing, p);
    }
  }
}
