/** The bonus page table (src/services/api/bonusPageService.js): an
    in-memory array of page records that createPage appends to, update and
    delete rewrite, and trackView / trackClick bump counters on in place.
    The array is the `pages` field of a `BonusPageStore`. */
module BonusPageService {
  import opened JsValues
  import opened Tables

  const PageNotFound := "Page not found"

  /** The keys createPage writes over the caller's page data. */
  const ForcedKeys: set<string> := {"id", "url", "status", "views", "clicks", "conversions", "createdAt"}

  /** The lookup test of getById, update, delete and the trackers:
      `Id === parseInt(id) || id === id`. */
  predicate MatchesId(page: Record, id: Value) {
    (ParseIntValue(id).Some? && StrictEquals(Get(page, "Id"), Num(ParseIntValue(id).value)))
    || StrictEquals(Get(page, "id"), id)
  }

  function Matcher(id: Value): Record -> bool {
    (page: Record) => MatchesId(page, id)
  }

  /** The position findIndex reports, or None for -1. */
  function IndexOf(pages: seq<Record>, id: Value): (r: Option<nat>)
    ensures r.Some? ==> r.value < |pages| && MatchesId(pages[r.value], id)
    ensures r.Some? ==> forall j :: 0 <= j < r.value ==> !MatchesId(pages[j], id)
    ensures r.None? <==> forall j :: 0 <= j < |pages| ==> !MatchesId(pages[j], id)
  {
    FindIndex(pages, Matcher(id))
  }

  /** What getById resolves to: the first matching record, or undefined. */
  function Lookup(pages: seq<Record>, id: Value): (r: Option<Record>)
    ensures r.None? <==> forall j :: 0 <= j < |pages| ==> !MatchesId(pages[j], id)
    ensures r.Some? ==> IndexOf(pages, id).Some? && r.value == pages[IndexOf(pages, id).value]
  {
    match IndexOf(pages, id)
    case None => None
    case Some(i) => Some(pages[i])
  }

  /** The page id createPage derives from one clock reading. */
  function PageId(stamp: int): string {
    "page_" + IntToString(stamp)
  }

  /** The public address of a page id under an origin. */
  function PageUrl(origin: string, pageId: string): string {
    origin + "/bonus/" + pageId
  }

  /** The record createPage stores: the caller's fields, overwritten by
      the fresh id, url, status, zero counters and creation time. The id
      and the url each read the clock, so they take separate stamps. */
  function NewPage(pageData: Record, idStamp: int, urlStamp: int, origin: string, createdAt: string): (page: Record)
    ensures page.Keys == pageData.Keys + ForcedKeys
    ensures forall k :: k in pageData && k !in ForcedKeys ==> page[k] == pageData[k]
    ensures Get(page, "id") == Str(PageId(idStamp))
    ensures Get(page, "url") == Str(PageUrl(origin, PageId(urlStamp)))
    ensures Get(page, "status") == Str("active")
    ensures Get(page, "views") == Num(0) && Get(page, "clicks") == Num(0) && Get(page, "conversions") == Num(0)
    ensures Get(page, "createdAt") == Str(createdAt)
  {
    pageData + map[
      "id" := Str(PageId(idStamp)),
      "url" := Str(PageUrl(origin, PageId(urlStamp))),
      "status" := Str("active"),
      "views" := Num(0),
      "clicks" := Num(0),
      "conversions" := Num(0),
      "createdAt" := Str(createdAt)]
  }

  /** The table after trackView / trackClick: the first matching page has
      `field` set to `(field || 0) + 1`; an unknown id changes nothing. */
  function Bump(pages: seq<Record>, id: Value, field: string): (r: seq<Record>)
    ensures |r| == |pages|
    ensures IndexOf(pages, id).None? ==> r == pages
  {
    match IndexOf(pages, id)
    case None => pages
    case Some(i) => pages[i := pages[i][field := Increment(Get(pages[i], field))]]
  }

  /** Every page's `field` is a number or a falsy placeholder, the case in
      which `(field || 0) + 1` counts. */
  predicate NumericCounters(pages: seq<Record>, field: string) {
    forall j :: 0 <= j < |pages| ==> NumericCounter(Get(pages[j], field))
  }

  class BonusPageStore {
    var pages: seq<Record>

    /** The table as loaded from the page fixtures. */
    constructor (fixture: seq<Record>)
      ensures pages == fixture
    {
      pages := fixture;
    }

    /** createPage as written: the id and the url read the clock separately. */
    method CreatePage(pageData: Record, idStamp: int, urlStamp: int, origin: string, createdAt: string)
      returns (newPage: Record)
      modifies this
      ensures newPage == NewPage(pageData, idStamp, urlStamp, origin, createdAt)
      ensures pages == old(pages) + [newPage]
    {
      newPage := NewPage(pageData, idStamp, urlStamp, origin, createdAt);
      pages := pages + [newPage];
    }

    /** createPage with one clock reading for both the id and the url. */
    method CreatePageOneClock(pageData: Record, stamp: int, origin: string, createdAt: string)
      returns (newPage: Record)
      modifies this
      ensures newPage == NewPage(pageData, stamp, stamp, origin, createdAt)
      ensures Get(newPage, "url") == Str(PageUrl(origin, Get(newPage, "id").s))
      ensures pages == old(pages) + [newPage]
    {
      newPage := NewPage(pageData, stamp, stamp, origin, createdAt);
      pages := pages + [newPage];
    }

    /** getAll hands out the live table. */
    method GetAll() returns (r: seq<Record>)
      ensures r == pages
    {
      r := pages;
    }

    method GetById(id: Value) returns (r: Option<Record>)
      ensures r == Lookup(pages, id)
    {
      r := Lookup(pages, id);
    }

    method Update(id: Value, updates: Record) returns (r: Completion<Record>)
      modifies this
      ensures IndexOf(old(pages), id).None? ==> r == Throw(Error(PageNotFound)) && pages == old(pages)
      ensures IndexOf(old(pages), id).Some? ==>
        var i := IndexOf(old(pages), id).value;
        pages == MergeAt(old(pages), i, updates) && r == Return(pages[i])
    {
      var index := IndexOf(pages, id);
      if index.None? {
        return Throw(Error(PageNotFound));
      }
      pages := MergeAt(pages, index.value, updates);
      r := Return(pages[index.value]);
    }

    method Delete(id: Value) returns (r: Completion<bool>)
      modifies this
      ensures IndexOf(old(pages), id).None? ==> r == Throw(Error(PageNotFound)) && pages == old(pages)
      ensures IndexOf(old(pages), id).Some? ==>
        r == Return(true) && pages == RemoveAt(old(pages), IndexOf(old(pages), id).value)
    {
      var index := IndexOf(pages, id);
      if index.None? {
        return Throw(Error(PageNotFound));
      }
      pages := RemoveAt(pages, index.value);
      r := Return(true);
    }

    method TrackView(id: Value) returns (r: bool)
      modifies this
      ensures r && pages == Bump(old(pages), id, "views")
    {
      pages := Bump(pages, id, "views");
      r := true;
    }

    method TrackClick(id: Value) returns (r: bool)
      modifies this
      ensures r && pages == Bump(old(pages), id, "clicks")
    {
      pages := Bump(pages, id, "clicks");
      r := true;
    }
  }

  // ---------------------------------------------------------------------
  // Properties of the table operations

  /** A tracked page's counter goes up by exactly one; nothing else in the
      page and no other page changes. */
  lemma BumpCountsOne(pages: seq<Record>, id: Value, field: string)
    requires IndexOf(pages, id).Some?
    requires NumericCounter(Get(pages[IndexOf(pages, id).value], field))
    ensures var i := IndexOf(pages, id).value; var r := Bump(pages, id, field);
      Get(r[i], field) == Num(Count(Get(pages[i], field)) + 1)
      && (forall k :: k != field ==> Get(r[i], k) == Get(pages[i], k))
      && (forall j :: 0 <= j < |r| && j != i ==> r[j] == pages[j])
  {
    IncrementNumeric(Get(pages[IndexOf(pages, id).value], field));
  }

  /** Bumping a counter other than the id keys leaves every lookup where it was. */
  lemma BumpKeepsLookup(pages: seq<Record>, id: Value, field: string, other: Value)
    requires field != "Id" && field != "id"
    ensures IndexOf(Bump(pages, id, field), other) == IndexOf(pages, other)
  {
    var r := Bump(pages, id, field);
    forall j | 0 <= j < |r|
      ensures Matcher(other)(r[j]) == Matcher(other)(pages[j])
    {
      assert Get(r[j], "Id") == Get(pages[j], "Id") && Get(r[j], "id") == Get(pages[j], "id");
    }
    FindIndexSameVerdicts(r, Matcher(other), pages, Matcher(other));
  }

  /** Two views of the same page add two to its view counter. */
  lemma TrackViewTwice(pages: seq<Record>, id: Value)
    requires IndexOf(pages, id).Some?
    requires NumericCounter(Get(pages[IndexOf(pages, id).value], "views"))
    ensures var i := IndexOf(pages, id).value;
      Get(Bump(Bump(pages, id, "views"), id, "views")[i], "views") == Num(Count(Get(pages[i], "views")) + 2)
  {
    var i := IndexOf(pages, id).value;
    var once := Bump(pages, id, "views");
    BumpCountsOne(pages, id, "views");
    BumpKeepsLookup(pages, id, "views", id);
    BumpCountsOne(once, id, "views");
  }

  /** Tracking two different counters of a stored page, one after the
      other, raises both by one on that page and changes nothing else. */
  lemma BumpBoth(pages: seq<Record>, id: Value, first: string, second: string)
    requires IndexOf(pages, id).Some?
    requires first != second && first != "Id" && first != "id"
    requires NumericCounter(Get(pages[IndexOf(pages, id).value], first))
    requires NumericCounter(Get(pages[IndexOf(pages, id).value], second))
    ensures var i := IndexOf(pages, id).value;
      var after := Bump(Bump(pages, id, first), id, second);
      |after| == |pages|
      && Get(after[i], first) == Num(Count(Get(pages[i], first)) + 1)
      && Get(after[i], second) == Num(Count(Get(pages[i], second)) + 1)
      && (forall k :: k != first && k != second ==> Get(after[i], k) == Get(pages[i], k))
      && (forall j :: 0 <= j < |pages| && j != i ==> after[j] == pages[j])
  {
    var i := IndexOf(pages, id).value;
    var once := Bump(pages, id, first);
    BumpCountsOne(pages, id, first);
    BumpKeepsLookup(pages, id, first, id);
    assert Get(once[i], second) == Get(pages[i], second);
    BumpCountsOne(once, id, second);
  }

  /** Tracking keeps every counter numeric. */
  lemma BumpKeepsCountersNumeric(pages: seq<Record>, id: Value, field: string, counter: string)
    requires NumericCounters(pages, counter)
    ensures NumericCounters(Bump(pages, id, field), counter)
  {
    if IndexOf(pages, id).Some? && field == counter {
      IncrementNumeric(Get(pages[IndexOf(pages, id).value], field));
    }
  }

  /** A created page starts with numeric counters, so the table keeps them. */
  lemma CreateKeepsCountersNumeric(pages: seq<Record>, page: Record, counter: string)
    requires NumericCounters(pages, counter)
    requires counter in {"views", "clicks", "conversions"}
    requires Get(page, counter) == Num(0)
    ensures NumericCounters(pages + [page], counter)
  {
  }

  /** After create, getById on the new id returns the new page with the
      caller's fields (the design among them), provided no earlier record
      answers to that id. */
  lemma {:induction false} CreatedPageFoundById(pages: seq<Record>, pageData: Record, idStamp: int, urlStamp: int, origin: string, createdAt: string)
    requires IndexOf(pages, Str(PageId(idStamp))).None?
    ensures var page := NewPage(pageData, idStamp, urlStamp, origin, createdAt);
      Lookup(pages + [page], Str(PageId(idStamp))) == Some(page)
      && Get(page, "design") == Get(pageData, "design")
  {
    var page := NewPage(pageData, idStamp, urlStamp, origin, createdAt);
    var id := Str(PageId(idStamp));
    assert StrictEquals(Get(page, "id"), id);
    FindIndexAppended(pages, page, Matcher(id));
    assert "design" !in ForcedKeys;
  }

  /** After update, getById with the same id returns the merged record,
      unless the updates rewrite the id keys. */
  lemma UpdatedPageFoundById(pages: seq<Record>, id: Value, updates: Record)
    requires IndexOf(pages, id).Some?
    requires "Id" !in updates && "id" !in updates
    ensures var i := IndexOf(pages, id).value;
      Lookup(MergeAt(pages, i, updates), id) == Some(pages[i] + updates)
  {
    var i := IndexOf(pages, id).value;
    var r := MergeAt(pages, i, updates);
    assert Get(r[i], "Id") == Get(pages[i], "Id") && Get(r[i], "id") == Get(pages[i], "id");
    assert MatchesId(r[i], id);
    assert forall j :: 0 <= j < i ==> r[j] == pages[j];
  }

  /** delete removes one record, the first that answers to the id; when
      that was the only one, the id no longer resolves. */
  lemma DeleteRemovesMatch(pages: seq<Record>, id: Value)
    requires IndexOf(pages, id).Some?
    requires forall j :: 0 <= j < |pages| && j != IndexOf(pages, id).value ==> !MatchesId(pages[j], id)
    ensures var i := IndexOf(pages, id).value; var r := RemoveAt(pages, i);
      multiset(r) + multiset{pages[i]} == multiset(pages)
      && Lookup(r, id) == None
  {
    var i := IndexOf(pages, id).value;
    var r := RemoveAt(pages, i);
    assert multiset(r) + multiset{pages[i]} == multiset(pages) by {
      assert pages == pages[..i] + [pages[i]] + pages[i + 1..];
      assert r == pages[..i] + pages[i + 1..];
    }
    forall j | 0 <= j < |r|
      ensures !MatchesId(r[j], id)
    {
      if j >= i {
        assert r[j] == pages[j + 1];
      } else {
        assert r[j] == pages[j];
      }
    }
  }

  // ---------------------------------------------------------------------
  // The two clock readings of createPage

  /** As written, when the clock ticks between the id and the url, the
      route id in the page's url names no page: the new page's own id is
      different, and "page_..." is not a numeric Id. */
  lemma {:induction false} UrlMissesPageWhenClockTicks(pages: seq<Record>, pageData: Record, idStamp: int, urlStamp: int, origin: string, createdAt: string)
    requires idStamp != urlStamp
    requires IndexOf(pages, Str(PageId(urlStamp))).None?
    ensures var page := NewPage(pageData, idStamp, urlStamp, origin, createdAt);
      Get(page, "url") == Str(PageUrl(origin, PageId(urlStamp)))
      && Lookup(pages + [page], Str(PageId(urlStamp))) == None
  {
    var page := NewPage(pageData, idStamp, urlStamp, origin, createdAt);
    var route := Str(PageId(urlStamp));
    ParseIntOfWordIsNaN(PageId(urlStamp));
    if PageId(idStamp) == PageId(urlStamp) {
      assert IntToString(idStamp) == PageId(idStamp)[5..];
      IntToStringInjective(idStamp, urlStamp);
    }
    var s := pages + [page];
    assert !MatchesId(s[|pages|], route);
    assert forall j :: 0 <= j < |pages| ==> s[j] == pages[j];
  }

  /** With one clock reading, the route id in the url is the page's id and
      resolves to the new page. */
  lemma {:induction false} UrlResolvesToNewPage(pages: seq<Record>, pageData: Record, stamp: int, origin: string, createdAt: string)
    requires IndexOf(pages, Str(PageId(stamp))).None?
    ensures var page := NewPage(pageData, stamp, stamp, origin, createdAt);
      Get(page, "url") == Str(PageUrl(origin, PageId(stamp)))
      && Get(page, "id") == Str(PageId(stamp))
      && Lookup(pages + [page], Str(PageId(stamp))) == Some(page)
  {
    CreatedPageFoundById(pages, pageData, stamp, stamp, origin, createdAt);
  }
}
