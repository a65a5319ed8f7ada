/** The page list (src/components/pages/MyPages.jsx): the search filter over
    the loaded pages, the local list after a delete, and the badge colour of
    a status. */
module MyPages {
  import opened JsValues
  import opened Tables
  import opened BonusPageService

  /** `page[field].toLowerCase().includes(query.toLowerCase())`; a field
      that is not a string has no `toLowerCase` and the call throws. */
  function FieldMatches(page: Record, field: string, query: string): (r: Completion<bool>)
    ensures r.Throw? <==> !Get(page, field).Str?
    ensures r.Throw? ==> r == Throw(TypeError)
    ensures r.Return? ==> (r.value <==> Includes(ToLower(Get(page, field).s), ToLower(query)))
  {
    match Get(page, field)
    case Str(s) => Return(Includes(ToLower(s), ToLower(query)))
    case _ => Throw(TypeError)
  }

  /** The test of one page, title first; `||` reads the description only
      when the title does not match. */
  function PageMatches(page: Record, query: string): (r: Completion<bool>)
    ensures r.Throw? <==> (!Get(page, "title").Str?
      || (FieldMatches(page, "title", query) == Return(false) && !Get(page, "description").Str?))
    ensures r == Return(true) <==> (FieldMatches(page, "title", query) == Return(true)
      || (FieldMatches(page, "title", query) == Return(false) && FieldMatches(page, "description", query) == Return(true)))
  {
    match FieldMatches(page, "title", query)
    case Throw(e) => Throw(e)
    case Return(true) => Return(true)
    case Return(false) => FieldMatches(page, "description", query)
  }

  function Kept(query: string): Record -> bool {
    (page: Record) => PageMatches(page, query) == Return(true)
  }

  /** `pages.filter(...)`: the pages that match, in order; the first page
      whose test throws ends the filter with that exception. */
  function Search(pages: seq<Record>, query: string): Completion<seq<Record>>
    decreases |pages|
  {
    if |pages| == 0 then Return([])
    else match PageMatches(pages[0], query)
      case Throw(e) => Throw(e)
      case Return(keep) =>
        match Search(pages[1..], query)
        case Throw(e) => Throw(e)
        case Return(rest) => Return(if keep then [pages[0]] + rest else rest)
  }

  /** filterPages: every page when the trimmed query is empty, the search
      result otherwise (matched with the query as typed, untrimmed). */
  function FilterPages(pages: seq<Record>, searchQuery: string): (r: Completion<seq<Record>>)
    ensures Trim(searchQuery) == "" ==> r == Return(pages)
    ensures Trim(searchQuery) != "" && r.Return? ==> r.value == Filter(pages, Kept(searchQuery))
  {
    SearchIsFilter(pages, searchQuery);
    if Trim(searchQuery) == "" then Return(pages) else Search(pages, searchQuery)
  }

  /** The search throws exactly when the test of some page throws, and
      otherwise keeps exactly the matching pages in order. */
  lemma {:induction false} SearchIsFilter(pages: seq<Record>, query: string)
    ensures Search(pages, query).Throw? <==> exists j :: 0 <= j < |pages| && PageMatches(pages[j], query).Throw?
    ensures Search(pages, query).Return? ==> Search(pages, query).value == Filter(pages, Kept(query))
    decreases |pages|
  {
    if |pages| > 0 {
      SearchIsFilter(pages[1..], query);
      assert forall j :: 1 <= j < |pages| ==> pages[j] == pages[1..][j - 1];
      if exists j :: 1 <= j < |pages| && PageMatches(pages[j], query).Throw? {
        var j :| 1 <= j < |pages| && PageMatches(pages[j], query).Throw?;
        assert PageMatches(pages[1..][j - 1], query).Throw?;
      }
    }
  }

  /** A blank query (white space only, or empty) shows every page as loaded. */
  lemma BlankQueryShowsAll(pages: seq<Record>, searchQuery: string)
    requires forall i :: 0 <= i < |searchQuery| ==> IsWhiteSpace(searchQuery[i])
    ensures FilterPages(pages, searchQuery) == Return(pages)
  {
    TrimEmptyIffBlank(searchQuery);
  }

  /** When every title and description is a string, filtering never throws
      and keeps exactly the pages whose lower-cased title or description
      contains the lower-cased query. */
  lemma StringFieldsFilter(pages: seq<Record>, searchQuery: string)
    requires Trim(searchQuery) != ""
    requires forall j :: 0 <= j < |pages| ==> Get(pages[j], "title").Str? && Get(pages[j], "description").Str?
    ensures FilterPages(pages, searchQuery).Return?
    ensures var shown := FilterPages(pages, searchQuery).value;
      IsSubsequence(shown, pages)
      && forall p :: p in shown <==> (p in pages
        && (Includes(ToLower(Get(p, "title").s), ToLower(searchQuery))
            || Includes(ToLower(Get(p, "description").s), ToLower(searchQuery))))
  {
    SearchIsFilter(pages, searchQuery);
    FilterIsSubsequence(pages, Kept(searchQuery));
    forall p
      ensures p in Filter(pages, Kept(searchQuery)) <==> (p in pages
        && (Includes(ToLower(Get(p, "title").s), ToLower(searchQuery))
            || Includes(ToLower(Get(p, "description").s), ToLower(searchQuery))))
    {
      FilterMembership(pages, Kept(searchQuery), p);
    }
  }

  /** Whatever the data, a list that is shown is a subsequence of the pages. */
  lemma FilterShowsSubsequence(pages: seq<Record>, searchQuery: string)
    requires FilterPages(pages, searchQuery).Return?
    ensures IsSubsequence(FilterPages(pages, searchQuery).value, pages)
  {
    if Trim(searchQuery) == "" {
      SubsequenceOfItself(pages);
    } else {
      SearchIsFilter(pages, searchQuery);
      FilterIsSubsequence(pages, Kept(searchQuery));
    }
  }

  lemma {:induction false} SubsequenceOfItself(s: seq<Record>)
    ensures IsSubsequence(s, s)
    decreases |s|
  {
    if |s| > 0 {
      SubsequenceOfItself(s[1..]);
    }
  }

  /** The query is trimmed only for the blank test: " ab" is not blank, and
      it does not match a page titled and described "ab". */
  lemma UntrimmedQueryMatchesAsTyped()
    ensures var page := map["title" := Str("ab"), "description" := Str("ab")];
      FilterPages([page], " ab") == Return([])
  {
    var page := map["title" := Str("ab"), "description" := Str("ab")];
    assert TrimStart(" ab") == "ab" by {
      assert TrimStart(" ab") == TrimStart(" ab"[1..]);
      assert " ab"[1..] == "ab";
    }
    assert TrimEnd("ab") == "ab";
    assert ToLower(" ab") == " ab";
    assert !Includes(ToLower("ab"), ToLower(" ab"));
    assert PageMatches(page, " ab") == Return(false);
    assert Search([page], " ab") == Return([]) by {
      assert [page][1..] == [];
    }
  }

  // ---------------------------------------------------------------------
  // Deleting from the list

  function IdOtherThan(pageId: Value): Record -> bool {
    (page: Record) => !StrictEquals(Get(page, "id"), pageId)
  }

  /** `prev.filter(page => page.id !== pageId)`: every page with that id
      leaves the list, the others stay in order. */
  function LocalAfterDelete(pages: seq<Record>, pageId: Value): (r: seq<Record>)
    ensures IsSubsequence(r, pages)
    ensures forall p :: p in r <==> p in pages && !StrictEquals(Get(p, "id"), pageId)
    ensures forall p :: multiset(r)[p] == if StrictEquals(Get(p, "id"), pageId) then 0 else multiset(pages)[p]
  {
    FilterIsSubsequence(pages, IdOtherThan(pageId));
    forall p
      ensures multiset(Filter(pages, IdOtherThan(pageId)))[p]
        == if StrictEquals(Get(p, "id"), pageId) then 0 else multiset(pages)[p]
    {
      FilterCounts(pages, IdOtherThan(pageId), p);
    }
    forall p
      ensures p in Filter(pages, IdOtherThan(pageId)) <==> p in pages && !StrictEquals(Get(p, "id"), pageId)
    {
      FilterMembership(pages, IdOtherThan(pageId), p);
    }
    Filter(pages, IdOtherThan(pageId))
  }

  /** handleDeletePage: after confirmation, delete in the page table; the
      local list drops the page when the delete returns and is left alone
      when it throws. Without confirmation nothing happens. */
  method HandleDeletePage(store: BonusPageStore, pages: seq<Record>, pageId: Value, confirmed: bool)
    returns (shown: seq<Record>)
    modifies store
    ensures !confirmed ==> shown == pages && store.pages == old(store.pages)
    ensures confirmed && IndexOf(old(store.pages), pageId).None? ==>
      shown == pages && store.pages == old(store.pages)
    ensures confirmed && IndexOf(old(store.pages), pageId).Some? ==>
      shown == LocalAfterDelete(pages, pageId)
      && store.pages == RemoveAt(old(store.pages), IndexOf(old(store.pages), pageId).value)
  {
    shown := pages;
    if confirmed {
      var outcome := store.Delete(pageId);
      if outcome.Return? {
        shown := LocalAfterDelete(pages, pageId);
      }
    }
  }

  // ---------------------------------------------------------------------
  // Status badges

  /** getStatusColor: the badge variant of a page status. */
  function GetStatusColor(status: Value): (r: string)
    ensures r in {"success", "warning", "gray"}
    ensures r == "success" <==> status == Str("active")
    ensures r == "warning" <==> status == Str("draft")
  {
    match status
    case Str("active") => "success"
    case Str("draft") => "warning"
    case Str("archived") => "gray"
    case _ => "gray"
  }
}
