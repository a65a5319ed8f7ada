/** The public bonus page (src/components/pages/BonusPageView.jsx): loading
    a page by its route id records a view, claiming the bonus records a
    click and redirects to the affiliate link. */
module BonusPageView {
  import opened JsValues
  import opened Tables
  import opened BonusPageService

  const NotFoundHeading := "Page Not Found"
  const DefaultCta := "Claim Your Bonus Now"
  const DefaultProductName := "Featured Product"

  /** What the route shows once loading is over. */
  datatype Screen = NotFound(heading: string) | Showing(page: Record)

  function ScreenFor(shown: Option<Record>): (s: Screen)
    ensures s.NotFound? <==> shown.None?
    ensures s.NotFound? ==> s.heading == NotFoundHeading
    ensures s.Showing? ==> s.page == shown.value
  {
    match shown
    case None => NotFound(NotFoundHeading)
    case Some(page) => Showing(page)
  }

  /** loadPage: fetch the page with the route id, then record one view for
      that id. The page shown is the one fetched. */
  method LoadPage(store: BonusPageStore, id: Value) returns (screen: Screen)
    modifies store
    ensures screen == ScreenFor(Lookup(old(store.pages), id))
    ensures store.pages == Bump(old(store.pages), id, "views")
  {
    var pageData := store.GetById(id);
    screen := ScreenFor(pageData);
    var _ := store.TrackView(id);
  }

  /** handleClaimBonus: record one click for the route id, then send the
      visitor to the shown page's affiliate link. */
  method HandleClaimBonus(store: BonusPageStore, id: Value, page: Record) returns (redirect: Value)
    modifies store
    ensures store.pages == Bump(old(store.pages), id, "clicks")
    ensures redirect == Get(page, "affiliateLink")
  {
    var _ := store.TrackClick(id);
    redirect := Get(page, "affiliateLink");
  }

  /** Loading an id no page answers to shows "Page Not Found" and leaves
      the table as it was. */
  lemma UnknownPageChangesNothing(pages: seq<Record>, id: Value)
    requires forall j :: 0 <= j < |pages| ==> !MatchesId(pages[j], id)
    ensures ScreenFor(Lookup(pages, id)) == NotFound(NotFoundHeading)
    ensures Bump(pages, id, "views") == pages
  {
  }

  /** The button text: the page's own, or the default when it has none. */
  function CtaLabel(page: Record): (text: Value)
    ensures Truthy(text)
    ensures Truthy(Get(page, "ctaText")) ==> text == Get(page, "ctaText")
    ensures !Truthy(Get(page, "ctaText")) ==> text == Str(DefaultCta)
  {
    Or(Get(page, "ctaText"), Str(DefaultCta))
  }

  /** The product line: the page's product name, or the default. */
  function ProductLabel(page: Record): (text: Value)
    ensures Truthy(text)
    ensures Truthy(Get(page, "productName")) ==> text == Get(page, "productName")
    ensures !Truthy(Get(page, "productName")) ==> text == Str(DefaultProductName)
  {
    Or(Get(page, "productName"), Str(DefaultProductName))
  }
}
