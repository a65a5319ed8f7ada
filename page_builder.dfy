/** The page builder (src/components/organisms/PageBuilder.jsx): the form
    state, its edits, the check on the affiliate link and the page data
    handed to the page service. */
module PageBuilder {
  import opened JsValues
  import opened BonusService
  import opened BonusPageService
  import opened CreateBonus

  const DefaultCtaText := "Get This Bonus Now"
  const DefaultBackground := "#111827"
  const DefaultPrimary := "#6366F1"
  const DefaultAccent := "#10B981"

  /** The form fields, all text inputs. */
  datatype Form = Form(
    title: string,
    description: string,
    affiliateLink: string,
    ctaText: string,
    backgroundColor: string,
    primaryColor: string,
    accentColor: string)

  /** The names `handleInputChange` is called with. */
  datatype Field = Title | Description | AffiliateLink | CtaText | BackgroundColor | PrimaryColor | AccentColor

  function Read(form: Form, field: Field): string {
    match field
    case Title => form.title
    case Description => form.description
    case AffiliateLink => form.affiliateLink
    case CtaText => form.ctaText
    case BackgroundColor => form.backgroundColor
    case PrimaryColor => form.primaryColor
    case AccentColor => form.accentColor
  }

  /** The form the builder opens with: title and description from the
      bonus (empty without one), an empty link, the fixed button text and
      colours. */
  function InitialForm(bonus: Option<Bonus>): (f: Form)
    ensures f.title == (if bonus.Some? then bonus.value.title else "")
    ensures f.description == (if bonus.Some? then bonus.value.description else "")
    ensures f.affiliateLink == "" && f.ctaText == DefaultCtaText
    ensures f.backgroundColor == DefaultBackground && f.primaryColor == DefaultPrimary && f.accentColor == DefaultAccent
  {
    match bonus
    case None => Form("", "", "", DefaultCtaText, DefaultBackground, DefaultPrimary, DefaultAccent)
    case Some(b) => Form(b.title, b.description, "", DefaultCtaText, DefaultBackground, DefaultPrimary, DefaultAccent)
  }

  /** handleInputChange: `{ ...prev, [field]: value }`. */
  function SetField(form: Form, field: Field, value: string): (f: Form)
    ensures Read(f, field) == value
  {
    match field
    case Title => form.(title := value)
    case Description => form.(description := value)
    case AffiliateLink => form.(affiliateLink := value)
    case CtaText => form.(ctaText := value)
    case BackgroundColor => form.(backgroundColor := value)
    case PrimaryColor => form.(primaryColor := value)
    case AccentColor => form.(accentColor := value)
  }

  /** An edit changes the named field and no other. */
  lemma SetFieldChangesOnlyThatField(form: Form, field: Field, value: string, other: Field)
    ensures Read(SetField(form, field, value), other) == if other == field then value else Read(form, other)
  {
  }

  /** The same value typed again changes nothing. */
  lemma SetFieldIdempotent(form: Form, field: Field, value: string)
    ensures SetField(SetField(form, field, value), field, value) == SetField(form, field, value)
  {
  }

  /** `!pageData.affiliateLink.trim()`: the link is empty once trimmed. */
  predicate LinkMissing(form: Form) {
    Trim(form.affiliateLink) == ""
  }

  /** A link is refused exactly when it is white space only. */
  lemma LinkMissingIffBlank(form: Form)
    ensures LinkMissing(form) <==> forall i :: 0 <= i < |form.affiliateLink| ==> IsWhiteSpace(form.affiliateLink[i])
  {
    TrimEmptyIffBlank(form.affiliateLink);
  }

  /** The form as an object: the spread `...pageData`. */
  function FormRecord(form: Form): map<string, Value> {
    map[
      "title" := Str(form.title),
      "description" := Str(form.description),
      "affiliateLink" := Str(form.affiliateLink),
      "ctaText" := Str(form.ctaText),
      "backgroundColor" := Str(form.backgroundColor),
      "primaryColor" := Str(form.primaryColor),
      "accentColor" := Str(form.accentColor)]
  }

  /** The `design` object: the three colours of the form. */
  function Design(form: Form): (d: Value)
    ensures d.Obj? && d.fields.Keys == {"backgroundColor", "primaryColor", "accentColor"}
    ensures forall k :: k in d.fields ==> d.fields[k] == FormRecord(form)[k]
  {
    Obj(map[
      "backgroundColor" := Str(form.backgroundColor),
      "primaryColor" := Str(form.primaryColor),
      "accentColor" := Str(form.accentColor)])
  }

  /** `{ bonusId: bonus.id, ...pageData, design: {...} }`. */
  function Payload(form: Form, bonus: Bonus): (p: Record)
    ensures p.Keys == {"bonusId", "design"} + FormRecord(form).Keys
    ensures Get(p, "bonusId") == Str(bonus.id)
    ensures forall f: Field :: Get(p, FieldKey(f)) == Str(Read(form, f))
    ensures Get(p, "design") == Design(form)
  {
    map["bonusId" := Str(bonus.id)] + FormRecord(form) + map["design" := Design(form)]
  }

  function FieldKey(field: Field): (k: string)
    ensures k !in ForcedKeys && k != "bonusId" && k != "design"
  {
    match field
    case Title => "title"
    case Description => "description"
    case AffiliateLink => "affiliateLink"
    case CtaText => "ctaText"
    case BackgroundColor => "backgroundColor"
    case PrimaryColor => "primaryColor"
    case AccentColor => "accentColor"
  }

  /** The created page keeps what the builder sent: the bonus it belongs
      to, the link, the text, and the design, whatever the two clock
      readings of createPage are. */
  lemma CreatedPageKeepsPayload(form: Form, bonus: Bonus, idStamp: int, urlStamp: int, origin: string, createdAt: string)
    ensures var page := NewPage(Payload(form, bonus), idStamp, urlStamp, origin, createdAt);
      Get(page, "bonusId") == Str(bonus.id)
      && Get(page, "design") == Design(form)
      && forall f: Field :: Get(page, FieldKey(f)) == Str(Read(form, f))
  {
    CreatedPageKeepsBonus(form, bonus, idStamp, urlStamp, origin, createdAt);
    CreatedPageKeepsFields(form, bonus, idStamp, urlStamp, origin, createdAt);
  }

  lemma CreatedPageKeepsBonus(form: Form, bonus: Bonus, idStamp: int, urlStamp: int, origin: string, createdAt: string)
    ensures var page := NewPage(Payload(form, bonus), idStamp, urlStamp, origin, createdAt);
      Get(page, "bonusId") == Str(bonus.id) && Get(page, "design") == Design(form)
  {
    var p := Payload(form, bonus);
    assert "bonusId" !in ForcedKeys && "design" !in ForcedKeys;
    KeptByNewPage(p, "bonusId", idStamp, urlStamp, origin, createdAt);
    KeptByNewPage(p, "design", idStamp, urlStamp, origin, createdAt);
  }

  lemma CreatedPageKeepsFields(form: Form, bonus: Bonus, idStamp: int, urlStamp: int, origin: string, createdAt: string)
    ensures var page := NewPage(Payload(form, bonus), idStamp, urlStamp, origin, createdAt);
      forall f: Field :: Get(page, FieldKey(f)) == Str(Read(form, f))
  {
    var p := Payload(form, bonus);
    forall f: Field
      ensures Get(NewPage(p, idStamp, urlStamp, origin, createdAt), FieldKey(f)) == Str(Read(form, f))
    {
      KeptByNewPage(p, FieldKey(f), idStamp, urlStamp, origin, createdAt);
    }
  }

  /** Helper: a payload field outside the forced keys survives createPage. */
  lemma KeptByNewPage(p: Record, k: string, idStamp: int, urlStamp: int, origin: string, createdAt: string)
    requires k in p && k !in ForcedKeys
    ensures Get(NewPage(p, idStamp, urlStamp, origin, createdAt), k) == p[k]
  {
  }

  /** How handleCreatePage ends. */
  datatype Outcome =
    | LinkRequired             // the link was blank: nothing is created
    | CreateFailed             // reading `bonus.id` without a bonus threw
    | Created(navigation: Navigation)

  /** handleCreatePage: refuse a blank link; otherwise create the page
      through createPage as written, with its two clock readings `idStamp`
      and `urlStamp`, and go to the page list with it. */
  method HandleCreatePage(store: BonusPageStore, form: Form, bonus: Option<Bonus>, idStamp: int, urlStamp: int, origin: string, createdAt: string)
    returns (outcome: Outcome)
    modifies store
    ensures LinkMissing(form) ==> outcome == LinkRequired && store.pages == old(store.pages)
    ensures !LinkMissing(form) && bonus.None? ==> outcome == CreateFailed && store.pages == old(store.pages)
    ensures !LinkMissing(form) && bonus.Some? ==>
      var page := NewPage(Payload(form, bonus.value), idStamp, urlStamp, origin, createdAt);
      store.pages == old(store.pages) + [page] && outcome == Created(HandlePageCreated(page))
  {
    if LinkMissing(form) {
      return LinkRequired;
    }
    if bonus.None? {
      return CreateFailed;
    }
    var page := store.CreatePage(Payload(form, bonus.value), idStamp, urlStamp, origin, createdAt);
    outcome := Created(HandlePageCreated(page));
  }

  /** `bonus ? `/bonus/${bonus.id}` : "#"`. */
  function PreviewUrl(bonus: Option<Bonus>): (u: string)
    ensures bonus.None? ==> u == "#"
    ensures bonus.Some? ==> u == PageUrl("", bonus.value.id)
  {
    if bonus.Some? then "/bonus/" + bonus.value.id else "#"
  }
}
