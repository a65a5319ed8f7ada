/** The API key settings panel (src/components/organisms/ApiSettings.jsx):
    the provider catalogue, the add-key form and its check, key masking,
    and deletion by provider. */
module ApiSettings {
  import opened JsValues
  import opened Tables
  import opened ApiKeyService

  datatype ProviderInfo = ProviderInfo(id: string, name: string, icon: string)

  /** The providers the panel offers, in display order. */
  const Providers: seq<ProviderInfo> := [
    ProviderInfo("openai", "OpenAI", "Brain"),
    ProviderInfo("claude", "Claude", "MessageSquare"),
    ProviderInfo("gemini", "Gemini", "Sparkles"),
    ProviderInfo("cohere", "Cohere", "Zap"),
    ProviderInfo("mistral", "Mistral", "Wind")]

  const FallbackIcon := "Key"
  const MaskPrefix := "•••••"

  /** What a key row shows for its provider: a display name (the provider
      value itself for an unknown one) and an icon. */
  datatype Label = Label(name: Value, icon: string)

  function IsProvider(providerId: Value): ProviderInfo -> bool {
    (p: ProviderInfo) => StrictEquals(Str(p.id), providerId)
  }

  /** getProviderInfo: the catalogue entry with that id, or the id itself
      with the generic key icon. */
  function GetProviderInfo(providerId: Value): (l: Label)
    ensures l.icon == FallbackIcon <==> Find(Providers, IsProvider(providerId)).None?
    ensures Find(Providers, IsProvider(providerId)).None? ==> l == Label(providerId, FallbackIcon)
  {
    match Find(Providers, IsProvider(providerId))
    case Some(p) => Label(Str(p.name), p.icon)
    case None => Label(providerId, FallbackIcon)
  }

  /** Each catalogue id is labelled with its own entry; anything else falls
      back to the id. */
  lemma ProviderLabels(providerId: Value)
    ensures forall i :: 0 <= i < |Providers| && providerId == Str(Providers[i].id) ==>
      GetProviderInfo(providerId) == Label(Str(Providers[i].name), Providers[i].icon)
    ensures (forall i :: 0 <= i < |Providers| ==> providerId != Str(Providers[i].id)) ==>
      GetProviderInfo(providerId) == Label(providerId, FallbackIcon)
  {
    var f := Find(Providers, IsProvider(providerId));
    if f.Some? {
      assert f.value in Providers;
    }
  }

  /** The add-key form. */
  datatype KeyForm = KeyForm(provider: string, key: string)

  const EmptyForm := KeyForm("", "")

  /** The add button is enabled, and handleAddKey goes ahead, when a
      provider is chosen and the key is not blank once trimmed. */
  predicate CanAdd(form: KeyForm) {
    form.provider != "" && Trim(form.key) != ""
  }

  lemma CanAddIffFilledIn(form: KeyForm)
    ensures CanAdd(form) <==> (form.provider != ""
      && exists i :: 0 <= i < |form.key| && !IsWhiteSpace(form.key[i]))
  {
    TrimEmptyIffBlank(form.key);
  }

  /** `newKey` as the object handed to the key service. */
  function FormRecord(form: KeyForm): (r: Record)
    ensures Provider(r) == Str(form.provider) && Get(r, "key") == Str(form.key)
  {
    map["provider" := Str(form.provider), "key" := Str(form.key)]
  }

  /** handleAddKey: a refused form changes nothing; otherwise the key is
      stored, the form is cleared and the list reloaded from the table. */
  method HandleAddKey(store: ApiKeyStore, form: KeyForm, shown: seq<Record>, addedAt: string)
    returns (form': KeyForm, shown': seq<Record>)
    modifies store
    ensures !CanAdd(form) ==> form' == form && shown' == shown && store.keys == old(store.keys)
    ensures CanAdd(form) ==>
      store.keys == WithoutProvider(old(store.keys), Str(form.provider)) + [NewKey(FormRecord(form), addedAt)]
      && form' == EmptyForm && shown' == store.keys
  {
    if !CanAdd(form) {
      return form, shown;
    }
    var _ := store.Create(FormRecord(form), addedAt);
    form' := EmptyForm;
    shown' := store.GetAll();
  }

  /** handleDeleteKey: after confirmation, delete the provider's key and
      reload the list; a failed delete or a refusal leaves the list. */
  method HandleDeleteKey(store: ApiKeyStore, provider: Value, shown: seq<Record>, confirmed: bool)
    returns (shown': seq<Record>)
    modifies store
    ensures !confirmed ==> shown' == shown && store.keys == old(store.keys)
    ensures confirmed && IndexOfProvider(old(store.keys), provider).None? ==>
      shown' == shown && store.keys == old(store.keys)
    ensures confirmed && IndexOfProvider(old(store.keys), provider).Some? ==>
      store.keys == WithoutProvider(old(store.keys), provider) && shown' == store.keys
  {
    shown' := shown;
    if confirmed {
      var outcome := store.Delete(provider);
      if outcome.Return? {
        shown' := store.GetAll();
      }
    }
  }

  /** `key.slice(-4)`: the last four characters, or the whole key when it
      is shorter. */
  function KeyTail(key: string): (t: string)
    ensures |t| == if |key| < 4 then |key| else 4
    ensures key == key[..|key| - |t|] + t
  {
    if |key| < 4 then key else key[|key| - 4..]
  }

  /** The masked key as displayed. */
  function MaskedKey(key: string): (m: string)
    ensures |m| >= |MaskPrefix| && m[..|MaskPrefix|] == MaskPrefix
    ensures m[|MaskPrefix|..] == KeyTail(key) && |m| <= |MaskPrefix| + 4
  {
    MaskPrefix + KeyTail(key)
  }

  /** Two keys that end alike are displayed alike, whatever comes before. */
  lemma MaskHidesAllButTail(prefix1: string, prefix2: string, tail: string)
    requires |tail| == 4
    ensures MaskedKey(prefix1 + tail) == MaskedKey(prefix2 + tail)
  {
    assert (prefix1 + tail)[|prefix1 + tail| - 4..] == tail;
    assert (prefix2 + tail)[|prefix2 + tail| - 4..] == tail;
  }
}
