/** The API key table (src/services/api/apiKeyService.js): at most one key
    per AI provider, replaced on create, removed by provider on delete. */
module ApiKeyService {
  import opened JsValues
  import opened Tables

  const KeyNotFound := "API key not found"
  const ConnectionFailed := "Connection failed"

  function Provider(key: Record): Value {
    Get(key, "provider")
  }

  /** `k.provider === provider`. */
  predicate SameProvider(key: Record, provider: Value) {
    StrictEquals(Provider(key), provider)
  }

  function HasProvider(provider: Value): Record -> bool {
    (key: Record) => SameProvider(key, provider)
  }

  function HasOtherProvider(provider: Value): Record -> bool {
    (key: Record) => !SameProvider(key, provider)
  }

  function IndexOfProvider(keys: seq<Record>, provider: Value): (r: Option<nat>)
    ensures r.Some? ==> r.value < |keys| && SameProvider(keys[r.value], provider)
    ensures r.Some? ==> forall j :: 0 <= j < r.value ==> !SameProvider(keys[j], provider)
    ensures r.None? <==> forall j :: 0 <= j < |keys| ==> !SameProvider(keys[j], provider)
  {
    FindIndex(keys, HasProvider(provider))
  }

  /** The record create stores: the caller's fields, marked active and
      stamped with the time it was added. */
  function NewKey(apiKey: Record, addedAt: string): (r: Record)
    ensures r.Keys == apiKey.Keys + {"isActive", "addedAt"}
    ensures Provider(r) == Provider(apiKey)
    ensures Get(r, "isActive") == Bool(true) && Get(r, "addedAt") == Str(addedAt)
    ensures forall k :: k in apiKey && k != "isActive" && k != "addedAt" ==> r[k] == apiKey[k]
  {
    apiKey + map["isActive" := Bool(true), "addedAt" := Str(addedAt)]
  }

  /** The table with the first key of `provider` spliced out, if any. */
  function WithoutProvider(keys: seq<Record>, provider: Value): (r: seq<Record>)
    ensures IndexOfProvider(keys, provider).None? ==> r == keys
    ensures IndexOfProvider(keys, provider).Some? ==>
      r == RemoveAt(keys, IndexOfProvider(keys, provider).value) && |r| == |keys| - 1
  {
    match IndexOfProvider(keys, provider)
    case None => keys
    case Some(i) => RemoveAt(keys, i)
  }

  /** No two keys answer to the same provider. */
  predicate UniqueProviders(keys: seq<Record>) {
    forall i, j :: 0 <= i < j < |keys| ==> !StrictEquals(Provider(keys[i]), Provider(keys[j]))
  }

  /** How many keys answer to `provider`. */
  function Occurrences(keys: seq<Record>, provider: Value): nat {
    |Filter(keys, HasProvider(provider))|
  }

  /** testConnection with the random draw as a parameter: it fails when the
      draw is at most 0.2 and succeeds otherwise. */
  function TestConnection(draw: real): (r: Completion<Record>)
    requires 0.0 <= draw < 1.0
    ensures r.Throw? <==> draw <= 0.2
    ensures r.Throw? ==> r.exception == Error(ConnectionFailed)
    ensures r.Return? ==> Get(r.value, "success") == Bool(true)
  {
    if draw > 0.2 then
      Return(map["success" := Bool(true), "message" := Str("Connection successful")])
    else
      Throw(Error(ConnectionFailed))
  }

  class ApiKeyStore {
    var keys: seq<Record>

    /** The table as loaded from the key fixtures. */
    constructor (fixture: seq<Record>)
      ensures keys == fixture
    {
      keys := fixture;
    }

    /** getAll hands out the live table. */
    method GetAll() returns (r: seq<Record>)
      ensures r == keys
    {
      r := keys;
    }

    /** Stores `apiKey` as the provider's key, dropping the one it had. */
    method Create(apiKey: Record, addedAt: string) returns (newKey: Record)
      modifies this
      ensures newKey == NewKey(apiKey, addedAt)
      ensures keys == WithoutProvider(old(keys), Provider(apiKey)) + [newKey]
    {
      newKey := NewKey(apiKey, addedAt);
      var existing := IndexOfProvider(keys, Provider(apiKey));
      if existing.Some? {
        keys := RemoveAt(keys, existing.value);
      }
      keys := keys + [newKey];
    }

    method Delete(provider: Value) returns (r: Completion<bool>)
      modifies this
      ensures IndexOfProvider(old(keys), provider).None? ==> r == Throw(Error(KeyNotFound)) && keys == old(keys)
      ensures IndexOfProvider(old(keys), provider).Some? ==> r == Return(true) && keys == WithoutProvider(old(keys), provider)
    {
      var index := IndexOfProvider(keys, provider);
      if index.None? {
        return Throw(Error(KeyNotFound));
      }
      keys := RemoveAt(keys, index.value);
      r := Return(true);
    }
  }

  // ---------------------------------------------------------------------
  // Properties

  /** In a table with unique providers, removing the provider's key leaves
      no key of that provider and the rest still unique. */
  lemma WithoutProviderClears(keys: seq<Record>, provider: Value)
    requires UniqueProviders(keys)
    ensures var r := WithoutProvider(keys, provider);
      UniqueProviders(r) && forall j :: 0 <= j < |r| ==> !SameProvider(r[j], provider)
  {
    var r := WithoutProvider(keys, provider);
    if IndexOfProvider(keys, provider).Some? {
      var i := IndexOfProvider(keys, provider).value;
      forall j | 0 <= j < |r|
        ensures !SameProvider(r[j], provider)
      {
        if j < i {
          assert r[j] == keys[j];
        } else {
          assert r[j] == keys[j + 1];
          assert !StrictEquals(Provider(keys[i]), Provider(keys[j + 1]));
        }
      }
      forall a, b | 0 <= a < b < |r|
        ensures !StrictEquals(Provider(r[a]), Provider(r[b]))
      {
        var a', b' := if a < i then a else a + 1, if b < i then b else b + 1;
        assert r[a] == keys[a'] && r[b] == keys[b'] && a' < b';
      }
    }
  }

  /** create keeps one key per provider, and the created one is the only
      key of its provider. */
  lemma CreateKeepsOneKeyPerProvider(keys: seq<Record>, apiKey: Record, addedAt: string)
    requires UniqueProviders(keys)
    requires !Provider(apiKey).NaN?
    ensures var r := WithoutProvider(keys, Provider(apiKey)) + [NewKey(apiKey, addedAt)];
      UniqueProviders(r) && Occurrences(r, Provider(apiKey)) == 1
  {
    var p := Provider(apiKey);
    var rest := WithoutProvider(keys, p);
    var newKey := NewKey(apiKey, addedAt);
    var r := rest + [newKey];
    WithoutProviderClears(keys, p);
    forall a, b | 0 <= a < b < |r|
      ensures !StrictEquals(Provider(r[a]), Provider(r[b]))
    {
      if b == |rest| {
        assert !SameProvider(rest[a], p);
      } else {
        assert r[a] == rest[a] && r[b] == rest[b];
      }
    }
    FilterConcat(rest, [newKey], HasProvider(p));
    FilterDropsAll(rest, HasProvider(p));
    assert Filter([newKey], HasProvider(p)) == [newKey];
  }

  /** create leaves the keys of every other provider as they were, in
      their order. */
  lemma CreateKeepsOtherProviders(keys: seq<Record>, apiKey: Record, addedAt: string)
    requires !Provider(apiKey).NaN?
    ensures var p := Provider(apiKey);
      Filter(WithoutProvider(keys, p) + [NewKey(apiKey, addedAt)], HasOtherProvider(p))
        == Filter(keys, HasOtherProvider(p))
  {
    var p := Provider(apiKey);
    var newKey := NewKey(apiKey, addedAt);
    FilterConcat(WithoutProvider(keys, p), [newKey], HasOtherProvider(p));
    assert Filter([newKey], HasOtherProvider(p)) == [];
    if IndexOfProvider(keys, p).Some? {
      FilterRemoveRejected(keys, IndexOfProvider(keys, p).value, HasOtherProvider(p));
    }
    assert Filter(WithoutProvider(keys, p), HasOtherProvider(p)) + [] == Filter(keys, HasOtherProvider(p));
  }

  /** delete of a stored provider shortens the table by one, leaves no key
      of that provider, and keeps providers unique. */
  lemma DeleteRemovesProvider(keys: seq<Record>, provider: Value)
    requires UniqueProviders(keys)
    requires IndexOfProvider(keys, provider).Some?
    ensures var r := WithoutProvider(keys, provider);
      |r| == |keys| - 1 && UniqueProviders(r) && Occurrences(r, provider) == 0
  {
    var r := WithoutProvider(keys, provider);
    WithoutProviderClears(keys, provider);
    FilterDropsAll(r, HasProvider(provider));
  }
}
