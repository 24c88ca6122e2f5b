/**
 * The API service layer: a dictionary of provider API keys kept as JSON
 * text under the browser storage slot `pulseapi_api_keys`, the
 * "connected" test on it, and the provider list that merges a live OpenAI
 * usage response into the fixture list.
 *
 * Storage is the value of the one slot (`None` when the slot is absent);
 * JSON.parse and JSON.stringify are the `Codec` parameter; the network
 * request for OpenAI usage is the `fetched` parameter, `None` standing for
 * the `null` it resolves to on a non-ok response or a thrown error.
 */
module ApiService {
  import opened Wrappers
  import opened Json
  import opened Alerts

  /** Provider id to API key, as the storage slot holds it. */
  type KeyMap = Object

  /** One provider card: a plain object with an `id` property among others. */
  type Provider = Object

  /** The fixture module's exports. `getKPIData`, `getCostTrendData`,
      `getSpendBreakdown` and `getAlerts` return these fields unchanged. */
  datatype MockData = MockData(
    providers: seq<Provider>,
    kpiMetrics: Object,
    costTrendData: seq<Object>,
    spendBreakdown: seq<Object>,
    alerts: seq<Alert>)

  // ----- The key map in storage -----

  /** The text `getStoredKeys` parses: `localStorage.getItem(...) || '{}'`,
      so an absent slot and an empty one both read as `{}`. */
  function SlotText(slot: Option<string>): string {
    if slot.Some? && slot.value != "" then slot.value else "{}"
  }

  /** `getStoredKeys()`: the parsed map, or the empty map when parsing throws. */
  function GetStoredKeys(c: Codec, slot: Option<string>): (keys: KeyMap)
    ensures keys == map[] || c.parse(SlotText(slot)) == Some(keys)
    ensures c.parse(SlotText(slot)).None? ==> keys == map[]
    ensures Sound(c) && (slot == None || slot == Some("")) ==> keys == map[]
  {
    match c.parse(SlotText(slot))
    case Some(keys) => keys
    case None => map[]
  }

  /** `getStoredKeys` gives the parsed map when the slot holds parsable
      text, the empty map when the slot is absent, empty or unparsable, and
      reads back exactly the map that was last written. */
  lemma GetStoredKeysCases(c: Codec, slot: Option<string>)
    requires Sound(c)
    ensures slot == None || slot == Some("") ==> GetStoredKeys(c, slot) == map[]
    ensures slot.Some? && slot.value != "" && c.parse(slot.value).None? ==> GetStoredKeys(c, slot) == map[]
    ensures slot.Some? && slot.value != "" && c.parse(slot.value).Some? ==>
              GetStoredKeys(c, slot) == c.parse(slot.value).value
    ensures forall m :: GetStoredKeys(c, Some(c.stringify(m))) == m
  {
    assert c.parse(c.stringify(map[])) == Some(map[]);
  }

  /** The slot after `storeApiKey(provider, key)`: the stored map with
      `provider` set to `key`, written back as JSON. */
  function SlotAfterStore(c: Codec, slot: Option<string>, provider: string, key: string): (after: Option<string>)
    ensures after.Some?
    ensures Sound(c) ==> after.value != "" && GetStoredKeys(c, after) == GetStoredKeys(c, slot)[provider := Str(key)]
  {
    Some(c.stringify(GetStoredKeys(c, slot)[provider := Str(key)]))
  }

  /** The slot after `removeApiKey(provider)`: the stored map without
      `provider`, written back as JSON. */
  function SlotAfterRemove(c: Codec, slot: Option<string>, provider: string): (after: Option<string>)
    ensures after.Some?
    ensures Sound(c) ==> after.value != "" && GetStoredKeys(c, after) == GetStoredKeys(c, slot) - {provider}
  {
    Some(c.stringify(GetStoredKeys(c, slot) - {provider}))
  }

  /** After `storeApiKey(p, k)` the map sends `p` to `k` and every other
      provider keeps its entry, or its absence. */
  lemma StoreApiKeyFrame(c: Codec, slot: Option<string>, provider: string, key: string)
    requires Sound(c)
    ensures var before, after := GetStoredKeys(c, slot), GetStoredKeys(c, SlotAfterStore(c, slot, provider, key));
      && after == before[provider := Str(key)]
      && provider in after && after[provider] == Str(key)
      && (forall q :: q != provider ==> (q in after <==> q in before))
      && (forall q :: q != provider && q in before ==> after[q] == before[q])
  {
    GetStoredKeysCases(c, SlotAfterStore(c, slot, provider, key));
  }

  /** After `removeApiKey(p)` the map has no entry for `p` and every other
      provider keeps its entry; removing an absent provider leaves the map
      as it was. */
  lemma RemoveApiKeyFrame(c: Codec, slot: Option<string>, provider: string)
    requires Sound(c)
    ensures var before, after := GetStoredKeys(c, slot), GetStoredKeys(c, SlotAfterRemove(c, slot, provider));
      && after == before - {provider}
      && provider !in after
      && (forall q :: q != provider ==> (q in after <==> q in before))
      && (forall q :: q != provider && q in before ==> after[q] == before[q])
      && (provider !in before ==> after == before)
  {
    GetStoredKeysCases(c, SlotAfterRemove(c, slot, provider));
  }

  /** Removing twice writes the same slot as removing once. */
  lemma RemoveApiKeyIdempotent(c: Codec, slot: Option<string>, provider: string)
    requires Sound(c)
    ensures SlotAfterRemove(c, SlotAfterRemove(c, slot, provider), provider) == SlotAfterRemove(c, slot, provider)
  {
    RemoveApiKeyFrame(c, slot, provider);
    RemoveApiKeyFrame(c, SlotAfterRemove(c, slot, provider), provider);
  }

  /** Storing and then removing a provider's key leaves every other
      provider's entry as before; when the provider had no key before, the
      map is back where it started. */
  lemma StoreThenRemoveRestores(c: Codec, slot: Option<string>, provider: string, key: string)
    requires Sound(c)
    ensures var before := GetStoredKeys(c, slot);
      var after := GetStoredKeys(c, SlotAfterRemove(c, SlotAfterStore(c, slot, provider, key), provider));
      && after == before - {provider}
      && (provider !in before ==> after == before)
  {
    StoreApiKeyFrame(c, slot, provider, key);
    RemoveApiKeyFrame(c, SlotAfterStore(c, slot, provider, key), provider);
    assert GetStoredKeys(c, slot)[provider := Str(key)] - {provider} == GetStoredKeys(c, slot) - {provider};
  }

  // ----- Connected providers -----

  /** `isProviderConnected(providerId)`: the stored map has a truthy own
      entry for the provider. This is the corrected reading; see
      `IsProviderConnectedAsWritten` for what `!!keys[providerId]` does. */
  function IsProviderConnected(c: Codec, slot: Option<string>, provider: string): (connected: bool)
    ensures connected ==> provider in GetStoredKeys(c, slot) && GetStoredKeys(c, slot)[provider] != Str("")
    ensures Sound(c) && (slot == None || slot == Some("")) ==> !connected
  {
    var keys := GetStoredKeys(c, slot);
    provider in keys && Truthy(keys[provider])
  }

  /** Round trip: after storing a key the provider is connected exactly
      when the key is non-empty; after removing it the provider is not
      connected; storing or removing another provider's key does not change
      whether this one is connected. */
  lemma ConnectedRoundTrip(c: Codec, slot: Option<string>, provider: string, key: string, other: string)
    requires Sound(c)
    requires other != provider
    ensures IsProviderConnected(c, SlotAfterStore(c, slot, provider, key), provider) <==> key != ""
    ensures !IsProviderConnected(c, SlotAfterRemove(c, slot, provider), provider)
    ensures !IsProviderConnected(c, SlotAfterRemove(c, SlotAfterStore(c, slot, provider, key), provider), provider)
    ensures IsProviderConnected(c, SlotAfterStore(c, slot, other, key), provider) == IsProviderConnected(c, slot, provider)
    ensures IsProviderConnected(c, SlotAfterRemove(c, slot, other), provider) == IsProviderConnected(c, slot, provider)
  {
    StoreApiKeyFrame(c, slot, provider, key);
    RemoveApiKeyFrame(c, slot, provider);
    RemoveApiKeyFrame(c, SlotAfterStore(c, slot, provider, key), provider);
    StoreApiKeyFrame(c, slot, other, key);
    RemoveApiKeyFrame(c, slot, other);
  }

  /** The members every plain JavaScript object inherits from
      Object.prototype. Reading any of them gives a function or an object,
      which is truthy. */
  const ObjectPrototypeMembers: set<string> := {
    "constructor", "hasOwnProperty", "isPrototypeOf", "propertyIsEnumerable",
    "toLocaleString", "toString", "valueOf", "__proto__",
    "__defineGetter__", "__defineSetter__", "__lookupGetter__", "__lookupSetter__"
  }

  /** `!!keys[providerId]` as JavaScript evaluates it: the own entry when
      there is one, otherwise the inherited member of the same name. */
  function IsProviderConnectedAsWritten(c: Codec, slot: Option<string>, provider: string): (connected: bool)
    ensures IsProviderConnected(c, slot, provider) ==> connected
    ensures connected && !IsProviderConnected(c, slot, provider) ==>
              provider in ObjectPrototypeMembers && provider !in GetStoredKeys(c, slot)
    ensures provider in ObjectPrototypeMembers && provider !in GetStoredKeys(c, slot) ==> connected
  {
    var keys := GetStoredKeys(c, slot);
    if provider in keys then Truthy(keys[provider]) else provider in ObjectPrototypeMembers
  }

  /** As written, a provider named like an inherited member reads as
      connected with nothing stored, and stays connected after its key is
      removed. */
  lemma AsWrittenInheritedMembersConnect(c: Codec, slot: Option<string>)
    requires Sound(c)
    ensures IsProviderConnectedAsWritten(c, None, "constructor")
    ensures !IsProviderConnected(c, None, "constructor")
    ensures IsProviderConnectedAsWritten(c, SlotAfterRemove(c, slot, "toString"), "toString")
  {
    GetStoredKeysCases(c, None);
    RemoveApiKeyFrame(c, slot, "toString");
  }

  // ----- The provider list -----

  /** `p.id === id`. */
  predicate HasId(p: Provider, id: string) {
    "id" in p && p["id"] == Str(id)
  }

  /** `{ ...p, _source: 'live' }`: every field of `p` kept, `_source` set. */
  function WithLiveSource(p: Provider): (q: Provider)
    ensures q.Keys == p.Keys + {"_source"}
    ensures q["_source"] == Str("live")
    ensures forall f :: f in p && f != "_source" ==> q[f] == p[f]
  {
    p["_source" := Str("live")]
  }

  /** `providers.findIndex(p => p.id === id)`: the first position whose
      provider has that id, or -1 when there is none. */
  method FindIndexById(providers: seq<Provider>, id: string) returns (idx: int)
    ensures -1 <= idx < |providers|
    ensures 0 <= idx ==> HasId(providers[idx], id) && forall j :: 0 <= j < idx ==> !HasId(providers[j], id)
    ensures idx == -1 ==> forall j :: 0 <= j < |providers| ==> !HasId(providers[j], id)
  {
    idx := 0;
    while idx < |providers|
      invariant 0 <= idx <= |providers|
      invariant forall j :: 0 <= j < idx ==> !HasId(providers[j], id)
    {
      if HasId(providers[idx], id) {
        return;
      }
      idx := idx + 1;
    }
    idx := -1;
  }

  /** The list with its first provider of the given id marked live. */
  function MarkFirstLive(providers: seq<Provider>, id: string): (marked: seq<Provider>)
    ensures |marked| == |providers|
    ensures (forall j :: 0 <= j < |providers| ==> !HasId(providers[j], id)) ==> marked == providers
  {
    if providers == [] then []
    else if HasId(providers[0], id) then [WithLiveSource(providers[0])] + providers[1..]
    else [providers[0]] + MarkFirstLive(providers[1..], id)
  }

  /** Marking changes exactly the first provider with the id. */
  lemma {:induction false} MarkFirstLiveAt(providers: seq<Provider>, id: string, idx: nat)
    requires idx < |providers| && HasId(providers[idx], id)
    requires forall j :: 0 <= j < idx ==> !HasId(providers[j], id)
    ensures MarkFirstLive(providers, id) == providers[idx := WithLiveSource(providers[idx])]
  {
    if idx > 0 {
      MarkFirstLiveAt(providers[1..], id, idx - 1);
    }
  }

  /** The marked list has the same length and order as the original; only
      the first provider with the id can differ, and it differs only by
      gaining `_source: 'live'`. */
  lemma {:induction false} MarkFirstLiveFrame(providers: seq<Provider>, id: string)
    ensures var r := MarkFirstLive(providers, id);
      && |r| == |providers|
      && (forall i :: 0 <= i < |providers| && !HasId(providers[i], id) ==> r[i] == providers[i])
      && (forall i :: 0 <= i < |providers| && r[i] != providers[i] ==>
            r[i] == WithLiveSource(providers[i]) && forall j :: 0 <= j < i ==> !HasId(providers[j], id))
  {
    if providers != [] && !HasId(providers[0], id) {
      var rest := MarkFirstLive(providers[1..], id);
      MarkFirstLiveFrame(providers[1..], id);
      assert MarkFirstLive(providers, id) == [providers[0]] + rest;
    }
  }

  /** `if (keys.openai)` followed by `if (realData)`: a truthy OpenAI key is
      stored and the usage request resolved to a truthy value. `openai` is
      not an inherited member, so `keys.openai` reads the own entry only. */
  function LiveUsage(c: Codec, slot: Option<string>, fetched: Option<Json>): (live: bool)
    ensures live <==> IsProviderConnectedAsWritten(c, slot, "openai") && fetched.Some? && Truthy(fetched.value)
    ensures Sound(c) && slot == None ==> !live
  {
    var keys := GetStoredKeys(c, slot);
    && "openai" in keys && Truthy(keys["openai"])
    && fetched.Some? && Truthy(fetched.value)
  }

  // ----- The storage slot as an object -----

  /** The `pulseapi_api_keys` slot together with the operations that read
      and rewrite it. */
  class ApiKeyStore {
    const codec: Codec
    var slot: Option<string>

    ghost predicate Valid()
      reads this
    {
      Sound(codec)
    }

    constructor (codec: Codec, slot: Option<string>)
      requires Sound(codec)
      ensures Valid()
      ensures this.codec == codec && this.slot == slot
    {
      this.codec := codec;
      this.slot := slot;
    }

    /** `storeApiKey(provider, key)`: read the map, set one entry, write it back. */
    method StoreApiKey(provider: string, key: string)
      requires Valid()
      modifies this
      ensures Valid()
      ensures slot == SlotAfterStore(codec, old(slot), provider, key)
      ensures GetStoredKeys(codec, slot) == GetStoredKeys(codec, old(slot))[provider := Str(key)]
    {
      var keys := GetStoredKeys(codec, slot);
      keys := keys[provider := Str(key)];
      StoreApiKeyFrame(codec, slot, provider, key);
      slot := Some(codec.stringify(keys));
    }

    /** `removeApiKey(provider)`: read the map, delete one entry, write it back. */
    method RemoveApiKey(provider: string)
      requires Valid()
      modifies this
      ensures Valid()
      ensures slot == SlotAfterRemove(codec, old(slot), provider)
      ensures GetStoredKeys(codec, slot) == GetStoredKeys(codec, old(slot)) - {provider}
    {
      var keys := GetStoredKeys(codec, slot);
      keys := keys - {provider};
      RemoveApiKeyFrame(codec, slot, provider);
      slot := Some(codec.stringify(keys));
    }

    /** `getProvidersData()`: a copy of the fixture providers in which, when
        live OpenAI usage is available, the first provider with id `openai`
        gains `_source: 'live'`. Nothing else changes. */
    method GetProvidersData(data: MockData, fetched: Option<Json>) returns (providers: seq<Provider>)
      ensures LiveUsage(codec, slot, fetched) ==> providers == MarkFirstLive(data.providers, "openai")
      ensures !LiveUsage(codec, slot, fetched) ==> providers == data.providers
      ensures |providers| == |data.providers|
      ensures forall i :: 0 <= i < |providers| && !HasId(data.providers[i], "openai") ==> providers[i] == data.providers[i]
      ensures forall i :: 0 <= i < |providers| && providers[i] != data.providers[i] ==> providers[i] == WithLiveSource(data.providers[i])
    {
      var keys := GetStoredKeys(codec, slot);
      providers := data.providers;
      if "openai" in keys && Truthy(keys["openai"]) {
        var realData := fetched;
        if realData.Some? && Truthy(realData.value) {
          var idx := FindIndexById(providers, "openai");
          if idx >= 0 {
            MarkFirstLiveAt(providers, "openai", idx);
            providers := providers[idx := WithLiveSource(providers[idx])];
          }
        }
      }
      MarkFirstLiveFrame(data.providers, "openai");
    }
  }
}
