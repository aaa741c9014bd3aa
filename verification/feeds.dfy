/**
 The feed registry: the static list of sensor feeds the dashboard polls, and
 the samples the time-series API returns for one feed.
 */
module Feeds {
  import opened Wrappers

  /** One configured sensor feed. `key` names the feed in the API and in the
      cache; `elementId` names the card in the page that opens its detail view. */
  datatype FeedConfig = FeedConfig(
    key: string,
    displayLabel: string,
    unit: string,
    color: string,
    elementId: string)

  /** One sample as received: the value is the API's raw string, not a number. */
  datatype Sample = Sample(value: string, createdAt: string)

  /** The four feeds of the dashboard, in registry order. */
  const Registry: seq<FeedConfig> := [
    FeedConfig("temperatura", "Temperatura Corporal", "°C", "#ff7675", "temperatura"),
    FeedConfig("pulso", "Pulso Cardíaco", "BPM", "#e84393", "pulso"),
    FeedConfig("oxigeno", "Saturación Oxígeno", "%", "#0984e3", "oxigeno"),
    FeedConfig("ambiente", "Temp. Ambiente", "°C", "#fdcb6e", "ambiente")
  ]

  /** `Array.prototype.find` on the registry by element id: the FIRST feed
      whose `elementId` equals `id`, or None when there is none. */
  function FindByElementId(feeds: seq<FeedConfig>, id: string): (r: Option<FeedConfig>)
    ensures r.None? <==> forall j :: 0 <= j < |feeds| ==> feeds[j].elementId != id
    ensures r.Some? ==>
      exists j :: 0 <= j < |feeds| && feeds[j] == r.value && r.value.elementId == id
        && forall k :: 0 <= k < j ==> feeds[k].elementId != id
  {
    if |feeds| == 0 then None
    else if feeds[0].elementId == id then
      Some(feeds[0])
    else
      FindByElementId(feeds[1..], id)
  }

  /** In the registry every element id is the feed's own key, and keys are distinct. */
  lemma RegistryIdsAreKeys()
    ensures forall j :: 0 <= j < |Registry| ==> Registry[j].elementId == Registry[j].key
    ensures forall j, k :: 0 <= j < k < |Registry| ==> Registry[j].key != Registry[k].key
  {
  }

  /** Looking up an element id in the registry finds the feed with that key, if any. */
  lemma FindInRegistry(id: string)
    ensures FindByElementId(Registry, id).Some? <==>
      id in {"temperatura", "pulso", "oxigeno", "ambiente"}
    ensures FindByElementId(Registry, id).Some? ==> FindByElementId(Registry, id).value.key == id
  {
    RegistryIdsAreKeys();
  }
}
