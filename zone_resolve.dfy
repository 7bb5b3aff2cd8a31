/**
 * `resolveZoneId` (`lib/zones.js`): the zone the pages routes query. A zone
 * id the request names wins; otherwise the site list is consulted for the
 * `default-pages-zone` site, then for any first site.
 */
module ZoneResolve {
  import opened Wrappers
  import opened JsValue
  import opened TeoZones

  /** How the `DescribeZones` call settled: it threw, or it answered with a `Zones` list or without one. */
  datatype ZonesLookup = LookupFailed | ZonesListed(zones: Option<seq<Zone>>)

  /** `Zones.find((z) => z.ZoneName === "default-pages-zone")`, as the index of the first match. */
  function FindPagesZone(zones: seq<Zone>): (r: Option<nat>)
    ensures r.Some? ==> r.value < |zones| && zones[r.value].zoneName == PagesZoneName
    ensures r.Some? ==> forall j :: 0 <= j < r.value ==> zones[j].zoneName != PagesZoneName
    ensures r.None? ==> forall j :: 0 <= j < |zones| ==> zones[j].zoneName != PagesZoneName
  {
    if |zones| == 0 then None
    else if zones[0].zoneName == PagesZoneName then Some(0)
    else
      match FindPagesZone(zones[1..])
      case Some(i) => Some(i + 1)
      case None => None
  }

  /**
   * `resolveZoneId({ reqZoneId })` with the outcome of the site lookup it
   * makes when no zone id was requested.
   */
  function ResolveZoneId(reqZoneId: Option<string>, lookup: ZonesLookup): (r: Option<string>)
    ensures TruthyText(reqZoneId) ==> r == reqZoneId
    ensures !TruthyText(reqZoneId) && (lookup.LookupFailed? || lookup.zones.None? || |lookup.zones.value| == 0) ==>
      r == reqZoneId
    ensures !TruthyText(reqZoneId) && lookup.ZonesListed? && lookup.zones.Some? && FindPagesZone(lookup.zones.value).Some? ==>
      r == Some(lookup.zones.value[FindPagesZone(lookup.zones.value).value].zoneId)
    ensures !TruthyText(reqZoneId) && lookup.ZonesListed? && lookup.zones.Some? && |lookup.zones.value| > 0 ==>
      (FindPagesZone(lookup.zones.value).None? ==> r == Some(lookup.zones.value[0].zoneId))
  {
    if TruthyText(reqZoneId) then reqZoneId
    else
      match lookup
      case LookupFailed => reqZoneId
      case ZonesListed(zones) =>
        if zones.None? then reqZoneId
        else
          match FindPagesZone(zones.value)
          case Some(i) => Some(zones.value[i].zoneId)
          case None => if |zones.value| > 0 then Some(zones.value[0].zoneId) else reqZoneId
  }

  /** When no zone is requested, the first `default-pages-zone` site is chosen, wherever it is listed. */
  lemma PagesZonePreferred(reqZoneId: Option<string>, zones: seq<Zone>, i: nat)
    requires !TruthyText(reqZoneId)
    requires i < |zones| && zones[i].zoneName == PagesZoneName
    requires forall j :: 0 <= j < i ==> zones[j].zoneName != PagesZoneName
    ensures ResolveZoneId(reqZoneId, ZonesListed(Some(zones))) == Some(zones[i].zoneId)
  {
    var found := FindPagesZone(zones);
    assert found.Some?;
    assert !(found.value < i) && !(found.value > i);
  }

  /** A zone id that was not requested is the id of a listed site. */
  lemma ResolvedFromList(reqZoneId: Option<string>, lookup: ZonesLookup)
    requires ResolveZoneId(reqZoneId, lookup) != reqZoneId
    ensures lookup.ZonesListed? && lookup.zones.Some?
    ensures exists i :: 0 <= i < |lookup.zones.value| && ResolveZoneId(reqZoneId, lookup) == Some(lookup.zones.value[i].zoneId)
  {
    var zones := lookup.zones.value;
    match FindPagesZone(zones)
    case Some(i) =>
      assert ResolveZoneId(reqZoneId, lookup) == Some(zones[i].zoneId);
    case None =>
      assert ResolveZoneId(reqZoneId, lookup) == Some(zones[0].zoneId);
  }
}
