/** A site as the `DescribeZones` API lists it, shared by the zones route, the zone auto-selection and the dashboard's zone selector. */
module TeoZones {

  /** One entry of `Zones`: its `ZoneId` and `ZoneName`. */
  datatype Zone = Zone(zoneId: string, zoneName: string)

  /** The name of the site EdgeOne Pages creates for itself. */
  const PagesZoneName: string := "default-pages-zone"
}
