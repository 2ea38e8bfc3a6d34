/** The visitor record that `collectAndNotify` assembles: the geolocation
    reply copied field by field, the device, browser and OS strings derived
    from the user-agent parser's result, and the page context. Every field is
    optional, as in the record's type; the numbers of the reply (latitude,
    longitude, the ASN) are carried as their already-rendered strings. */
module Visitor {
  import opened JsValues

  datatype Flag = Flag(img: Option<string>, emoji: Option<string>, emojiUnicode: Option<string>)

  datatype Connection = Connection(asn: Option<string>, org: Option<string>, isp: Option<string>, domain: Option<string>)

  datatype Timezone = Timezone(
    id: Option<string>, abbr: Option<string>, isDst: Option<bool>,
    offset: Option<int>, utc: Option<string>, currentTime: Option<string>)

  /** The geolocation service's reply for one IP address. */
  datatype GeoReply = GeoReply(
    ip: Option<string>, success: Option<bool>, kind: Option<string>,
    continent: Option<string>, continentCode: Option<string>,
    country: Option<string>, countryCode: Option<string>,
    region: Option<string>, regionCode: Option<string>, city: Option<string>,
    latitude: Option<string>, longitude: Option<string>, isEu: Option<bool>,
    postal: Option<string>, callingCode: Option<string>, capital: Option<string>,
    borders: Option<string>, flag: Option<Flag>, connection: Option<Connection>,
    timezone: Option<Timezone>)

  /** The user-agent parser's device, browser and OS descriptors. */
  datatype AgentInfo = AgentInfo(
    vendor: Option<string>, model: Option<string>, deviceType: Option<string>,
    browserName: Option<string>, browserVersion: Option<string>,
    osName: Option<string>, osVersion: Option<string>)

  /** What the page and the navigator report at the moment of collection. */
  datatype PageContext = PageContext(
    pathname: string, href: string, referrer: string, localTime: string, userAgent: string)

  datatype VisitorRecord = VisitorRecord(
    ip: Option<string>, success: Option<bool>, kind: Option<string>,
    continent: Option<string>, continentCode: Option<string>,
    country: Option<string>, countryCode: Option<string>,
    region: Option<string>, regionCode: Option<string>, city: Option<string>,
    latitude: Option<string>, longitude: Option<string>, isEu: Option<bool>,
    postal: Option<string>, callingCode: Option<string>, capital: Option<string>,
    borders: Option<string>, flag: Option<Flag>, connection: Option<Connection>,
    timezone: Option<Timezone>,
    device: Option<string>, browser: Option<string>, os: Option<string>,
    page: Option<string>, fullUrl: Option<string>, referrer: Option<string>,
    timestamp: Option<string>, userAgent: Option<string>)

  const DesktopLabel: string := "Desktop"
  const DirectReferrer: string := "Direct"

  /** `vendor model` when both are known, else the device type, else "Desktop". */
  function DeviceLabel(a: AgentInfo): (dev: string)
    ensures dev != ""
    ensures Truthy(a.vendor) && Truthy(a.model) ==>
      dev == a.vendor.value + " " + a.model.value
    ensures !(Truthy(a.vendor) && Truthy(a.model)) && Truthy(a.deviceType) ==>
      dev == a.deviceType.value
    ensures !(Truthy(a.vendor) && Truthy(a.model)) && !Truthy(a.deviceType) ==>
      dev == DesktopLabel
  {
    if Truthy(a.vendor) && Truthy(a.model) then a.vendor.value + " " + a.model.value
    else OrElse(a.deviceType, DesktopLabel)
  }

  /** `${name} ${version}`: an unknown part renders as "undefined". */
  function NameVersion(name: Option<string>, version: Option<string>): string {
    Interpolate(name) + " " + Interpolate(version)
  }

  /** `document.referrer || "Direct"`. */
  function Referrer(documentReferrer: string): (r: string)
    ensures r != ""
    ensures documentReferrer != "" ==> r == documentReferrer
    ensures documentReferrer == "" ==> r == DirectReferrer
  {
    if documentReferrer != "" then documentReferrer else DirectReferrer
  }

  /** The record built from the geolocation reply, the parser's result and the page. */
  function Merge(geo: GeoReply, agent: AgentInfo, ctx: PageContext): (r: VisitorRecord)
    ensures GeoPart(r) == geo
    ensures r.device == Some(DeviceLabel(agent))
    ensures r.browser == Some(NameVersion(agent.browserName, agent.browserVersion))
    ensures r.os == Some(NameVersion(agent.osName, agent.osVersion))
    ensures r.page == Some(ctx.pathname) && r.fullUrl == Some(ctx.href)
    ensures r.referrer == Some(Referrer(ctx.referrer))
    ensures r.timestamp == Some(ctx.localTime) && r.userAgent == Some(ctx.userAgent)
  {
    VisitorRecord(
      geo.ip, geo.success, geo.kind,
      geo.continent, geo.continentCode, geo.country, geo.countryCode,
      geo.region, geo.regionCode, geo.city,
      geo.latitude, geo.longitude, geo.isEu,
      geo.postal, geo.callingCode, geo.capital, geo.borders,
      geo.flag, geo.connection, geo.timezone,
      Some(DeviceLabel(agent)),
      Some(NameVersion(agent.browserName, agent.browserVersion)),
      Some(NameVersion(agent.osName, agent.osVersion)),
      Some(ctx.pathname), Some(ctx.href), Some(Referrer(ctx.referrer)),
      Some(ctx.localTime), Some(ctx.userAgent))
  }

  /** The fields of a record that come from the geolocation reply. */
  function GeoPart(r: VisitorRecord): GeoReply {
    GeoReply(
      r.ip, r.success, r.kind,
      r.continent, r.continentCode, r.country, r.countryCode,
      r.region, r.regionCode, r.city,
      r.latitude, r.longitude, r.isEu,
      r.postal, r.callingCode, r.capital, r.borders,
      r.flag, r.connection, r.timezone)
  }

  /** The record's device, browser and OS fields are never empty: a label
      always falls back to "Desktop", and an unknown browser or OS still
      renders as "undefined undefined". */
  lemma DerivedFieldsPresent(geo: GeoReply, agent: AgentInfo, ctx: PageContext)
    ensures var r := Merge(geo, agent, ctx);
      Truthy(r.device) && Truthy(r.browser) && Truthy(r.os) && Truthy(r.referrer)
  {
  }
}
