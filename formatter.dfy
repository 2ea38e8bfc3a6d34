/** The built-in message formatter, `buildDefaultMessage`: a fixed header,
    then one line per requested field in the caller's order, then a fixed
    footer. Each line comes from a fixed table of templates, `fieldMap`;
    values taken from the record pass through HtmlEscape.EscapeHtml, except
    the flag emoji, which its template inserts as it is.

    The table is keyed by the 22 field names. Here a name is first resolved
    to a `Field` (FieldNamed), and the table maps each Field to its line. */
module Formatter {
  import opened JsValues
  import opened HtmlEscape
  import Visitor

  // Banner glyphs, written as code points: U+1F6A8 police light, U+2501 heavy
  // horizontal line, U+1F499 blue heart.
  const Divider: string := "\U{2501}\U{2501}\U{2501}\U{2501}\U{2501}\U{2501}\U{2501}\U{2501}\U{2501}\U{2501}\U{2501}\U{2501}\U{2501}\U{2501}\U{2501}\n"
  const Header: string := "\U{1F6A8} <b>New Visitor Alert</b>\n" + Divider
  const Credit: string := "<i>Built with \U{1F499} by Dycoder</i>"
  const Footer: string := Divider + Credit

  // Line icons, in the order of the template table.
  const PageIcon: string := "\U{1F310}"
  const IpIcon: string := "\U{1F4BB}"
  const CountryIcon: string := "\U{1F30D}"
  const CountryCodeIcon: string := "\U{1F3F3}\U{FE0F}"
  const CityIcon: string := "\U{1F3D9}\U{FE0F}"
  const RegionIcon: string := "\U{1F4CD}"
  const RegionCodeIcon: string := "\U{1F4CC}"
  const ContinentIcon: string := "\U{1F30E}"
  const ContinentCodeIcon: string := "\U{1F5FA}\U{FE0F}"
  const DeviceIcon: string := "\U{1F4F1}"
  const BrowserIcon: string := "\U{1F310}"
  const OsIcon: string := "\U{2699}\U{FE0F}"
  const TimeIcon: string := "\U{23F0}"
  const TimezoneIcon: string := "\U{1F550}"
  const IspIcon: string := "\U{1F4E1}"
  const OrgIcon: string := "\U{1F3E2}"
  const AsnIcon: string := "\U{1F522}"
  const CoordinatesIcon: string := "\U{1F4CC}"
  const PostalIcon: string := "\U{1F4EE}"
  const CallingCodeIcon: string := "\U{1F4DE}"
  const LocationIcon: string := "\U{1F4CD}"

  /** The entries of the template table. */
  datatype Field =
    | Page | Ip | Country | CountryCode | Flag | City | Region | RegionCode
    | Continent | ContinentCode | Device | Browser | Os | Time | Timezone
    | Isp | Org | Asn | Coordinates | Postal | CallingCode | Location

  /** The table's fields in the order the object literal lists them. The
      three parts exist only to keep each proof about the fields small: a
      proof looks at one part's handful of fields at a time. */
  const LeadingOrder: seq<Field> := [Page, Ip, Country, CountryCode, Flag, City, Region, RegionCode]
  const MiddleOrder: seq<Field> := [Continent, ContinentCode, Device, Browser, Os, Time, Timezone]
  const TrailingOrder: seq<Field> := [Isp, Org, Asn, Coordinates, Postal, CallingCode, Location]
  const FieldOrder: seq<Field> := LeadingOrder + MiddleOrder + TrailingOrder

  /** The names callers use in the field list: "page", "ip", "country",
      "country_code", "flag", "city", "region", "region_code", "continent",
      "continent_code", "device", "browser", "os", "time", "timezone", "isp",
      "org", "asn", "coordinates", "postal", "calling_code", "location". */
  const RecognisedKeys: set<string> := set f | f in FieldOrder :: Key(f)

  /** The table key of each field. */
  function Key(f: Field): string {
    match f
    case Page => "page"
    case Ip => "ip"
    case Country => "country"
    case CountryCode => "country_code"
    case Flag => "flag"
    case City => "city"
    case Region => "region"
    case RegionCode => "region_code"
    case Continent => "continent"
    case ContinentCode => "continent_code"
    case Device => "device"
    case Browser => "browser"
    case Os => "os"
    case Time => "time"
    case Timezone => "timezone"
    case Isp => "isp"
    case Org => "org"
    case Asn => "asn"
    case Coordinates => "coordinates"
    case Postal => "postal"
    case CallingCode => "calling_code"
    case Location => "location"
  }

  /** The field a key names, if any. */
  function FieldNamed(key: string): (r: Option<Field>)
    ensures r.Some? ==> Key(r.value) == key
  {
    if key == "page" then Some(Page)
    else if key == "ip" then Some(Ip)
    else if key == "country" then Some(Country)
    else if key == "country_code" then Some(CountryCode)
    else if key == "flag" then Some(Flag)
    else if key == "city" then Some(City)
    else if key == "region" then Some(Region)
    else if key == "region_code" then Some(RegionCode)
    else if key == "continent" then Some(Continent)
    else if key == "continent_code" then Some(ContinentCode)
    else if key == "device" then Some(Device)
    else if key == "browser" then Some(Browser)
    else if key == "os" then Some(Os)
    else if key == "time" then Some(Time)
    else if key == "timezone" then Some(Timezone)
    else if key == "isp" then Some(Isp)
    else if key == "org" then Some(Org)
    else if key == "asn" then Some(Asn)
    else if key == "coordinates" then Some(Coordinates)
    else if key == "postal" then Some(Postal)
    else if key == "calling_code" then Some(CallingCode)
    else if key == "location" then Some(Location)
    else None
  }

  /** The shape of every template line: `${icon} <b>${caption}:</b> ${value}`. */
  function Labeled(icon: string, caption: string, value: string): string {
    icon + " <b>" + caption + ":</b> " + value
  }

  function FlagEmoji(d: Visitor.VisitorRecord): Option<string> {
    if d.flag.Some? then d.flag.value.emoji else None
  }

  function TimezoneId(d: Visitor.VisitorRecord): Option<string> {
    if d.timezone.Some? then d.timezone.value.id else None
  }

  function TimezoneUtc(d: Visitor.VisitorRecord): Option<string> {
    if d.timezone.Some? then d.timezone.value.utc else None
  }

  function IspOf(d: Visitor.VisitorRecord): Option<string> {
    if d.connection.Some? then d.connection.value.isp else None
  }

  function OrgOf(d: Visitor.VisitorRecord): Option<string> {
    if d.connection.Some? then d.connection.value.org else None
  }

  function AsnOf(d: Visitor.VisitorRecord): Option<string> {
    if d.connection.Some? then d.connection.value.asn else None
  }

  /** Whether the entry of field `f` is a line for record `d`: the flag and
      postal entries are "" without their value, every other entry is always
      a line. */
  predicate Emits(d: Visitor.VisitorRecord, f: Field) {
    match f
    case Flag => Truthy(FlagEmoji(d))
    case Postal => Truthy(d.postal)
    case _ => true
  }

  /** The icon that opens the line of `f`; the flag line opens with the
      country's flag emoji itself. */
  function Icon(d: Visitor.VisitorRecord, f: Field): string {
    match f
    case Page => PageIcon
    case Ip => IpIcon
    case Country => CountryIcon
    case CountryCode => CountryCodeIcon
    case Flag => FlagEmoji(d).GetOr("")
    case City => CityIcon
    case Region => RegionIcon
    case RegionCode => RegionCodeIcon
    case Continent => ContinentIcon
    case ContinentCode => ContinentCodeIcon
    case Device => DeviceIcon
    case Browser => BrowserIcon
    case Os => OsIcon
    case Time => TimeIcon
    case Timezone => TimezoneIcon
    case Isp => IspIcon
    case Org => OrgIcon
    case Asn => AsnIcon
    case Coordinates => CoordinatesIcon
    case Postal => PostalIcon
    case CallingCode => CallingCodeIcon
    case Location => LocationIcon
  }

  /** The bold caption of the line of `f`. */
  function Caption(f: Field): string {
    match f
    case Page => "Page"
    case Ip => "IP"
    case Country => "Country"
    case CountryCode => "Country Code"
    case Flag => "Flag"
    case City => "City"
    case Region => "Region"
    case RegionCode => "Region Code"
    case Continent => "Continent"
    case ContinentCode => "Continent Code"
    case Device => "Device"
    case Browser => "Browser"
    case Os => "OS"
    case Time => "Time"
    case Timezone => "Timezone"
    case Isp => "ISP"
    case Org => "Organization"
    case Asn => "ASN"
    case Coordinates => "Coordinates"
    case Postal => "Postal"
    case CallingCode => "Calling Code"
    case Location => "Location"
  }

  /** The record value that the line of `f` shows (the flag line shows the
      country); None for the four lines that combine several values. */
  function RecordValue(d: Visitor.VisitorRecord, f: Field): Option<string> {
    match f
    case Page => d.page
    case Ip => d.ip
    case Country => d.country
    case CountryCode => d.countryCode
    case Flag => d.country
    case City => d.city
    case Region => d.region
    case RegionCode => d.regionCode
    case Continent => d.continent
    case ContinentCode => d.continentCode
    case Device => d.device
    case Browser => d.browser
    case Os => d.os
    case Time => d.timestamp
    case Isp => IspOf(d)
    case Org => OrgOf(d)
    case Asn => AsnOf(d)
    case Postal => d.postal
    case CallingCode => d.callingCode
    case _ => None
  }

  /** The text after the caption: the record's values, escaped, with the
      template's own separators. */
  function Value(d: Visitor.VisitorRecord, f: Field): string {
    match f
    case Timezone => EscapeHtml(TimezoneId(d)) + " (" + EscapeHtml(TimezoneUtc(d)) + ")"
    case Coordinates => EscapeHtml(d.latitude) + ", " + EscapeHtml(d.longitude)
    case CallingCode => "+" + EscapeHtml(d.callingCode)
    case Location => EscapeHtml(d.city) + ", " + EscapeHtml(d.region) + ", " + EscapeHtml(d.country)
    case _ => EscapeHtml(RecordValue(d, f))
  }

  /** The table entry of field `f` for record `d`. */
  function Template(d: Visitor.VisitorRecord, f: Field): string {
    if Emits(d, f) then Labeled(Icon(d, f), Caption(f), Value(d, f)) else ""
  }

  /** An object literal with one property per field of `fs`, added in order,
      the property of field `f` holding `entry(f)`. */
  function TableOf(entry: Field -> string, fs: seq<Field>): map<string, string> {
    if fs == [] then map[]
    else TableOf(entry, fs[..|fs| - 1])[Key(fs[|fs| - 1]) := entry(fs[|fs| - 1])]
  }

  /** The template table, `fieldMap`, filled in from one record. */
  function FieldMap(d: Visitor.VisitorRecord): map<string, string> {
    TableOf(f => Template(d, f), FieldOrder)
  }

  /** `fieldMap[field]`: undefined for a key the table does not hold. */
  function Lookup(m: map<string, string>, key: string): Option<string> {
    if key in m then Some(m[key]) else None
  }

  /** What one occurrence of `key` in the field list appends. */
  function LineFor(m: map<string, string>, key: string): string {
    var value := Lookup(m, key);
    if Truthy(value) then value.value + "\n" else ""
  }

  /** The lines the field list appends, in its order. */
  function Lines(m: map<string, string>, fields: seq<string>): string {
    if fields == [] then ""
    else Lines(m, fields[..|fields| - 1]) + LineFor(m, fields[|fields| - 1])
  }

  /** The message `buildDefaultMessage(data, fields)` returns. */
  function DefaultMessage(d: Visitor.VisitorRecord, fields: seq<string>): string {
    Header + Lines(FieldMap(d), fields) + Footer
  }

  /** `buildDefaultMessage`: the header, each field's line, then the footer. */
  method BuildDefaultMessage(data: Visitor.VisitorRecord, fields: seq<string>) returns (message: string)
    ensures message == DefaultMessage(data, fields)
  {
    message := Header;
    var fieldMap := FieldMap(data);
    message := AppendFieldLines(message, fieldMap, fields);
    message := message + Divider;
    message := message + Credit;
  }

  /** The `fields.forEach` loop: looks each field up in `fieldMap` and appends
      the value and a newline when the value is a non-empty string. */
  method AppendFieldLines(start: string, fieldMap: map<string, string>, fields: seq<string>)
    returns (message: string)
    ensures message == start + Lines(fieldMap, fields)
  {
    message := start;
    var i := 0;
    while i < |fields|
      invariant 0 <= i <= |fields|
      invariant message == start + Lines(fieldMap, fields[..i])
    {
      var value := Lookup(fieldMap, fields[i]);
      if Truthy(value) {
        message := message + (value.value + "\n");
      }
      assert message == start + Lines(fieldMap, fields[..i]) + LineFor(fieldMap, fields[i]);
      LinesSnoc(fieldMap, fields, i);
      i := i + 1;
    }
    assert fields[..i] == fields;
  }

  lemma LinesSnoc(m: map<string, string>, fields: seq<string>, i: nat)
    requires i < |fields|
    ensures Lines(m, fields[..i + 1]) == Lines(m, fields[..i]) + LineFor(m, fields[i])
  {
    assert fields[..i + 1][..i] == fields[..i];
  }

  // ----- the names of the table -----

  // NamesOfKeys1 to NamesOfKeys6 split the 22 fields into small groups only
  // so that each proof obligation stays cheap for the solver.

  lemma NamesOfKeys1(f: Field)
    requires f in {Page, Ip, Country, CountryCode}
    ensures FieldNamed(Key(f)) == Some(f)
  {
  }

  lemma NamesOfKeys2(f: Field)
    requires f in {Flag, City, Region, RegionCode}
    ensures FieldNamed(Key(f)) == Some(f)
  {
  }

  lemma NamesOfKeys3(f: Field)
    requires f in {Continent, ContinentCode, Device, Browser}
    ensures FieldNamed(Key(f)) == Some(f)
  {
  }

  lemma NamesOfKeys4(f: Field)
    requires f in {Os, Time, Timezone, Isp}
    ensures FieldNamed(Key(f)) == Some(f)
  {
  }

  lemma NamesOfKeys5(f: Field)
    requires f in {Org, Asn, Coordinates}
    ensures FieldNamed(Key(f)) == Some(f)
  {
  }

  lemma NamesOfKeys6(f: Field)
    requires f in {Postal, CallingCode, Location}
    ensures FieldNamed(Key(f)) == Some(f)
  {
  }

  /** Every field is named by exactly its own key. */
  lemma NamesOfKeys(f: Field)
    ensures FieldNamed(Key(f)) == Some(f)
  {
    match f
    case Page | Ip | Country | CountryCode => NamesOfKeys1(f);
    case Flag | City | Region | RegionCode => NamesOfKeys2(f);
    case Continent | ContinentCode | Device | Browser => NamesOfKeys3(f);
    case Os | Time | Timezone | Isp => NamesOfKeys4(f);
    case Org | Asn | Coordinates => NamesOfKeys5(f);
    case Postal | CallingCode | Location => NamesOfKeys6(f);
  }

  /** No two fields share a key, so the table holds one entry per field. */
  lemma KeysDistinct()
    ensures forall f, g :: Key(f) == Key(g) ==> f == g
  {
    forall f, g | Key(f) == Key(g) ensures f == g {
      NamesOfKeys(f);
      NamesOfKeys(g);
    }
  }

  /** The recognised keys are exactly the keys that name a field. */
  lemma RecognisedKeysNamed(key: string)
    ensures key in RecognisedKeys <==> FieldNamed(key).Some?
  {
    if FieldNamed(key).Some? {
      AllFieldsOrdered();
    } else if key in RecognisedKeys {
      var f :| f in FieldOrder && Key(f) == key;
      NamesOfKeys(f);
    }
  }

  /** Every field has its place in the table. */
  lemma AllFieldsOrdered()
    ensures forall f :: f in FieldOrder
  {
    forall f ensures f in FieldOrder {
      match f
      case Page | Ip | Country | CountryCode | Flag | City | Region | RegionCode =>
        assert f in LeadingOrder;
      case Continent | ContinentCode | Device | Browser | Os | Time | Timezone =>
        assert f in MiddleOrder;
      case Isp | Org | Asn | Coordinates | Postal | CallingCode | Location =>
        assert f in TrailingOrder;
    }
  }

  /** The table holds an entry for exactly the recognised keys. */
  lemma FieldMapKeys(d: Visitor.VisitorRecord)
    ensures FieldMap(d).Keys == RecognisedKeys
  {
    TableEntries(f => Template(d, f), FieldOrder);
    AllFieldsOrdered();
  }

  /** The entry of each field's key is that field's template. */
  lemma FieldMapEntry(d: Visitor.VisitorRecord, f: Field)
    ensures Key(f) in FieldMap(d) && FieldMap(d)[Key(f)] == Template(d, f)
  {
    TableEntries(g => Template(d, g), FieldOrder);
    AllFieldsOrdered();
  }

  /** The object literal holds a property for each of its fields' keys and
      no other, each holding the entry of the field of that key. */
  lemma {:induction false} TableEntries(entry: Field -> string, fs: seq<Field>)
    ensures forall k :: k in TableOf(entry, fs) ==> exists f :: f in fs && Key(f) == k
    ensures forall f :: f in fs ==> Key(f) in TableOf(entry, fs) && TableOf(entry, fs)[Key(f)] == entry(f)
    decreases |fs|
  {
    if fs != [] {
      var init, last := fs[..|fs| - 1], fs[|fs| - 1];
      var before := TableOf(entry, init);
      assert TableOf(entry, fs) == before[Key(last) := entry(last)];
      TableEntries(entry, init);
      KeysDistinct();
      assert fs == init + [last];
      forall k | k in TableOf(entry, fs) ensures exists f :: f in fs && Key(f) == k {
        if k != Key(last) {
          assert k in before;
          var f :| f in init && Key(f) == k;
          assert f in fs;
        }
      }
    }
  }

  // ----- which lines are emitted, and in what order -----

  /** The line of a field is its template and a newline exactly when the
      field emits: every field but flag and postal emits even with its value
      missing. */
  lemma FieldLine(d: Visitor.VisitorRecord, f: Field)
    ensures LineFor(FieldMap(d), Key(f)) == if Emits(d, f) then Template(d, f) + "\n" else ""
  {
    FieldMapEntry(d, f);
    TemplateEmits(d, f);
  }

  /** A key the table does not hold adds no line. */
  lemma UnrecognisedKeyLine(d: Visitor.VisitorRecord, key: string)
    requires key !in RecognisedKeys
    ensures LineFor(FieldMap(d), key) == ""
  {
    FieldMapKeys(d);
  }

  /** A key adds a line exactly when it is the key of a field that emits. */
  lemma LineEmittedIff(d: Visitor.VisitorRecord, key: string)
    ensures LineFor(FieldMap(d), key) != "" <==> (exists f :: Key(f) == key && Emits(d, f))
  {
    if key in RecognisedKeys {
      var f :| f in FieldOrder && Key(f) == key;
      FieldLine(d, f);
      KeysDistinct();
    } else {
      UnrecognisedKeyLine(d, key);
      AllFieldsOrdered();
    }
  }

  lemma TemplateEmits(d: Visitor.VisitorRecord, f: Field)
    ensures Template(d, f) != "" <==> Emits(d, f)
  {
    assert forall i, c, v :: Labeled(i, c, v) != "" by {
      forall i, c, v ensures Labeled(i, c, v) != "" {
        assert |Labeled(i, c, v)| >= |" <b>"|;
      }
    }
  }

  /** The flag line pairs the unescaped emoji with the escaped country, and
      is absent without an emoji. */
  lemma FlagLine(d: Visitor.VisitorRecord)
    ensures LineFor(FieldMap(d), "flag")
         == if Truthy(FlagEmoji(d)) then Labeled(FlagEmoji(d).value, "Flag", EscapeHtml(d.country)) + "\n" else ""
  {
    assert Key(Flag) == "flag";
    FieldLine(d, Flag);
  }

  /** The postal line holds the escaped postal code, and is absent without one. */
  lemma PostalLine(d: Visitor.VisitorRecord)
    ensures LineFor(FieldMap(d), "postal")
         == if Truthy(d.postal) then Labeled(PostalIcon, "Postal", EscapeHtml(d.postal)) + "\n" else ""
  {
    assert Key(Postal) == "postal";
    FieldLine(d, Postal);
  }

  /** The calling-code line is always emitted and carries "+" directly before
      the escaped code (a bare "+" when the code is missing). */
  lemma CallingCodeLine(d: Visitor.VisitorRecord)
    ensures LineFor(FieldMap(d), "calling_code")
         == Labeled(CallingCodeIcon, "Calling Code", "+" + EscapeHtml(d.callingCode)) + "\n"
  {
    assert Key(CallingCode) == "calling_code";
    FieldLine(d, CallingCode);
  }

  /** The location line is always emitted and joins the escaped city, region
      and country with ", ". */
  lemma LocationLine(d: Visitor.VisitorRecord)
    ensures LineFor(FieldMap(d), "location")
         == Labeled(LocationIcon, "Location",
              EscapeHtml(d.city) + ", " + EscapeHtml(d.region) + ", " + EscapeHtml(d.country)) + "\n"
  {
    assert Key(Location) == "location";
    FieldLine(d, Location);
  }

  lemma {:induction false} LinesAppend(m: map<string, string>, a: seq<string>, b: seq<string>)
    ensures Lines(m, a + b) == Lines(m, a) + Lines(m, b)
    decreases |b|
  {
    if b == [] {
      assert a + b == a;
    } else {
      var init, last := b[..|b| - 1], b[|b| - 1];
      var ab := a + b;
      assert ab[..|ab| - 1] == a + init;
      assert ab[|ab| - 1] == last;
      LinesAppend(m, a, init);
      calc {
        Lines(m, ab);
        Lines(m, a + init) + LineFor(m, last);
        (Lines(m, a) + Lines(m, init)) + LineFor(m, last);
        Lines(m, a) + (Lines(m, init) + LineFor(m, last));
        Lines(m, a) + Lines(m, b);
      }
    }
  }

  lemma LinesSingle(m: map<string, string>, key: string)
    ensures Lines(m, [key]) == LineFor(m, key)
  {
    assert [key][..0] == [];
  }

  /** Lines appear in the order of the field list: splitting the list at any
      key splits the text at that key's line. */
  lemma LinesInOrder(m: map<string, string>, a: seq<string>, key: string, b: seq<string>)
    ensures Lines(m, a + [key] + b) == Lines(m, a) + LineFor(m, key) + Lines(m, b)
  {
    LinesAppend(m, a + [key], b);
    LinesAppend(m, a, [key]);
    LinesSingle(m, key);
  }

  /** A key whose line is empty can be dropped from the field list. */
  lemma LinesSkip(m: map<string, string>, a: seq<string>, key: string, b: seq<string>)
    requires LineFor(m, key) == ""
    ensures Lines(m, a + [key] + b) == Lines(m, a + b)
  {
    LinesInOrder(m, a, key, b);
    LinesAppend(m, a, b);
  }

  /** A key the table does not know contributes nothing. */
  lemma UnknownKeyIgnored(d: Visitor.VisitorRecord, a: seq<string>, key: string, b: seq<string>)
    requires key !in RecognisedKeys
    ensures Lines(FieldMap(d), a + [key] + b) == Lines(FieldMap(d), a + b)
  {
    UnrecognisedKeyLine(d, key);
    LinesSkip(FieldMap(d), a, key, b);
  }

  /** Every occurrence of a key contributes its line, so a repeated key
      repeats its line. */
  lemma RepeatedKeyRepeats(d: Visitor.VisitorRecord, a: seq<string>, key: string, b: seq<string>)
    ensures Lines(FieldMap(d), a + [key, key] + b)
         == Lines(FieldMap(d), a) + LineFor(FieldMap(d), key) + LineFor(FieldMap(d), key) + Lines(FieldMap(d), b)
  {
    var m := FieldMap(d);
    assert a + [key, key] + b == (a + [key]) + [key] + b;
    LinesInOrder(m, a + [key], key, b);
    LinesInOrder(m, a, key, []);
    assert a + [key] + [] == a + [key];
    assert Lines(m, []) == "";
  }

  /** Every message opens with the header banner and closes with the footer
      banner, whatever the record and the field list. */
  lemma BannersAlwaysPresent(d: Visitor.VisitorRecord, fields: seq<string>)
    ensures var message := DefaultMessage(d, fields);
      |message| >= |Header| + |Footer|
      && message[..|Header|] == Header
      && message[|message| - |Footer|..] == Footer
  {
    var lines := Lines(FieldMap(d), fields);
    assert (Header + lines + Footer)[..|Header|] == Header;
    assert (Header + lines + Footer)[|Header| + |lines|..] == Footer;
  }

  /** With no fields the message is the header directly followed by the footer. */
  lemma NoFieldsMessage(d: Visitor.VisitorRecord)
    ensures DefaultMessage(d, []) == Header + Footer
  {
  }

  // ----- markup comes only from the templates -----

  /** The number of occurrences of `c` in `s`. */
  function Count(s: string, c: char): nat {
    if s == [] then 0 else (if s[0] == c then 1 else 0) + Count(s[1..], c)
  }

  lemma {:induction false} CountAppend(a: string, b: string, c: char)
    ensures Count(a + b, c) == Count(a, c) + Count(b, c)
  {
    if a == [] {
      assert a + b == b;
    } else {
      assert (a + b)[0] == a[0];
      assert (a + b)[1..] == a[1..] + b;
      CountAppend(a[1..], b, c);
    }
  }

  lemma {:induction false} CountAbsent(s: string, c: char)
    requires c !in s
    ensures Count(s, c) == 0
  {
    if s != [] {
      assert c !in s[1..];
      CountAbsent(s[1..], c);
    }
  }

  /** A template line opens exactly its bold tag when no part holds '<'. */
  lemma LabeledMarkup(icon: string, caption: string, value: string)
    requires '<' !in icon && '<' !in caption && '<' !in value
    ensures Count(Labeled(icon, caption, value), '<') == 2
  {
    CountAppend(icon + " <b>" + caption + ":</b> ", value, '<');
    CountAppend(icon + " <b>" + caption, ":</b> ", '<');
    CountAppend(icon + " <b>", caption, '<');
    CountAppend(icon, " <b>", '<');
    CountAbsent(icon, '<');
    CountAbsent(caption, '<');
    CountAbsent(value, '<');
    assert Count(" <b>", '<') == 1;
    assert Count(":</b> ", '<') == 1;
  }

  /** No icon but the flag emoji holds a '<'. */
  lemma IconPlain(d: Visitor.VisitorRecord, f: Field)
    requires FlagEmoji(d).Some? ==> '<' !in FlagEmoji(d).value
    ensures '<' !in Icon(d, f)
  {
  }

  /** No caption holds a '<'. */
  lemma CaptionPlain(f: Field)
    ensures '<' !in Caption(f)
  {
  }

  /** No value of the table holds a markup character: every part taken from
      the record is escaped and the separators hold none. */
  lemma ValueMarkupFree(d: Visitor.VisitorRecord, f: Field)
    ensures MarkupFree(Value(d, f))
  {
    match f
    case Timezone =>
      EscapeHtmlMarkupFree(TimezoneId(d));
      EscapeHtmlMarkupFree(TimezoneUtc(d));
      MarkupFreeJoin(EscapeHtml(TimezoneId(d)), " (", EscapeHtml(TimezoneUtc(d)));
      MarkupFreeJoin(EscapeHtml(TimezoneId(d)) + " (" + EscapeHtml(TimezoneUtc(d)), ")", "");
    case Coordinates =>
      EscapeHtmlMarkupFree(d.latitude);
      EscapeHtmlMarkupFree(d.longitude);
      MarkupFreeJoin(EscapeHtml(d.latitude), ", ", EscapeHtml(d.longitude));
    case CallingCode =>
      EscapeHtmlMarkupFree(d.callingCode);
      MarkupFreeJoin("", "+", EscapeHtml(d.callingCode));
    case Location =>
      EscapeHtmlMarkupFree(d.city);
      EscapeHtmlMarkupFree(d.region);
      EscapeHtmlMarkupFree(d.country);
      MarkupFreeJoin(EscapeHtml(d.city), ", ", EscapeHtml(d.region));
      MarkupFreeJoin(EscapeHtml(d.city) + ", " + EscapeHtml(d.region), ", ", EscapeHtml(d.country));
    case _ =>
      EscapeHtmlMarkupFree(RecordValue(d, f));
  }

  /** Joining markup-free texts with a separator made of commas, parentheses,
      plus signs and spaces creates no markup character. */
  lemma MarkupFreeJoin(a: string, sep: string, b: string)
    requires MarkupFree(a) && MarkupFree(b)
    requires sep in {"", ", ", " (", ")", "+"}
    ensures MarkupFree(a + sep + b)
  {
  }

  /** Each entry opens only its bold tag: no value taken from the record can
      open a tag. The flag entry inserts the emoji without escaping, so this
      needs the emoji to hold no '<'. */
  lemma TemplateMarkup(d: Visitor.VisitorRecord, f: Field)
    requires FlagEmoji(d).Some? ==> '<' !in FlagEmoji(d).value
    ensures Count(Template(d, f), '<') == if Emits(d, f) then 2 else 0
  {
    if Emits(d, f) {
      IconPlain(d, f);
      CaptionPlain(f);
      ValueMarkupFree(d, f);
      LabeledMarkup(Icon(d, f), Caption(f), Value(d, f));
    }
  }

  /** How many occurrences in the field list add a line. */
  function EmittedCount(d: Visitor.VisitorRecord, fields: seq<string>): nat {
    if fields == [] then 0
    else EmittedCount(d, fields[..|fields| - 1]) + (if LineFor(FieldMap(d), fields[|fields| - 1]) != "" then 1 else 0)
  }

  lemma LineMarkup(d: Visitor.VisitorRecord, key: string)
    requires FlagEmoji(d).Some? ==> '<' !in FlagEmoji(d).value
    ensures Count(LineFor(FieldMap(d), key), '<') == if LineFor(FieldMap(d), key) != "" then 2 else 0
  {
    FieldMapKeys(d);
    if key in RecognisedKeys {
      var f :| f in FieldOrder && Key(f) == key;
      FieldLine(d, f);
      if Emits(d, f) {
        TemplateMarkup(d, f);
        CountAppend(Template(d, f), "\n", '<');
      }
    }
  }

  lemma {:induction false} LinesMarkup(d: Visitor.VisitorRecord, fields: seq<string>)
    requires FlagEmoji(d).Some? ==> '<' !in FlagEmoji(d).value
    ensures Count(Lines(FieldMap(d), fields), '<') == 2 * EmittedCount(d, fields)
    decreases |fields|
  {
    if fields != [] {
      var init := fields[..|fields| - 1];
      LinesMarkup(d, init);
      LineMarkup(d, fields[|fields| - 1]);
      CountAppend(Lines(FieldMap(d), init), LineFor(FieldMap(d), fields[|fields| - 1]), '<');
    }
  }

  /** Every '<' of the message belongs to a banner or opens or closes the
      bold caption of an emitted line: the record's values add none. */
  lemma MessageMarkup(d: Visitor.VisitorRecord, fields: seq<string>)
    requires FlagEmoji(d).Some? ==> '<' !in FlagEmoji(d).value
    ensures Count(DefaultMessage(d, fields), '<')
         == Count(Header, '<') + 2 * EmittedCount(d, fields) + Count(Footer, '<')
  {
    var lines := Lines(FieldMap(d), fields);
    LinesMarkup(d, fields);
    CountAppend(Header + lines, Footer, '<');
    CountAppend(Header, lines, '<');
  }
}
