/** Concrete records run through the formatter: an injected tag in the
    country, a one-digit calling code, and a record that knows only its page
    and country. Each is an instance of a lemma over any text of the same
    shape. */
module WorkedCases {
  import opened JsValues
  import opened HtmlEscape
  import opened Formatter
  import Visitor

  /** A tag around plain text escapes its brackets and nothing else. */
  lemma EscapedTag(name: string)
    requires NoSpecial(name)
    ensures EscapeHtml(Some("<" + name + ">")) == "&lt;" + name + "&gt;"
  {
    EscapedAppend("<" + name, ">");
    EscapedAppend("<", name);
    EscapedPlainText(name);
  }

  /** A country written as a tag reaches its line as inert text. */
  lemma TagCountryLine(d: Visitor.VisitorRecord, name: string)
    requires NoSpecial(name) && d.country == Some("<" + name + ">")
    ensures LineFor(FieldMap(d), Key(Country)) == Labeled(CountryIcon, "Country", "&lt;" + name + "&gt;") + "\n"
  {
    FieldLine(d, Country);
    EscapedTag(name);
  }

  /** A calling code "1" renders as "+1". */
  lemma CallingCodeOne(d: Visitor.VisitorRecord)
    requires d.callingCode == Some("1")
    ensures LineFor(FieldMap(d), "calling_code") == Labeled(CallingCodeIcon, "Calling Code", "+1") + "\n"
  {
    CallingCodeLine(d);
    EscapedPlainText("1");
  }

  /** The page and country lines show plain text as it is. */
  lemma PlainLine(d: Visitor.VisitorRecord, f: Field)
    requires f == Page || f == Country
    requires Truthy(RecordValue(d, f)) && NoSpecial(RecordValue(d, f).value)
    ensures LineFor(FieldMap(d), Key(f)) == Labeled(Icon(d, f), Caption(f), RecordValue(d, f).value) + "\n"
  {
    FieldLine(d, f);
    EscapedPlainText(RecordValue(d, f).value);
  }

  /** The ISP line is emitted even without connection data, with an empty
      value: its template has no emptiness test. */
  lemma MissingIspLine(d: Visitor.VisitorRecord)
    requires d.connection.None?
    ensures LineFor(FieldMap(d), Key(Isp)) == Labeled(IspIcon, "ISP", "") + "\n"
  {
    FieldLine(d, Isp);
  }

  lemma ThreeLines(m: map<string, string>, a: string, b: string, c: string)
    ensures Lines(m, [a, b, c]) == LineFor(m, a) + LineFor(m, b) + LineFor(m, c)
  {
    LinesInOrder(m, [a, b], c, []);
    LinesInOrder(m, [a], b, []);
    LinesSingle(m, a);
    assert [a, b, c] == [a, b] + [c] + [];
    assert [a, b] == [a] + [b] + [];
  }

  /** A record that knows only its page and its country, both plain text
      (such as "/home" and "Wakanda"), formatted with the fields page,
      country and isp: the page line, the country line and an ISP line with
      an empty value, between the banners. */
  lemma PageCountryIspMessage(d: Visitor.VisitorRecord)
    requires Truthy(d.page) && NoSpecial(d.page.value)
    requires Truthy(d.country) && NoSpecial(d.country.value)
    requires d.connection.None?
    ensures DefaultMessage(d, ["page", "country", "isp"])
         == Header
            + (Labeled(PageIcon, "Page", d.page.value) + "\n"
               + (Labeled(CountryIcon, "Country", d.country.value) + "\n")
               + (Labeled(IspIcon, "ISP", "") + "\n"))
            + Footer
  {
    assert Key(Page) == "page" && Key(Country) == "country" && Key(Isp) == "isp";
    ThreeLines(FieldMap(d), "page", "country", "isp");
    PlainLine(d, Page);
    PlainLine(d, Country);
    MissingIspLine(d);
  }

  /** The same with page "/home" and country "Wakanda". */
  lemma HomeWakandaMessage(d: Visitor.VisitorRecord)
    requires d.page == Some("/home") && d.country == Some("Wakanda") && d.connection.None?
    ensures DefaultMessage(d, ["page", "country", "isp"])
         == Header
            + (Labeled(PageIcon, "Page", "/home") + "\n"
               + (Labeled(CountryIcon, "Country", "Wakanda") + "\n")
               + (Labeled(IspIcon, "ISP", "") + "\n"))
            + Footer
  {
    assert NoSpecial("/home") && NoSpecial("Wakanda");
    PageCountryIspMessage(d);
  }

  /** A country named "<script>" renders as "&lt;script&gt;". */
  lemma ScriptCountryLine(d: Visitor.VisitorRecord)
    requires d.country == Some("<script>")
    ensures LineFor(FieldMap(d), "country") == Labeled(CountryIcon, "Country", "&lt;" + "script" + "&gt;") + "\n"
  {
    assert "<script>" == "<" + "script" + ">";
    assert NoSpecial("script");
    TagCountryLine(d, "script");
    assert Key(Country) == "country";
  }
}
