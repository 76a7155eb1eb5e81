/** Concrete documents and what validation does with them: defaults computed
    but not written back, versions other than 1, numbers without a range
    check, and the one props key that does not survive. */
module Scenarios {
  import opened Values
  import opened Issues
  import opened Schema
  import opened SchemaFacts
  import opened BlockCatalog
  import opened PageSpecs
  import opened Validation
  import opened ValidationProperties

  const GoProps: map<string, Json> := map["headline" := JStr("Go")]

  /** `{version: 1, page: {meta: {title: "t"}, theme, sections:
      [{component: "cta-section", props: {headline: "Go"}}]}}` */
  function CtaDoc(version: Json, theme: string): Json
  {
    JObj(map[
      "version" := version,
      "page" := JObj(map[
        "meta" := JObj(map["title" := JStr("t")]),
        "theme" := JStr(theme),
        "sections" := JArr([JObj(map["component" := JStr("cta-section"), "props" := JObj(GoProps)])])
      ])
    ])
  }

  /** The single-section call-to-action document is accepted for every theme
      string, the empty one included, and comes back exactly as it went in. */
  lemma CtaDocUnchanged(isUrl: UrlCheck, theme: string)
    ensures ValidatePageSpec(Strict(isUrl), CtaDoc(JNum(1.0), theme)) == Valid(CtaDoc(JNum(1.0), theme))
  {
    CtaAccepts(GoProps, isUrl);
    var d := PageSpec(PageMeta("t", None, None), theme, [SectionSpec("cta-section", GoProps)]);
    assert WellFormed(isUrl, d);
    RoundTrip(isUrl, d);
    assert SectionsToJson(d.sections) == [JObj(map["component" := JStr("cta-section"), "props" := JObj(GoProps)])];
    assert MetaToJson(d.meta) == JObj(map["title" := JStr("t")]);
    assert ToJson(d) == CtaDoc(JNum(1.0), theme);
  }

  /** The component's own parse of `{headline: "Go"}` fills in the catalog
      defaults, `primaryLabel: "Get Started"` and `align: "center"`. */
  lemma CtaDefaultsComputed(isUrl: UrlCheck)
    ensures ParseObject(CtaSection, JObj(GoProps), isUrl).Success?
    ensures Get(ParseObject(CtaSection, JObj(GoProps), isUrl).value, "primaryLabel") == Some(JStr("Get Started"))
    ensures Get(ParseObject(CtaSection, JObj(GoProps), isUrl).value, "align") == Some(JStr("center"))
  {
    CtaAccepts(GoProps, isUrl);
    CatalogNamesDistinct();
    DefaultFilled(CtaSection, GoProps, isUrl, 3, "Get Started");
    DefaultFilled(CtaSection, GoProps, isUrl, 7, "center");
  }

  /** That parse is thrown away: the validated document keeps the props as
      given, without the defaults; an empty theme is accepted as well. */
  lemma DefaultsNotWrittenBack(isUrl: UrlCheck)
    ensures ValidatePageSpec(Strict(isUrl), CtaDoc(JNum(1.0), "acme")) == Valid(CtaDoc(JNum(1.0), "acme"))
    ensures ValidatePageSpec(Strict(isUrl), CtaDoc(JNum(1.0), "acme")).data.fields["page"].fields["sections"].items[0]
         == JObj(map["component" := JStr("cta-section"), "props" := JObj(map["headline" := JStr("Go")])])
    ensures ValidatePageSpec(Strict(isUrl), CtaDoc(JNum(1.0), "")).Valid?
  {
    CtaDocUnchanged(isUrl, "acme");
    CtaDocUnchanged(isUrl, "");
  }

  /** The same document with `version` set to 2, to the string "1", or with
      no usable version at all, is rejected. */
  lemma OtherVersionsRejected(isUrl: UrlCheck, v: Json)
    requires v != JNum(1.0)
    ensures ValidatePageSpec(Strict(isUrl), CtaDoc(v, "acme")).Invalid?
    ensures ValidatePageSpec(Strict(isUrl), CtaDoc(JNum(2.0), "acme")).Invalid?
    ensures ValidatePageSpec(Strict(isUrl), CtaDoc(JStr("1"), "acme")).Invalid?
  {
    VersionMismatchRejected(isUrl, CtaDoc(v, "acme"));
    VersionMismatchRejected(isUrl, CtaDoc(JNum(2.0), "acme"));
    VersionMismatchRejected(isUrl, CtaDoc(JStr("1"), "acme"));
  }

  /** The slider's `interval` has no catalog entry to be range-checked
      against: any number, 500 and 40000 included, passes through. */
  lemma NoRangeCheck(isUrl: UrlCheck, n: real, path: seq<PathSeg>)
    ensures var props := map["interval" := JNum(n)];
            ParseSection(isUrl, JObj(map["component" := JStr("testimonial-slider"), "props" := JObj(props)]), path)
              == Success(SectionSpec("testimonial-slider", props))
  {
    var fields := map["component" := JStr("testimonial-slider"), "props" := JObj(map["interval" := JNum(n)])];
    assert "testimonial-slider" !in Catalog;
    assert fields["props"].fields - {ProtoKey} == fields["props"].fields;
    UnknownComponentPassesThrough(isUrl, fields, path);
  }

  /** `{version: 1, page: {meta: {title: "t"}, theme: "acme", sections:
      [{component: "x", props}]}}` */
  function ProtoDoc(props: Json): Json
  {
    JObj(map[
      "version" := JNum(1.0),
      "page" := JObj(map[
        "meta" := JObj(map["title" := JStr("t")]),
        "theme" := JStr("acme"),
        "sections" := JArr([JObj(map["component" := JStr("x"), "props" := props])])
      ])
    ])
  }

  /** The section `{component: "x", props}` of `ProtoDoc`. */
  function ProtoItem(props: Json): Json
  {
    JObj(map["component" := JStr("x"), "props" := props])
  }

  /** The validated form of `ProtoDoc` with empty props. */
  const ProtoPage := PageSpec(PageMeta("t", None, None), "acme", [SectionSpec("x", map[])])

  lemma ProtoPageEncoded()
    ensures ToJson(ProtoPage) == ProtoDoc(JObj(map[]))
  {
    assert SectionsToJson(ProtoPage.sections) == [ProtoItem(JObj(map[]))];
    assert MetaToJson(ProtoPage.meta) == JObj(map["title" := JStr("t")]);
  }

  /** The props `{"__proto__": {a: 1}}`. */
  const ProtoProps: map<string, Json> := map[ProtoKey := JObj(map["a" := JNum(1.0)])]

  /** The section `{component: "x", props: {"__proto__": {a: 1}}}` is
      accepted, with empty props. */
  lemma ProtoItemParsed(isUrl: UrlCheck, path: seq<PathSeg>)
    ensures ParseSection(isUrl, ProtoItem(JObj(ProtoProps)), path) == Success(SectionSpec("x", map[]))
  {
    assert ProtoProps - {ProtoKey} == map[];
    assert "x" !in Catalog;
  }

  /** A props entry named `__proto__` is accepted and then lost: the
      validated document carries the section with empty props. */
  lemma ProtoEntryDropped(isUrl: UrlCheck)
    ensures ValidatePageSpec(Strict(isUrl), ProtoDoc(JObj(ProtoProps))) == Valid(ProtoDoc(JObj(map[])))
  {
    var j := ProtoDoc(JObj(ProtoProps));
    var page := j.fields["page"].fields;
    var at := [Key("page")] + [Key("sections")];
    assert page["sections"].items == [ProtoItem(JObj(ProtoProps))];
    ProtoItemParsed(isUrl, at + [Index(0)]);
    assert DocumentConforms(isUrl, j);
    var r := ParsePageSpec(isUrl, j).value;
    assert ParsePage(isUrl, Get(j.fields, "page"), [Key("page")]) == Success(r);
    assert ParseSections(isUrl, Get(page, "sections"), at) == Success(r.sections);
    assert ParseMeta(Get(page, "meta"), [Key("page")] + [Key("meta")]) == Success(r.meta);
    assert r == ProtoPage;
    ProtoPageEncoded();
  }
}
