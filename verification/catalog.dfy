/** The component schema catalog: the three block schemas and the map that
    dispatches on a section's `component` id. */
module BlockCatalog {
  import opened Values
  import opened Schema

  const AlignOptions: seq<string> := ["left", "center"]

  const TextBlock: ObjectSchema := [
    Field("eyebrow", OptStr),
    Field("headline", OptStr),
    Field("body", Str),
    Field("align", EnumDefault(AlignOptions, "left"))
  ]

  const HeroWithParallax: ObjectSchema := [
    Field("eyebrow", OptStr),
    Field("headline", Str),
    Field("subhead", OptStr),
    Field("media", Url),
    Field("align", EnumDefault(AlignOptions, "left"))
  ]

  const CtaSection: ObjectSchema := [
    Field("eyebrow", OptStr),
    Field("headline", Str),
    Field("body", OptStr),
    Field("primaryLabel", StrDefault("Get Started")),
    Field("primaryHref", StrDefault("#")),
    Field("secondaryLabel", StrDefault("Learn More")),
    Field("secondaryHref", StrDefault("#")),
    Field("align", EnumDefault(AlignOptions, "center"))
  ]

  /** Exact, case-sensitive lookup by component id; ids not in this map are
      not field-validated at all. */
  const Catalog: map<string, ObjectSchema> := map[
    "text-block" := TextBlock,
    "hero-with-parallax" := HeroWithParallax,
    "cta-section" := CtaSection
  ]

  /** A present alignment must be one of the two literals; absence is fine. */
  predicate AlignOk(v: Option<Json>)
  {
    v.None? || (v.value.JStr? && v.value.s in AlignOptions)
  }

  /** What a text block's props must hold: a string `body` (any string,
      including the empty one), optional string `eyebrow`/`headline`, an
      `align` in the two literals when given; nothing else is looked at. */
  lemma TextBlockAccepts(p: map<string, Json>, isUrl: UrlCheck)
    ensures ObjectAccepts(TextBlock, p, isUrl) <==>
      && OptionalString(Get(p, "eyebrow"))
      && OptionalString(Get(p, "headline"))
      && PresentString(Get(p, "body"))
      && AlignOk(Get(p, "align"))
  {
    if OptionalString(Get(p, "eyebrow")) && OptionalString(Get(p, "headline"))
       && PresentString(Get(p, "body")) && AlignOk(Get(p, "align")) {
      forall i | 0 <= i < |TextBlock|
        ensures Admits(TextBlock[i].kind, Get(p, TextBlock[i].name), isUrl)
      {
        assert i == 0 || i == 1 || i == 2 || i == 3;
      }
    }
    if ObjectAccepts(TextBlock, p, isUrl) {
      assert Admits(TextBlock[0].kind, Get(p, TextBlock[0].name), isUrl);
      assert Admits(TextBlock[1].kind, Get(p, TextBlock[1].name), isUrl);
      assert Admits(TextBlock[2].kind, Get(p, TextBlock[2].name), isUrl);
      assert Admits(TextBlock[3].kind, Get(p, TextBlock[3].name), isUrl);
    }
  }

  /** What a hero's props must hold: string `headline` and a URL-shaped
      string `media` are required; `eyebrow`/`subhead` optional strings;
      `align` one of the two literals when given. */
  lemma HeroAccepts(p: map<string, Json>, isUrl: UrlCheck)
    ensures ObjectAccepts(HeroWithParallax, p, isUrl) <==>
      && OptionalString(Get(p, "eyebrow"))
      && PresentString(Get(p, "headline"))
      && OptionalString(Get(p, "subhead"))
      && PresentString(Get(p, "media")) && isUrl(p["media"].s)
      && AlignOk(Get(p, "align"))
  {
    if && OptionalString(Get(p, "eyebrow")) && PresentString(Get(p, "headline"))
       && OptionalString(Get(p, "subhead")) && PresentString(Get(p, "media")) && isUrl(p["media"].s)
       && AlignOk(Get(p, "align")) {
      forall i | 0 <= i < |HeroWithParallax|
        ensures Admits(HeroWithParallax[i].kind, Get(p, HeroWithParallax[i].name), isUrl)
      {
        assert i == 0 || i == 1 || i == 2 || i == 3 || i == 4;
      }
    }
    if ObjectAccepts(HeroWithParallax, p, isUrl) {
      assert Admits(HeroWithParallax[0].kind, Get(p, HeroWithParallax[0].name), isUrl);
      assert Admits(HeroWithParallax[1].kind, Get(p, HeroWithParallax[1].name), isUrl);
      assert Admits(HeroWithParallax[2].kind, Get(p, HeroWithParallax[2].name), isUrl);
      assert Admits(HeroWithParallax[3].kind, Get(p, HeroWithParallax[3].name), isUrl);
      assert Admits(HeroWithParallax[4].kind, Get(p, HeroWithParallax[4].name), isUrl);
    }
  }

  /** What a call-to-action's props must hold: only `headline` is required;
      every other declared key is an optional string, `align` limited to
      the two literals. */
  lemma CtaAccepts(p: map<string, Json>, isUrl: UrlCheck)
    ensures ObjectAccepts(CtaSection, p, isUrl) <==>
      && OptionalString(Get(p, "eyebrow"))
      && PresentString(Get(p, "headline"))
      && OptionalString(Get(p, "body"))
      && OptionalString(Get(p, "primaryLabel"))
      && OptionalString(Get(p, "primaryHref"))
      && OptionalString(Get(p, "secondaryLabel"))
      && OptionalString(Get(p, "secondaryHref"))
      && AlignOk(Get(p, "align"))
  {
    if && OptionalString(Get(p, "eyebrow")) && PresentString(Get(p, "headline"))
       && OptionalString(Get(p, "body")) && OptionalString(Get(p, "primaryLabel"))
       && OptionalString(Get(p, "primaryHref")) && OptionalString(Get(p, "secondaryLabel"))
       && OptionalString(Get(p, "secondaryHref")) && AlignOk(Get(p, "align")) {
      forall i | 0 <= i < |CtaSection|
        ensures Admits(CtaSection[i].kind, Get(p, CtaSection[i].name), isUrl)
      {
        assert i == 0 || i == 1 || i == 2 || i == 3 || i == 4 || i == 5 || i == 6 || i == 7;
      }
    }
    if ObjectAccepts(CtaSection, p, isUrl) {
      assert Admits(CtaSection[0].kind, Get(p, CtaSection[0].name), isUrl);
      assert Admits(CtaSection[1].kind, Get(p, CtaSection[1].name), isUrl);
      assert Admits(CtaSection[2].kind, Get(p, CtaSection[2].name), isUrl);
      assert Admits(CtaSection[3].kind, Get(p, CtaSection[3].name), isUrl);
      assert Admits(CtaSection[4].kind, Get(p, CtaSection[4].name), isUrl);
      assert Admits(CtaSection[5].kind, Get(p, CtaSection[5].name), isUrl);
      assert Admits(CtaSection[6].kind, Get(p, CtaSection[6].name), isUrl);
      assert Admits(CtaSection[7].kind, Get(p, CtaSection[7].name), isUrl);
    }
  }

  /** "Required" is structural: a missing key fails, an empty string does not. */
  lemma RequiredIsStructural(p: map<string, Json>, isUrl: UrlCheck)
    ensures "body" !in p ==> !ObjectAccepts(TextBlock, p, isUrl)
    ensures ObjectAccepts(TextBlock, map["body" := JStr("")], isUrl)
    ensures "headline" !in p ==> !ObjectAccepts(HeroWithParallax, p, isUrl)
    ensures "media" !in p ==> !ObjectAccepts(HeroWithParallax, p, isUrl)
    ensures "media" in p && p["media"].JStr? && !isUrl(p["media"].s) ==> !ObjectAccepts(HeroWithParallax, p, isUrl)
    ensures "headline" !in p ==> !ObjectAccepts(CtaSection, p, isUrl)
    ensures ObjectAccepts(CtaSection, map["headline" := JStr("")], isUrl)
  {
    TextBlockAccepts(p, isUrl);
    TextBlockAccepts(map["body" := JStr("")], isUrl);
    HeroAccepts(p, isUrl);
    CtaAccepts(p, isUrl);
    CtaAccepts(map["headline" := JStr("")], isUrl);
  }

  /** In every catalogued schema an absent `align` passes, and a present one
      passes exactly when it is "left" or "center". */
  lemma AlignRule(c: string, p: map<string, Json>, isUrl: UrlCheck)
    requires c in Catalog
    ensures exists i :: 0 <= i < |Catalog[c]| && Catalog[c][i].name == "align"
    ensures forall i :: 0 <= i < |Catalog[c]| && Catalog[c][i].name == "align" ==>
      (Admits(Catalog[c][i].kind, Get(p, "align"), isUrl) <==> AlignOk(Get(p, "align")))
  {
    var s := Catalog[c];
    assert s == TextBlock || s == HeroWithParallax || s == CtaSection;
    assert s[|s| - 1].name == "align";
    forall i | 0 <= i < |s| && s[i].name == "align"
      ensures Admits(s[i].kind, Get(p, "align"), isUrl) <==> AlignOk(Get(p, "align"))
    {
      assert i == |s| - 1;
    }
  }

  /** `blockSchemas` has exactly three own keys, each bound to its schema. */
  lemma CatalogKeys()
    ensures Catalog.Keys == {"text-block", "hero-with-parallax", "cta-section"}
    ensures Catalog["text-block"] == TextBlock
    ensures Catalog["hero-with-parallax"] == HeroWithParallax
    ensures Catalog["cta-section"] == CtaSection
  {
  }

  /** No catalogued schema declares a key twice, so each key has one rule. */
  lemma CatalogNamesDistinct()
    ensures forall c :: c in Catalog ==> DistinctNames(Catalog[c])
  {
  }

  /** Every declared key is non-empty, so an issue's printed path is its key. */
  lemma CatalogKeysNonEmpty(c: string)
    requires c in Catalog
    ensures forall i :: 0 <= i < |Catalog[c]| ==> Catalog[c][i].name != ""
  {
  }

  /** No key of the given schema holds a space. */
  ghost predicate SpaceFreeKeys(schema: ObjectSchema)
  {
    forall i :: 0 <= i < |schema| ==> ' ' !in schema[i].name
  }

  lemma TextBlockSpaceFree()
    ensures SpaceFreeKeys(TextBlock)
  {
  }

  lemma HeroSpaceFree()
    ensures SpaceFreeKeys(HeroWithParallax)
  {
  }

  lemma CtaSpaceFree()
    ensures SpaceFreeKeys(CtaSection)
  {
  }

  /** No declared key holds a space, so in a rewritten message the key ends
      at the first space. */
  lemma CatalogKeysSpaceFree(c: string)
    requires c in Catalog
    ensures forall i :: 0 <= i < |Catalog[c]| ==> ' ' !in Catalog[c][i].name
  {
    CatalogKeys();
    TextBlockSpaceFree();
    HeroSpaceFree();
    CtaSpaceFree();
  }
}
