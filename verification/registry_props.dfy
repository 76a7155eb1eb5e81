/** Consistency of the metadata registry with itself and with the schema
    catalog the validator dispatches on. */
module RegistryConsistency {
  import opened Values
  import opened Issues
  import opened Schema
  import opened BlockCatalog
  import opened Registry

  /** The registry and the schema name the same props. */
  ghost predicate KeysAgree(meta: ComponentMeta, schema: ObjectSchema)
  {
    meta.props.Keys == set i | 0 <= i < |schema| :: schema[i].name
  }

  /** `required: true` exactly on the fields whose absence the schema rejects. */
  ghost predicate RequiredAgrees(meta: ComponentMeta, schema: ObjectSchema)
  {
    forall i :: 0 <= i < |schema| ==>
      && schema[i].name in meta.props
      && (meta.props[schema[i].name].required == Some(true) <==> IsRequired(schema[i].kind))
  }

  /** The registry documents a default exactly where the schema has one, and
      documents the same value. */
  ghost predicate DefaultsAgree(meta: ComponentMeta, schema: ObjectSchema)
  {
    forall i :: 0 <= i < |schema| ==>
      && schema[i].name in meta.props
      && meta.props[schema[i].name].defaultValue == Lift(DefaultOf(schema[i].kind))
  }

  /** Every example's props are accepted by the schema. */
  ghost predicate ExamplesAccepted(meta: ComponentMeta, schema: ObjectSchema, isUrl: UrlCheck)
  {
    meta.examples.Some? ==>
      forall k :: 0 <= k < |meta.examples.value| ==> ObjectAccepts(schema, meta.examples.value[k].props, isUrl)
  }

  /** Registry ids are pairwise distinct. */
  lemma IdsDistinct()
    ensures forall i, j :: 0 <= i < j < |Entries| ==> Entries[i].id != Entries[j].id
  {
  }

  /** The catalogued ids are found in the registry, at their own entries. */
  lemma LookupCatalogued()
    ensures Lookup("text-block") == Some(TextBlockMeta)
    ensures Lookup("hero-with-parallax") == Some(HeroMeta)
    ensures Lookup("cta-section") == Some(CtaMeta)
  {
    LookupTextBlock();
    LookupHero();
    LookupCta();
  }

  lemma LookupTextBlock()
    ensures Lookup("text-block") == Some(TextBlockMeta)
  {
    assert Entries[0] == TextBlockMeta;
    assert Entries[0].id == "text-block";
  }

  lemma LookupHero()
    ensures Lookup("hero-with-parallax") == Some(HeroMeta)
  {
    assert Entries[0].id != "hero-with-parallax";
    assert Entries[1..][0] == HeroMeta;
    assert Entries[1..][0].id == "hero-with-parallax";
  }

  lemma LookupCta()
    ensures Lookup("cta-section") == Some(CtaMeta)
  {
    assert Entries[0].id != "cta-section";
    assert Entries[1..][0].id != "cta-section";
    assert Entries[1..][1..][0] == CtaMeta;
    assert Entries[1..][1..][0].id == "cta-section";
  }

  /** Every catalogued id has a registry entry; the converse fails for three
      ids, which have metadata only and take the unknown-component path. */
  lemma CatalogIdsRegistered()
    ensures forall c :: c in Catalog ==> Lookup(c).Some?
    ensures Ids() - Catalog.Keys == {"feature-grid", "testimonial-slider", "horizontal-scroll-gallery"}
  {
    LookupCatalogued();
    IdsListed();
    CatalogKeys();
    IdsDifference(Ids(), Catalog.Keys);
  }

  /** The registry publishes exactly six ids. */
  lemma IdsListed()
    ensures Ids() == {"text-block", "hero-with-parallax", "cta-section",
                      "feature-grid", "testimonial-slider", "horizontal-scroll-gallery"}
  {
    EntryIds();
    var all := {"text-block", "hero-with-parallax", "cta-section",
                "feature-grid", "testimonial-slider", "horizontal-scroll-gallery"};
    forall x | x in Ids() ensures x in all {
      var i :| 0 <= i < |Entries| && Entries[i].id == x;
    }
    forall x | x in all ensures x in Ids() {
      var i := if x == "text-block" then 0 else if x == "hero-with-parallax" then 1
               else if x == "cta-section" then 2 else if x == "feature-grid" then 3
               else if x == "testimonial-slider" then 4 else 5;
      assert Entries[i].id == x;
    }
  }

  lemma IdsDifference(ids: set<string>, keys: set<string>)
    requires ids == {"text-block", "hero-with-parallax", "cta-section",
                     "feature-grid", "testimonial-slider", "horizontal-scroll-gallery"}
    requires keys == {"text-block", "hero-with-parallax", "cta-section"}
    ensures ids - keys == {"feature-grid", "testimonial-slider", "horizontal-scroll-gallery"}
  {
    assert "feature-grid" != "text-block";
    assert "testimonial-slider"[0] != "hero-with-parallax"[0];
  }

  lemma UncataloguedIds()
    ensures "feature-grid" !in Catalog
    ensures "testimonial-slider" !in Catalog
    ensures "horizontal-scroll-gallery" !in Catalog
  {
    assert Catalog.Keys == {"text-block", "hero-with-parallax", "cta-section"};
    assert "feature-grid" != "text-block";
    assert "testimonial-slider"[0] != "hero-with-parallax"[0];
  }

  /** The ids of the six entries, in table order. */
  lemma EntryIds()
    ensures |Entries| == 6
    ensures Entries[0].id == "text-block" && Entries[1].id == "hero-with-parallax"
    ensures Entries[2].id == "cta-section" && Entries[3].id == "feature-grid"
    ensures Entries[4].id == "testimonial-slider" && Entries[5].id == "horizontal-scroll-gallery"
  {
  }

  lemma TextBlockAgrees()
    ensures KeysAgree(TextBlockMeta, TextBlock)
    ensures RequiredAgrees(TextBlockMeta, TextBlock)
    ensures DefaultsAgree(TextBlockMeta, TextBlock)
  {
    TextBlockKeysAgree();
  }

  lemma TextBlockKeysAgree()
    ensures KeysAgree(TextBlockMeta, TextBlock)
  {
    assert (set i | 0 <= i < |TextBlock| :: TextBlock[i].name) == {"eyebrow", "headline", "body", "align"} by {
      assert TextBlock[0].name == "eyebrow" && TextBlock[1].name == "headline";
      assert TextBlock[2].name == "body" && TextBlock[3].name == "align";
    }
  }

  lemma HeroAgrees()
    ensures KeysAgree(HeroMeta, HeroWithParallax)
    ensures RequiredAgrees(HeroMeta, HeroWithParallax)
    ensures DefaultsAgree(HeroMeta, HeroWithParallax)
  {
    HeroKeysAgree();
  }

  lemma HeroKeysAgree()
    ensures KeysAgree(HeroMeta, HeroWithParallax)
  {
    assert (set i | 0 <= i < |HeroWithParallax| :: HeroWithParallax[i].name)
        == {"eyebrow", "headline", "subhead", "media", "align"} by {
      assert HeroWithParallax[0].name == "eyebrow" && HeroWithParallax[1].name == "headline";
      assert HeroWithParallax[2].name == "subhead" && HeroWithParallax[3].name == "media";
      assert HeroWithParallax[4].name == "align";
    }
  }

  lemma CtaKeysAgree()
    ensures KeysAgree(CtaMeta, CtaSection)
  {
    assert (set i | 0 <= i < |CtaSection| :: CtaSection[i].name)
        == {"eyebrow", "headline", "body", "primaryLabel", "primaryHref", "secondaryLabel", "secondaryHref", "align"} by {
      assert CtaSection[0].name == "eyebrow" && CtaSection[1].name == "headline";
      assert CtaSection[2].name == "body" && CtaSection[3].name == "primaryLabel";
      assert CtaSection[4].name == "primaryHref" && CtaSection[5].name == "secondaryLabel";
      assert CtaSection[6].name == "secondaryHref" && CtaSection[7].name == "align";
    }
  }

  lemma CtaAgrees()
    ensures KeysAgree(CtaMeta, CtaSection)
    ensures RequiredAgrees(CtaMeta, CtaSection)
    ensures DefaultsAgree(CtaMeta, CtaSection)
  {
    CtaKeysAgree();
    CtaRequiredAgrees();
    CtaDefaultsAgree();
  }

  lemma CtaRequiredAgrees()
    ensures RequiredAgrees(CtaMeta, CtaSection)
  {
  }

  lemma CtaDefaultsAgree()
    ensures DefaultsAgree(CtaMeta, CtaSection)
  {
  }

  /** For every catalogued component the registry lists the same props, flags
      exactly the schema's required fields as required (text-block: `body`;
      hero: `headline` and `media`; cta: `headline`), and documents the
      schema's defaults (`align` "left", "left", "center"; the cta labels
      "Get Started" and "Learn More" and both hrefs "#"). */
  lemma CatalogAgreesWithRegistry()
    ensures forall c :: c in Catalog ==>
      && Lookup(c).Some?
      && KeysAgree(Lookup(c).value, Catalog[c])
      && RequiredAgrees(Lookup(c).value, Catalog[c])
      && DefaultsAgree(Lookup(c).value, Catalog[c])
  {
    forall c | c in Catalog
      ensures && Lookup(c).Some?
              && KeysAgree(Lookup(c).value, Catalog[c])
              && RequiredAgrees(Lookup(c).value, Catalog[c])
              && DefaultsAgree(Lookup(c).value, Catalog[c])
    {
      AgreesAt(c);
    }
  }

  lemma AgreesAt(c: string)
    requires c in Catalog
    ensures && Lookup(c).Some?
            && KeysAgree(Lookup(c).value, Catalog[c])
            && RequiredAgrees(Lookup(c).value, Catalog[c])
            && DefaultsAgree(Lookup(c).value, Catalog[c])
  {
    CatalogKeys();
    if c == "text-block" {
      LookupTextBlock();
      TextBlockAgrees();
      assert Lookup(c).value == TextBlockMeta && Catalog[c] == TextBlock;
    } else if c == "hero-with-parallax" {
      LookupHero();
      HeroAgrees();
      assert Lookup(c).value == HeroMeta && Catalog[c] == HeroWithParallax;
    } else {
      assert c == "cta-section";
      LookupCta();
      CtaAgrees();
      assert Lookup(c).value == CtaMeta && Catalog[c] == CtaSection;
    }
  }

  lemma TextBlockExampleAccepted(isUrl: UrlCheck)
    ensures ExamplesAccepted(TextBlockMeta, TextBlock, isUrl)
  {
    var ex := TextBlockMeta.examples.value;
    assert |ex| == 1;
    TextBlockAccepts(ex[0].props, isUrl);
  }

  lemma HeroExampleAccepted(isUrl: UrlCheck)
    requires isUrl(HeroExampleMedia)
    ensures ExamplesAccepted(HeroMeta, HeroWithParallax, isUrl)
  {
    var ex := HeroMeta.examples.value;
    assert |ex| == 1;
    assert ex[0].props["media"] == JStr(HeroExampleMedia);
    HeroAccepts(ex[0].props, isUrl);
  }

  lemma CtaExampleAccepted(isUrl: UrlCheck)
    ensures ExamplesAccepted(CtaMeta, CtaSection, isUrl)
  {
    var ex := CtaMeta.examples.value;
    assert |ex| == 1;
    CtaAccepts(ex[0].props, isUrl);
  }

  /** Each catalogued component's example props validate under its schema,
      given that the hero example's media string is a URL. */
  lemma ExamplesValidate(isUrl: UrlCheck)
    requires isUrl(HeroExampleMedia)
    ensures forall c :: c in Catalog ==> Lookup(c).Some? && ExamplesAccepted(Lookup(c).value, Catalog[c], isUrl)
  {
    forall c | c in Catalog
      ensures Lookup(c).Some? && ExamplesAccepted(Lookup(c).value, Catalog[c], isUrl)
    {
      ExamplesAt(isUrl, c);
    }
  }

  lemma ExamplesAt(isUrl: UrlCheck, c: string)
    requires isUrl(HeroExampleMedia)
    requires c in Catalog
    ensures Lookup(c).Some? && ExamplesAccepted(Lookup(c).value, Catalog[c], isUrl)
  {
    CatalogKeys();
    if c == "text-block" {
      LookupTextBlock();
      TextBlockExampleAccepted(isUrl);
      assert Lookup(c).value == TextBlockMeta && Catalog[c] == TextBlock;
    } else if c == "hero-with-parallax" {
      LookupHero();
      HeroExampleAccepted(isUrl);
      assert Lookup(c).value == HeroMeta && Catalog[c] == HeroWithParallax;
    } else {
      assert c == "cta-section";
      LookupCta();
      CtaExampleAccepted(isUrl);
      assert Lookup(c).value == CtaMeta && Catalog[c] == CtaSection;
    }
  }

  /** Every entry's category is one the `ComponentMeta` type admits. */
  lemma CategoriesKnown()
    ensures forall i :: 0 <= i < |Entries| ==> Entries[i].category in Categories
  {
  }

  /** Every entry names a default motion preset, and it is one of its allowed presets. */
  lemma DefaultPresetsAllowed()
    ensures forall i :: 0 <= i < |Entries| ==>
      && Entries[i].motion.Some?
      && Entries[i].motion.value.defaultPreset.Some?
      && Entries[i].motion.value.allowedPresets.Some?
      && Entries[i].motion.value.defaultPreset.value in Entries[i].motion.value.allowedPresets.value
  {
  }

  /** A numeric prop whose constraint note reads "Range <lo>-<hi><unit>" and
      whose default and example values lie in that range. */
  ghost predicate WithinNotedRange(meta: ComponentMeta, key: string, lo: nat, hi: nat, unit: string)
  {
    && key in meta.props
    && meta.props[key].constraints == Some("Range " + NatToString(lo) + "-" + NatToString(hi) + unit)
    && meta.props[key].defaultValue.Some?
    && meta.props[key].defaultValue.value.JNum?
    && lo as real <= meta.props[key].defaultValue.value.n <= hi as real
    && (meta.examples.Some? ==>
          forall k :: 0 <= k < |meta.examples.value| && key in meta.examples.value[k].props ==>
            meta.examples.value[k].props[key].JNum?
            && lo as real <= meta.examples.value[k].props[key].n <= hi as real)
  }

  lemma IntervalNote()
    ensures "Range " + NatToString(1000) + "-" + NatToString(30000) + "ms" == "Range 1000-30000ms"
  {
    ThousandsRendered();
  }

  lemma ScrollDistanceNote()
    ensures "Range " + NatToString(1000) + "-" + NatToString(10000) + "px" == "Range 1000-10000px"
  {
    ThousandsRendered();
  }

  lemma ThousandsRendered()
    ensures NatToString(1000) == "1000"
    ensures NatToString(10000) == "10000"
    ensures NatToString(30000) == "30000"
  {
    assert NatToString(1) == "1";
    assert NatToString(10) == "10";
    assert NatToString(100) == "100";
    assert NatToString(1000) == "1000";
    assert NatToString(10000) == "10000";
    assert NatToString(3) == "3";
    assert NatToString(30) == "30";
    assert NatToString(300) == "300";
    assert NatToString(3000) == "3000";
  }

  lemma IntervalWithinNotedRange()
    ensures WithinNotedRange(TestimonialSliderMeta, "interval", 1000, 30000, "ms")
  {
    IntervalNote();
    var ex := TestimonialSliderMeta.examples.value;
    assert |ex| == 1;
    assert ex[0].props["interval"] == JNum(5000.0);
  }

  lemma ScrollDistanceWithinNotedRange()
    ensures WithinNotedRange(GalleryMeta, "scrollDistance", 1000, 10000, "px")
  {
    ScrollDistanceNote();
    var ex := GalleryMeta.examples.value;
    assert |ex| == 1;
    assert ex[0].props["scrollDistance"] == JNum(4000.0);
  }

  /** `interval` (default and example 5000) lies in its noted 1000-30000 ms,
      and `scrollDistance` (4000) in its noted 1000-10000 px. The notes are
      descriptive: neither component has a catalog entry, so nothing checks them. */
  lemma NotedRangesHold()
    ensures Entries[4] == TestimonialSliderMeta && Entries[5] == GalleryMeta
    ensures WithinNotedRange(Entries[4], "interval", 1000, 30000, "ms")
    ensures WithinNotedRange(Entries[5], "scrollDistance", 1000, 10000, "px")
    ensures Entries[4].id !in Catalog && Entries[5].id !in Catalog
  {
    IntervalWithinNotedRange();
    ScrollDistanceWithinNotedRange();
    EntryIds();
    UncataloguedIds();
    assert Entries[4] == TestimonialSliderMeta;
    assert Entries[5] == GalleryMeta;
  }
}
