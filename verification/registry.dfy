/** The component metadata registry: descriptive entries for tooling, kept
    apart from validation. */
module Registry {
  import opened Values

  /** What the registry says about one prop. */
  datatype PropDefinition = PropDefinition(
    typeLabel: string,
    required: Option<bool>,
    defaultValue: Option<Json>,
    constraints: Option<string>)

  datatype Motion = Motion(defaultPreset: Option<string>, allowedPresets: Option<seq<string>>)

  datatype Example = Example(title: string, props: map<string, Json>)

  /** One registry entry. `category` is kept as the string the table holds,
      so that membership in the allowed set is a fact about the data. */
  datatype ComponentMeta = ComponentMeta(
    id: string,
    name: string,
    category: string,
    props: map<string, PropDefinition>,
    motion: Option<Motion>,
    examples: Option<seq<Example>>)

  /** The categories the `ComponentMeta` type admits. */
  const Categories: set<string> := {"hero", "content", "media", "cta", "sticky"}

  function Typed(typeLabel: string, required: bool): PropDefinition
  {
    PropDefinition(typeLabel, Some(required), None, None)
  }

  function Defaulted(typeLabel: string, d: Json): PropDefinition
  {
    PropDefinition(typeLabel, None, Some(d), None)
  }

  const AlignType := "\"left\"|\"center\""

  const TextBlockMeta := ComponentMeta(
    "text-block", "Text Block", "content",
    map[
      "eyebrow" := Typed("string", false),
      "headline" := Typed("string", false),
      "body" := Typed("string", true),
      "align" := PropDefinition(AlignType, None, Some(JStr("left")), Some("Center alignment for short copy only"))
    ],
    Some(Motion(Some("fadeUp"), Some(["fadeUp", "slideIn", "scaleIn"]))),
    Some([Example("Centered intro", map[
      "eyebrow" := JStr("Chapter One"),
      "headline" := JStr("The Beginning"),
      "body" := JStr("In the digital age, storytelling evolves beyond the page."),
      "align" := JStr("center")
    ])]))

  const HeroExampleMedia := "https://images.unsplash.com/photo-1500530855697-b586d89ba3ee?q=80&w=1200&auto=format&fit=crop"

  const HeroMeta := ComponentMeta(
    "hero-with-parallax", "Hero With Parallax", "hero",
    map[
      "eyebrow" := Typed("string", false),
      "headline" := Typed("string", true),
      "subhead" := Typed("string", false),
      "media" := Typed("string", true),
      "align" := Defaulted(AlignType, JStr("left"))
    ],
    Some(Motion(Some("parallax"), Some(["parallax", "fadeUp"]))),
    Some([Example("Editorial hero", map[
      "eyebrow" := JStr("Investigations"),
      "headline" := JStr("The Cost of Silence"),
      "subhead" := JStr("A years-long look at how communities navigate accountability."),
      "media" := JStr(HeroExampleMedia),
      "align" := JStr("left")
    ])]))

  const CtaMeta := ComponentMeta(
    "cta-section", "CTA Section", "cta",
    map[
      "eyebrow" := Typed("string", false),
      "headline" := Typed("string", true),
      "body" := Typed("string", false),
      "primaryLabel" := Defaulted("string", JStr("Get Started")),
      "primaryHref" := Defaulted("string", JStr("#")),
      "secondaryLabel" := Defaulted("string", JStr("Learn More")),
      "secondaryHref" := Defaulted("string", JStr("#")),
      "align" := Defaulted(AlignType, JStr("center"))
    ],
    Some(Motion(Some("fadeUp"), Some(["fadeUp", "slideIn"]))),
    Some([Example("Centered CTA", map[
      "eyebrow" := JStr("Ready to start?"),
      "headline" := JStr("Compose scrollytelling pages from JSON"),
      "body" := JStr("Use tokens and audited blocks to ship consistent, on-brand experiences."),
      "primaryLabel" := JStr("View Docs"),
      "primaryHref" := JStr("#"),
      "secondaryLabel" := JStr("See Templates"),
      "secondaryHref" := JStr("#"),
      "align" := JStr("center")
    ])]))

  function Feature(title: string, description: string): Json
  {
    JObj(map["title" := JStr(title), "description" := JStr(description)])
  }

  const FeatureGridMeta := ComponentMeta(
    "feature-grid", "Feature Grid", "content",
    map[
      "eyebrow" := Typed("string", false),
      "headline" := Typed("string", true),
      "features" := Typed("Array<Feature>", true),
      "columns" := Defaulted("2|3|4", JNum(3.0)),
      "align" := Defaulted(AlignType, JStr("left"))
    ],
    Some(Motion(Some("fadeUp"), Some(["fadeUp"]))),
    Some([Example("Three-column features", map[
      "eyebrow" := JStr("Why this starter"),
      "headline" := JStr("Audited Motion Blocks"),
      "columns" := JNum(3.0),
      "features" := JArr([
        Feature("Tokens First", "Motion and theme governed by tokens."),
        Feature("LLM Ready", "Schemas + metadata for valid generations."),
        Feature("A11y Baseline", "Reduced-motion safe defaults.")
      ])
    ])]))

  function Testimonial(quote: string, author: string, title: string, avatar: string): Json
  {
    JObj(map["quote" := JStr(quote), "author" := JStr(author), "title" := JStr(title), "avatar" := JStr(avatar)])
  }

  const TestimonialSliderMeta := ComponentMeta(
    "testimonial-slider", "Testimonial Slider", "content",
    map[
      "eyebrow" := Typed("string", false),
      "headline" := Typed("string", true),
      "testimonials" := Typed("Array<Testimonial>", true),
      "align" := Defaulted(AlignType, JStr("left")),
      "autoplay" := Defaulted("boolean", JBool(false)),
      "interval" := PropDefinition("number", None, Some(JNum(5000.0)), Some("Range 1000-30000ms"))
    ],
    Some(Motion(Some("slideIn"), Some(["slideIn", "fadeUp"]))),
    Some([Example("Customer testimonials with autoplay", map[
      "eyebrow" := JStr("What Our Customers Say"),
      "headline" := JStr("Trusted by Thousands"),
      "align" := JStr("center"),
      "autoplay" := JBool(true),
      "interval" := JNum(5000.0),
      "testimonials" := JArr([
        Testimonial("This platform transformed how we handle customer onboarding. The results were immediate and impressive.",
                    "Sarah Chen", "Head of Product, TechCorp",
                    "https://images.unsplash.com/photo-1494790108755-2616b612b786?w=80&h=80&fit=crop&crop=face"),
        Testimonial("The best investment we made this year. Customer satisfaction scores increased by 40%.",
                    "Marcus Johnson", "CEO, StartupXYZ",
                    "https://images.unsplash.com/photo-1507003211169-0a1dd7228f2d?w=80&h=80&fit=crop&crop=face")
      ])
    ])]))

  function GalleryImage(src: string, width: string, height: string, offset: string, speed: real): Json
  {
    JObj(map["src" := JStr(src), "width" := JStr(width), "height" := JStr(height),
             "offset" := JStr(offset), "speed" := JNum(speed)])
  }

  const GalleryMeta := ComponentMeta(
    "horizontal-scroll-gallery", "Horizontal Scroll Gallery", "media",
    map[
      "eyebrow" := Typed("string", false),
      "introText" := Typed("string", true),
      "outroText" := Typed("string", true),
      "images" := PropDefinition("Array<GalleryImage>", Some(true), None, Some("Min 3 images")),
      "scrollDistance" := PropDefinition("number", None, Some(JNum(4000.0)), Some("Range 1000-10000px"))
    ],
    Some(Motion(Some("horizontalScroll"), Some(["horizontalScroll"]))),
    Some([Example("Photo essay with varied image sizes", map[
      "eyebrow" := JStr("Visual Story"),
      "introText" := JStr("Exploring the intersection of design and narrative"),
      "outroText" := JStr("A journey through composition and motion"),
      "scrollDistance" := JNum(4000.0),
      "images" := JArr([
        GalleryImage("https://picsum.photos/600/750?random=1", "w-[600px]", "h-[750px]", "top-[5%]", 0.5),
        GalleryImage("https://picsum.photos/550/700?random=2", "w-[550px]", "h-[700px]", "top-[20%]", 0.8),
        GalleryImage("https://picsum.photos/700/550?random=3", "w-[700px]", "h-[550px]", "top-[10%]", 0.6)
      ])
    ])]))

  /** The registry table, in its published order. */
  const Entries: seq<ComponentMeta> := [
    TextBlockMeta, HeroMeta, CtaMeta, FeatureGridMeta, TestimonialSliderMeta, GalleryMeta
  ]

  /** The first entry with the given id, if any. */
  function FindIn(entries: seq<ComponentMeta>, id: string): (r: Option<ComponentMeta>)
    ensures r.Some? <==> exists i :: 0 <= i < |entries| && entries[i].id == id
    ensures r.Some? ==> r.value in entries && r.value.id == id
    decreases |entries|
  {
    if |entries| == 0 then None
    else if entries[0].id == id then Some(entries[0])
    else
      var r := FindIn(entries[1..], id);
      assert forall i :: 1 <= i < |entries| ==> entries[1..][i - 1] == entries[i];
      r
  }

  function Lookup(id: string): Option<ComponentMeta>
  {
    FindIn(Entries, id)
  }

  function Ids(): set<string>
  {
    set i | 0 <= i < |Entries| :: Entries[i].id
  }
}
