/** The document shapes a successful validation produces, and their JSON form. */
module PageSpecs {
  import opened Values

  datatype PageMeta = PageMeta(title: string, description: Option<string>, ogImage: Option<string>)

  /** One component invocation. After validation `props` is always present. */
  datatype SectionSpec = SectionSpec(component: string, props: map<string, Json>)

  /** A page document. Its `version` is the literal type `1`, which has a
      single inhabitant, so it is not stored; `ToJson` writes it out. */
  datatype PageSpec = PageSpec(meta: PageMeta, theme: string, sections: seq<SectionSpec>)

  /** The key/value pair of an optional string, or no pair when absent. */
  function OptionalEntry(key: string, v: Option<string>): map<string, Json>
  {
    match v
    case None => map[]
    case Some(s) => map[key := JStr(s)]
  }

  function MetaToJson(m: PageMeta): Json
  {
    JObj(map["title" := JStr(m.title)]
         + OptionalEntry("description", m.description)
         + OptionalEntry("ogImage", m.ogImage))
  }

  function SectionToJson(s: SectionSpec): Json
  {
    JObj(map["component" := JStr(s.component), "props" := JObj(s.props)])
  }

  function SectionsToJson(sections: seq<SectionSpec>): (r: seq<Json>)
    ensures |r| == |sections|
    ensures forall i :: 0 <= i < |sections| ==> r[i] == SectionToJson(sections[i])
  {
    seq(|sections|, i requires 0 <= i < |sections| => SectionToJson(sections[i]))
  }

  /** The data object `validatePageSpec` returns on success. */
  function ToJson(d: PageSpec): Json
  {
    JObj(map[
      "version" := JNum(1.0),
      "page" := JObj(map[
        "meta" := MetaToJson(d.meta),
        "theme" := JStr(d.theme),
        "sections" := JArr(SectionsToJson(d.sections))
      ])
    ])
  }
}
