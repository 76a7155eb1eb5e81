/** `validatePageSpec`: the document envelope, the per-section dispatch into
    the component catalog, and the mode in which the schema library could
    not be loaded. */
module Validation {
  import opened Values
  import opened Issues
  import opened Merging
  import opened Schema
  import opened BlockCatalog
  import opened PageSpecs

  /** Whether the schema library was loadable. In `Permissive` mode (the
      dynamic import failed) every input is accepted unchanged; in `Strict`
      mode the library is present and brings its URL parser with it. */
  datatype Mode = Permissive | Strict(isUrl: UrlCheck)

  /** `{success: true, data}` or `{success: false, error}`. */
  datatype Outcome = Valid(data: Json) | Invalid(issues: seq<Issue>)

  function TypeIssue(path: seq<PathSeg>, expected: string, j: Json): seq<Issue>
  {
    [Issue(path, Message(WrongType(expected, TypeName(j))))]
  }

  /* ---------------- leaf parsers (zod primitives) ---------------- */

  /** `z.string()` */
  function ParseString(v: Option<Json>, path: seq<PathSeg>): (r: Result<string>)
    ensures r.Success? <==> PresentString(v)
    ensures r.Success? ==> v == Some(JStr(r.value))
    ensures r.Failure? ==> |r.issues| == 1 && r.issues[0].path == path
  {
    match v
    case Some(JStr(s)) => Success(s)
    case None => Failure([Issue(path, Message(Required))])
    case Some(j) => Failure(TypeIssue(path, "string", j))
  }

  /** `z.string().optional()` */
  function ParseOptString(v: Option<Json>, path: seq<PathSeg>): (r: Result<Option<string>>)
    ensures r.Success? <==> OptionalString(v)
    ensures r.Success? ==> Lift(r.value) == v
    ensures r.Failure? ==> |r.issues| == 1 && r.issues[0].path == path
  {
    match v
    case None => Success(None)
    case Some(JStr(s)) => Success(Some(s))
    case Some(j) => Failure(TypeIssue(path, "string", j))
  }

  /** A required `z.object` in the envelope, before its own keys are read. */
  function ParseFields(v: Option<Json>, path: seq<PathSeg>): (r: Result<map<string, Json>>)
    ensures r.Success? <==> v.Some? && v.value.JObj?
    ensures r.Success? ==> v == Some(JObj(r.value))
    ensures r.Failure? ==> |r.issues| == 1 && r.issues[0].path == path
  {
    match v
    case Some(JObj(fields)) => Success(fields)
    case None => Failure([Issue(path, Message(Required))])
    case Some(j) => Failure(TypeIssue(path, "object", j))
  }

  /** The one key zod 3's record parse leaves out: it copies every parsed
      entry into a fresh object except an entry named `__proto__`. */
  const ProtoKey := "__proto__"

  /** `z.record(z.any()).default({})`: absent props become the empty record,
      and an object's entries are copied over, `__proto__` excepted. */
  function ParseProps(v: Option<Json>, path: seq<PathSeg>): (r: Result<map<string, Json>>)
    ensures r.Success? <==> v.None? || v.value.JObj?
    ensures r.Success? ==> r.value == PropsOr(v)
    ensures r.Success? ==> ProtoKey !in r.value
    ensures r.Success? && v.Some? ==>
      forall k :: k in v.value.fields && k != ProtoKey <==> k in r.value
    ensures r.Success? ==> forall k :: k in r.value ==> v.Some? && r.value[k] == v.value.fields[k]
    ensures r.Failure? ==> |r.issues| == 1 && r.issues[0].path == path
  {
    match v
    case None => Success(map[])
    case Some(JObj(fields)) => Success(fields - {ProtoKey})
    case Some(j) => Failure(TypeIssue(path, "object", j))
  }

  /** The record a props value stands for: its fields without `__proto__`,
      or `{}` when it is not an object. */
  function PropsOr(v: Option<Json>): (m: map<string, Json>)
    ensures ProtoKey !in m
  {
    if v.Some? && v.value.JObj? then v.value.fields - {ProtoKey} else map[]
  }

  /** `z.literal(1)`: anything else, absence included, is one issue. */
  function ParseVersion(v: Option<Json>, path: seq<PathSeg>): (r: Result<real>)
    ensures r.Success? <==> v == Some(JNum(1.0))
    ensures r.Failure? ==> r.issues == [Issue(path, "Invalid literal value, expected 1")]
  {
    if v == Some(JNum(1.0)) then Success(1.0)
    else
      assert Message(BadLiteral("1")) == "Invalid literal value, expected 1";
      Failure([Issue(path, Message(BadLiteral("1")))])
  }

  /* ---------------- sections ---------------- */

  /** The text of a rewritten issue: component id, then the dotted inner path
      (or "(root)"), then the inner message. */
  function SectionMessage(component: string, inner: Issue): string
  {
    component + ": " + PathLabel(inner.path) + " " + inner.message
  }

  function RewriteIssues(component: string, inner: seq<Issue>, path: seq<PathSeg>): seq<Issue>
  {
    seq(|inner|, k requires 0 <= k < |inner| => Issue(path, SectionMessage(component, inner[k])))
  }

  /** Reference definition: props pass when the component has no catalog
      entry, or when its entry accepts them. */
  ghost predicate PropsAccepted(isUrl: UrlCheck, component: string, props: map<string, Json>)
  {
    component in Catalog ==> ObjectAccepts(Catalog[component], props, isUrl)
  }

  /** The refinement run on a parsed section: look the id up in the catalog
      and, when found, validate the props and rewrite every issue. */
  function PropsIssues(isUrl: UrlCheck, component: string, props: map<string, Json>, path: seq<PathSeg>): (r: seq<Issue>)
    ensures r == [] <==> PropsAccepted(isUrl, component, props)
    ensures forall x :: x in r ==> x.path == path
  {
    if component in Catalog then
      RewriteIssues(component, Errs(ParseObject(Catalog[component], JObj(props), isUrl)), path)
    else []
  }

  /** Reference definition of an acceptable section. */
  ghost predicate SectionConforms(isUrl: UrlCheck, v: Json)
  {
    && v.JObj?
    && PresentString(Get(v.fields, "component"))
    && (Get(v.fields, "props").None? || v.fields["props"].JObj?)
    && PropsAccepted(isUrl, v.fields["component"].s, PropsOr(Get(v.fields, "props")))
  }

  /** One element of `sections`. The refinement only runs when `component`
      and `props` both parsed; otherwise their own issues are reported. */
  function ParseSection(isUrl: UrlCheck, v: Json, path: seq<PathSeg>): (r: Result<SectionSpec>)
    ensures r.Success? <==> SectionConforms(isUrl, v)
    ensures r.Success? ==>
      r.value == SectionSpec(v.fields["component"].s, PropsOr(Get(v.fields, "props")))
    ensures r.Failure? ==> |r.issues| > 0
    ensures AllUnder(Errs(r), path)
  {
    match v
    case JObj(fields) =>
      var c := ParseString(Get(fields, "component"), path + [Key("component")]);
      var p := ParseProps(Get(fields, "props"), path + [Key("props")]);
      if c.Success? && p.Success? then
        var refined := PropsIssues(isUrl, c.value, p.value, path);
        if refined == [] then Success(SectionSpec(c.value, p.value)) else Failure(refined)
      else
        Failure(Errs(c) + Errs(p))
    case _ => Failure(TypeIssue(path, "object", v))
  }

  /** The parse of each element of the `sections` array, at its own index. */
  function ParseEach(isUrl: UrlCheck, items: seq<Json>, path: seq<PathSeg>): (rs: seq<Result<SectionSpec>>)
    ensures |rs| == |items|
    ensures forall i :: 0 <= i < |items| ==> rs[i] == ParseSection(isUrl, items[i], path + [Index(i)])
  {
    seq(|items|, i requires 0 <= i < |items| => ParseSection(isUrl, items[i], path + [Index(i)]))
  }

  /** The elements of the `sections` array: the array passes exactly when
      every element does, and then the parsed sections are the elements' own
      results, in the same order; otherwise every element's issues are kept. */
  function ParseItems(isUrl: UrlCheck, items: seq<Json>, path: seq<PathSeg>): (r: Result<seq<SectionSpec>>)
    ensures r.Success? <==> forall i :: 0 <= i < |items| ==> SectionConforms(isUrl, items[i])
    ensures r.Success? ==>
      && |r.value| == |items|
      && forall i :: 0 <= i < |items| ==> ParseSection(isUrl, items[i], path + [Index(i)]) == Success(r.value[i])
    ensures forall i, x :: 0 <= i < |items| && x in Errs(ParseSection(isUrl, items[i], path + [Index(i)])) ==> x in Errs(r)
    ensures forall x :: x in Errs(r) ==>
      exists i :: 0 <= i < |items| && x in Errs(ParseSection(isUrl, items[i], path + [Index(i)]))
    ensures r.Failure? ==> |r.issues| > 0
    ensures AllUnder(Errs(r), path)
  {
    var rs := ParseEach(isUrl, items, path);
    var r := MergeAll(rs);
    assert r.Failure? ==> |r.issues| > 0 by {
      if r.Failure? {
        var i :| 0 <= i < |rs| && rs[i].Failure?;
        assert rs[i] == ParseSection(isUrl, items[i], path + [Index(i)]);
        var x := rs[i].issues[0];
        assert x in Errs(rs[i]);
        assert x in Errs(r);
      }
    }
    assert AllUnder(Errs(r), path) by {
      forall x | x in Errs(r) ensures path <= x.path {
        var i :| 0 <= i < |rs| && x in Errs(rs[i]);
        assert path + [Index(i)] <= x.path;
      }
    }
    r
  }

  /** Reference definition of an acceptable `sections` value. */
  ghost predicate SectionsConform(isUrl: UrlCheck, v: Option<Json>)
  {
    && v.Some? && v.value.JArr?
    && |v.value.items| >= 1
    && forall i :: 0 <= i < |v.value.items| ==> SectionConforms(isUrl, v.value.items[i])
  }

  /** `z.array(SectionSchema).min(1)`: the length issue comes first, then
      the issues of every element. */
  function ParseSections(isUrl: UrlCheck, v: Option<Json>, path: seq<PathSeg>): (r: Result<seq<SectionSpec>>)
    ensures r.Success? <==> SectionsConform(isUrl, v)
    ensures r.Success? ==>
      && |r.value| == |v.value.items|
      && forall i :: 0 <= i < |r.value| ==>
           ParseSection(isUrl, v.value.items[i], path + [Index(i)]) == Success(r.value[i])
    ensures r.Failure? ==> |r.issues| > 0
    ensures AllUnder(Errs(r), path)
  {
    match v
    case None => Failure([Issue(path, Message(Required))])
    case Some(JArr(items)) =>
      var short := if |items| < 1 then [Issue(path, Message(TooSmall(1)))] else [];
      var each := ParseItems(isUrl, items, path);
      if short == [] && each.Success? then Success(each.value)
      else Failure(short + Errs(each))
    case Some(j) => Failure(TypeIssue(path, "array", j))
  }

  /* ---------------- envelope ---------------- */

  ghost predicate MetaConforms(v: Option<Json>)
  {
    && v.Some? && v.value.JObj?
    && PresentString(Get(v.value.fields, "title"))
    && OptionalString(Get(v.value.fields, "description"))
    && OptionalString(Get(v.value.fields, "ogImage"))
  }

  /** `page.meta`: required `title`, optional `description` and `ogImage`;
      every failing key is reported. */
  function ParseMeta(v: Option<Json>, path: seq<PathSeg>): (r: Result<PageMeta>)
    ensures r.Success? <==> MetaConforms(v)
    ensures r.Success? ==>
      && Get(v.value.fields, "title") == Some(JStr(r.value.title))
      && Get(v.value.fields, "description") == Lift(r.value.description)
      && Get(v.value.fields, "ogImage") == Lift(r.value.ogImage)
    ensures v.Some? && v.value.JObj? ==>
      && (forall x :: x in Errs(ParseString(Get(v.value.fields, "title"), path + [Key("title")])) ==> x in Errs(r))
      && (forall x :: x in Errs(ParseOptString(Get(v.value.fields, "description"), path + [Key("description")])) ==> x in Errs(r))
      && (forall x :: x in Errs(ParseOptString(Get(v.value.fields, "ogImage"), path + [Key("ogImage")])) ==> x in Errs(r))
    ensures r.Failure? ==> |r.issues| > 0
    ensures AllUnder(Errs(r), path)
  {
    var obj := ParseFields(v, path);
    if obj.Failure? then Failure(obj.issues)
    else
      var fields := obj.value;
      var title := ParseString(Get(fields, "title"), path + [Key("title")]);
      var description := ParseOptString(Get(fields, "description"), path + [Key("description")]);
      var ogImage := ParseOptString(Get(fields, "ogImage"), path + [Key("ogImage")]);
      if title.Success? && description.Success? && ogImage.Success? then
        Success(PageMeta(title.value, description.value, ogImage.value))
      else
        Failure(Errs(title) + Errs(description) + Errs(ogImage))
  }

  ghost predicate PageConforms(isUrl: UrlCheck, v: Option<Json>)
  {
    && v.Some? && v.value.JObj?
    && MetaConforms(Get(v.value.fields, "meta"))
    && PresentString(Get(v.value.fields, "theme"))
    && SectionsConform(isUrl, Get(v.value.fields, "sections"))
  }

  /** `page`: `meta`, a string `theme` (the empty string included) and a
      non-empty `sections` array; issues of all three are collected. */
  function ParsePage(isUrl: UrlCheck, v: Option<Json>, path: seq<PathSeg>): (r: Result<PageSpec>)
    ensures r.Success? <==> PageConforms(isUrl, v)
    ensures r.Success? ==>
      && ParseMeta(Get(v.value.fields, "meta"), path + [Key("meta")]) == Success(r.value.meta)
      && Get(v.value.fields, "theme") == Some(JStr(r.value.theme))
      && ParseSections(isUrl, Get(v.value.fields, "sections"), path + [Key("sections")]) == Success(r.value.sections)
    ensures v.Some? && v.value.JObj? ==>
      && (forall x :: x in Errs(ParseMeta(Get(v.value.fields, "meta"), path + [Key("meta")])) ==> x in Errs(r))
      && (forall x :: x in Errs(ParseString(Get(v.value.fields, "theme"), path + [Key("theme")])) ==> x in Errs(r))
      && (forall x :: x in Errs(ParseSections(isUrl, Get(v.value.fields, "sections"), path + [Key("sections")])) ==> x in Errs(r))
    ensures r.Failure? ==> |r.issues| > 0
    ensures AllUnder(Errs(r), path)
  {
    var obj := ParseFields(v, path);
    if obj.Failure? then Failure(obj.issues)
    else
      var fields := obj.value;
      var meta := ParseMeta(Get(fields, "meta"), path + [Key("meta")]);
      var theme := ParseString(Get(fields, "theme"), path + [Key("theme")]);
      var sections := ParseSections(isUrl, Get(fields, "sections"), path + [Key("sections")]);
      if meta.Success? && theme.Success? && sections.Success? then
        Success(PageSpec(meta.value, theme.value, sections.value))
      else
        Failure(Errs(meta) + Errs(theme) + Errs(sections))
  }

  /** Reference definition of an acceptable document. */
  ghost predicate DocumentConforms(isUrl: UrlCheck, j: Json)
  {
    && j.JObj?
    && Get(j.fields, "version") == Some(JNum(1.0))
    && PageConforms(isUrl, Get(j.fields, "page"))
  }

  /** `PageSpecSchema.safeParse`. A wrong version is reported but does not
      stop the `page` checks. */
  function ParsePageSpec(isUrl: UrlCheck, j: Json): (r: Result<PageSpec>)
    ensures r.Success? <==> DocumentConforms(isUrl, j)
    ensures r.Success? ==> ParsePage(isUrl, Get(j.fields, "page"), [Key("page")]) == Success(r.value)
    ensures r.Failure? ==> |r.issues| > 0
    ensures j.JObj? && r.Failure? ==>
      forall x :: x in Errs(ParsePage(isUrl, Get(j.fields, "page"), [Key("page")])) ==> x in r.issues
    ensures j.JObj? && Get(j.fields, "version") != Some(JNum(1.0)) ==>
      Issue([Key("version")], "Invalid literal value, expected 1") in Errs(r)
  {
    match j
    case JObj(fields) =>
      var version := ParseVersion(Get(fields, "version"), [Key("version")]);
      var page := ParsePage(isUrl, Get(fields, "page"), [Key("page")]);
      if version.Success? && page.Success? then Success(page.value)
      else Failure(Errs(version) + Errs(page))
    case _ => Failure(TypeIssue([], "object", j))
  }

  /** `validatePageSpec(spec)`. */
  function ValidatePageSpec(mode: Mode, j: Json): (r: Outcome)
    ensures mode.Permissive? ==> r == Valid(j)
    ensures mode.Strict? ==> (r.Valid? <==> DocumentConforms(mode.isUrl, j))
    ensures r.Invalid? ==> |r.issues| > 0
  {
    match mode
    case Permissive => Valid(j)
    case Strict(isUrl) =>
      match ParsePageSpec(isUrl, j)
      case Success(d) => Valid(ToJson(d))
      case Failure(issues) => Invalid(issues)
  }
}
