/** `blockSchemas` is a plain object literal, so indexing it with a component
    id also finds the members every object inherits from `Object.prototype`.
    Those are truthy but are not schemas: the refinement then calls a
    `safeParse` that does not exist, and the resulting `TypeError` escapes
    `validatePageSpec`. The main model looks ids up among the three own keys
    only, which is what the lookup is evidently meant to do. */
module PrototypeLookup {
  import opened Values
  import opened Issues
  import opened Merging
  import opened Schema
  import opened BlockCatalog
  import opened PageSpecs
  import opened Validation
  import opened ValidationProperties

  /** The names a plain object inherits from `Object.prototype`. */
  const InheritedNames: set<string> := {
    "constructor", "__proto__", "toString", "toLocaleString", "valueOf",
    "hasOwnProperty", "isPrototypeOf", "propertyIsEnumerable",
    "__defineGetter__", "__defineSetter__", "__lookupGetter__", "__lookupSetter__"
  }

  /** What `blockSchemas[id]` evaluates to. */
  datatype Found = OwnSchema(schema: ObjectSchema) | InheritedMember(name: string) | Undefined

  /** The outcome of the refinement as written: issues added to the
      context, or an exception that leaves `safeParse` altogether. */
  datatype Refinement = Added(issues: seq<Issue>) | Throws(error: string)

  /** The outcome of `validatePageSpec` as written: a value, or a rejected
      promise. */
  datatype Completion = Returns(outcome: Outcome) | Rejects(error: string)

  const NotAFunction := "schema.safeParse is not a function"

  lemma InheritedNotCatalogued()
    ensures forall id :: id in InheritedNames ==> id !in Catalog
  {
    CatalogKeys();
  }

  /** Property lookup on the object literal: own keys first, then the
      prototype chain. */
  function LookupAsWritten(id: string): (r: Found)
    ensures r.OwnSchema? <==> id in Catalog
    ensures r.OwnSchema? ==> r.schema == Catalog[id]
    ensures r.InheritedMember? <==> id in InheritedNames
    ensures r.Undefined? <==> id !in Catalog && id !in InheritedNames
  {
    InheritedNotCatalogued();
    if id in Catalog then OwnSchema(Catalog[id])
    else if id in InheritedNames then InheritedMember(id)
    else Undefined
  }

  /** The `superRefine` callback as written. */
  function RefineAsWritten(isUrl: UrlCheck, id: string, props: map<string, Json>, path: seq<PathSeg>): (r: Refinement)
    ensures r.Throws? <==> id in InheritedNames
    ensures r.Added? ==> r.issues == PropsIssues(isUrl, id, props, path)
  {
    match LookupAsWritten(id)
    case OwnSchema(s) => Added(RewriteIssues(id, Errs(ParseObject(s, JObj(props), isUrl)), path))
    case InheritedMember(_) => Throws(NotAFunction)
    case Undefined => Added([])
  }

  /** A run of a parse step as written: it completes with a value, or an
      exception escapes it and every step around it. */
  datatype Run<+T> = Done(result: T) | Thrown(error: string)

  /** A section reaches the refinement when its own two fields parse. */
  predicate ReachesInherited(v: Json)
  {
    && v.JObj?
    && PresentString(Get(v.fields, "component"))
    && (Get(v.fields, "props").None? || v.fields["props"].JObj?)
    && v.fields["component"].s in InheritedNames
  }

  /** zod parses every key of every object and every element of the array
      whatever else fails, so any reaching section throws. */
  predicate DocumentReachesInherited(j: Json)
  {
    && j.JObj?
    && Get(j.fields, "page").Some? && j.fields["page"].JObj?
    && Get(j.fields["page"].fields, "sections").Some?
    && j.fields["page"].fields["sections"].JArr?
    && exists i :: 0 <= i < |j.fields["page"].fields["sections"].items|
         && ReachesInherited(j.fields["page"].fields["sections"].items[i])
  }

  /** One element of `sections` as written: the section schema with the
      refinement above, whose exception is not caught. */
  function SectionAsWritten(isUrl: UrlCheck, v: Json, path: seq<PathSeg>): (r: Run<Result<SectionSpec>>)
    ensures r.Thrown? <==> ReachesInherited(v)
    ensures r.Thrown? ==> r.error == NotAFunction
    ensures r.Done? ==> r.result == ParseSection(isUrl, v, path)
  {
    match v
    case JObj(fields) =>
      var c := ParseString(Get(fields, "component"), path + [Key("component")]);
      var p := ParseProps(Get(fields, "props"), path + [Key("props")]);
      if c.Success? && p.Success? then
        (match RefineAsWritten(isUrl, c.value, p.value, path)
         case Throws(e) => Thrown(e)
         case Added(refined) =>
           Done(if refined == [] then Success(SectionSpec(c.value, p.value)) else Failure(refined)))
      else
        Done(Failure(Errs(c) + Errs(p)))
    case _ => Done(Failure(TypeIssue(path, "object", v)))
  }

  /** The first `n` elements of the array in order: the first exception
      ends the run, otherwise each element's result is kept. */
  function EachAsWritten(isUrl: UrlCheck, items: seq<Json>, path: seq<PathSeg>, n: nat): (r: Run<seq<Result<SectionSpec>>>)
    requires n <= |items|
    ensures r.Thrown? <==> exists i :: 0 <= i < n && ReachesInherited(items[i])
    ensures r.Thrown? ==> r.error == NotAFunction
    ensures r.Done? ==>
      && |r.result| == n
      && forall i :: 0 <= i < n ==> r.result[i] == ParseSection(isUrl, items[i], path + [Index(i)])
  {
    if n == 0 then Done([])
    else
      match EachAsWritten(isUrl, items, path, n - 1)
      case Thrown(e) => Thrown(e)
      case Done(rs) =>
        (match SectionAsWritten(isUrl, items[n - 1], path + [Index(n - 1)])
         case Thrown(e) => Thrown(e)
         case Done(x) => Done(rs + [x]))
  }

  /** A completed run over every element merges like the reference parse. */
  lemma EachDoneMerges(isUrl: UrlCheck, items: seq<Json>, path: seq<PathSeg>, rs: seq<Result<SectionSpec>>)
    requires |rs| == |items|
    requires forall i :: 0 <= i < |items| ==> rs[i] == ParseSection(isUrl, items[i], path + [Index(i)])
    ensures MergeAll(rs) == ParseItems(isUrl, items, path)
  {
    assert rs == ParseEach(isUrl, items, path);
  }

  /** `z.array(SectionSchema).min(1)` as written. */
  function SectionsAsWritten(isUrl: UrlCheck, v: Option<Json>, path: seq<PathSeg>): (r: Run<Result<seq<SectionSpec>>>)
    ensures r.Thrown? <==>
      v.Some? && v.value.JArr? && exists i :: 0 <= i < |v.value.items| && ReachesInherited(v.value.items[i])
    ensures r.Thrown? ==> r.error == NotAFunction
    ensures r.Done? ==> r.result == ParseSections(isUrl, v, path)
  {
    match v
    case None => Done(Failure([Issue(path, Message(Required))]))
    case Some(JArr(items)) =>
      var short := if |items| < 1 then [Issue(path, Message(TooSmall(1)))] else [];
      (match EachAsWritten(isUrl, items, path, |items|)
       case Thrown(e) => Thrown(e)
       case Done(rs) =>
         EachDoneMerges(isUrl, items, path, rs);
         var each := MergeAll(rs);
         Done(if short == [] && each.Success? then Success(each.value) else Failure(short + Errs(each))))
    case Some(j) => Done(Failure(TypeIssue(path, "array", j)))
  }

  /** `page` as written: `meta` and `theme` cannot throw; `sections` can. */
  function PageAsWritten(isUrl: UrlCheck, v: Option<Json>, path: seq<PathSeg>): (r: Run<Result<PageSpec>>)
    ensures r.Thrown? <==>
      && v.Some? && v.value.JObj?
      && var s := Get(v.value.fields, "sections");
         s.Some? && s.value.JArr? && exists i :: 0 <= i < |s.value.items| && ReachesInherited(s.value.items[i])
    ensures r.Thrown? ==> r.error == NotAFunction
    ensures r.Done? ==> r.result == ParsePage(isUrl, v, path)
  {
    var obj := ParseFields(v, path);
    if obj.Failure? then Done(Failure(obj.issues))
    else
      var fields := obj.value;
      var meta := ParseMeta(Get(fields, "meta"), path + [Key("meta")]);
      var theme := ParseString(Get(fields, "theme"), path + [Key("theme")]);
      match SectionsAsWritten(isUrl, Get(fields, "sections"), path + [Key("sections")])
      case Thrown(e) => Thrown(e)
      case Done(sections) =>
        Done(if meta.Success? && theme.Success? && sections.Success? then
               Success(PageSpec(meta.value, theme.value, sections.value))
             else
               Failure(Errs(meta) + Errs(theme) + Errs(sections)))
  }

  /** `validatePageSpec` with zod available, as written: the exception
      rejects the returned promise. Off the inherited names it returns
      exactly what the model returns. */
  function ValidateAsWritten(isUrl: UrlCheck, j: Json): (r: Completion)
    ensures r.Rejects? <==> DocumentReachesInherited(j)
    ensures r.Rejects? ==> r.error == NotAFunction
    ensures r.Returns? ==> r.outcome == ValidatePageSpec(Strict(isUrl), j)
  {
    match j
    case JObj(fields) =>
      var version := ParseVersion(Get(fields, "version"), [Key("version")]);
      (match PageAsWritten(isUrl, Get(fields, "page"), [Key("page")])
       case Thrown(e) => Rejects(e)
       case Done(page) =>
         Returns(if version.Success? && page.Success? then Valid(ToJson(page.value))
                 else Invalid(Errs(version) + Errs(page))))
    case _ => Returns(Invalid(TypeIssue([], "object", j)))
  }

  /** The one-section document whose component is `constructor`. */
  const ConstructorPage := PageSpec(PageMeta("t", None, None), "acme", [SectionSpec("constructor", map[])])

  /** Counterexample: the code as written rejects with a `TypeError` on a
      document the model accepts unchanged. */
  lemma ConstructorDocumentThrows(isUrl: UrlCheck)
    ensures ValidateAsWritten(isUrl, ToJson(ConstructorPage)) == Rejects(NotAFunction)
    ensures ValidatePageSpec(Strict(isUrl), ToJson(ConstructorPage)) == Valid(ToJson(ConstructorPage))
  {
    var d := ConstructorPage;
    InheritedNotCatalogued();
    assert "constructor" in InheritedNames;
    assert WellFormed(isUrl, d);
    RoundTrip(isUrl, d);
    var j := ToJson(d);
    var items := j.fields["page"].fields["sections"].items;
    assert items == SectionsToJson(d.sections);
    assert items[0] == SectionToJson(d.sections[0]);
    assert ReachesInherited(items[0]);
  }

  /** Corrected lookup: every inherited name is an unknown component, and its
      section passes, keeping its props less a `__proto__` entry. */
  lemma InheritedNamesPassThrough(isUrl: UrlCheck, fields: map<string, Json>, path: seq<PathSeg>)
    requires PresentString(Get(fields, "component"))
    requires fields["component"].s in InheritedNames
    requires Get(fields, "props").None? || fields["props"].JObj?
    ensures ParseSection(isUrl, JObj(fields), path)
         == Success(SectionSpec(fields["component"].s, PropsOr(Get(fields, "props"))))
    ensures PropsIssues(isUrl, fields["component"].s, PropsOr(Get(fields, "props")), path) == []
  {
    InheritedNotCatalogued();
    UnknownComponentPassesThrough(isUrl, fields, path);
  }
}
