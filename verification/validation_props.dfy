/** Properties of `validatePageSpec` that relate several calls or several
    layers of the model. */
module ValidationProperties {
  import opened Values
  import opened Issues
  import opened Schema
  import opened SchemaFacts
  import opened BlockCatalog
  import opened PageSpecs
  import opened Validation

  /** With the schema library missing, every input comes back unchanged. */
  lemma PermissiveAcceptsEverything(j: Json)
    ensures ValidatePageSpec(Permissive, j) == Valid(j)
  {
  }

  /** Fail-closed on version: anything but the number 1 (absent, 2, "1", ...)
      is rejected, and for an object the issue is reported at `version`. */
  lemma VersionMismatchRejected(isUrl: UrlCheck, j: Json)
    requires !(j.JObj? && Get(j.fields, "version") == Some(JNum(1.0)))
    ensures ValidatePageSpec(Strict(isUrl), j).Invalid?
    ensures j.JObj? ==>
      Issue([Key("version")], "Invalid literal value, expected 1") in ValidatePageSpec(Strict(isUrl), j).issues
  {
  }

  /** A wrong version does not stop the other checks: every issue of `page`
      is reported alongside it. */
  lemma VersionMismatchKeepsPageIssues(isUrl: UrlCheck, fields: map<string, Json>)
    requires Get(fields, "version") != Some(JNum(1.0))
    ensures forall x :: x in Errs(ParsePage(isUrl, Get(fields, "page"), [Key("page")])) ==>
      x in ValidatePageSpec(Strict(isUrl), JObj(fields)).issues
  {
  }

  /** A page whose `sections` is missing or empty is always rejected. */
  lemma MissingOrEmptySectionsRejected(isUrl: UrlCheck, fields: map<string, Json>, page: map<string, Json>)
    requires Get(fields, "page") == Some(JObj(page))
    requires Get(page, "sections") == None || Get(page, "sections") == Some(JArr([]))
    ensures ValidatePageSpec(Strict(isUrl), JObj(fields)).Invalid?
  {
  }

  /** A section naming a component without a catalog entry is accepted
      whatever its props hold, as long as they are a record (or absent), and
      keeps those props, a `__proto__` entry aside. */
  lemma UnknownComponentPassesThrough(isUrl: UrlCheck, fields: map<string, Json>, path: seq<PathSeg>)
    requires PresentString(Get(fields, "component"))
    requires fields["component"].s !in Catalog
    requires Get(fields, "props").None? || fields["props"].JObj?
    ensures ParseSection(isUrl, JObj(fields), path)
         == Success(SectionSpec(fields["component"].s, PropsOr(Get(fields, "props"))))
  {
  }

  /** The section-level issue a failing prop `f` becomes. */
  function PropIssue(path: seq<PathSeg>, component: string, f: Field, props: map<string, Json>, isUrl: UrlCheck): seq<Issue>
  {
    match FieldProblem(f.kind, Get(props, f.name), isUrl)
    case None => []
    case Some(p) => [Issue(path, component + ": " + f.name + " " + Message(p))]
  }

  /** Dispatch: a catalogued component's section issues are its props'
      issues, one for one, rewritten. */
  lemma CataloguedDispatch(isUrl: UrlCheck, fields: map<string, Json>, path: seq<PathSeg>)
    requires PresentString(Get(fields, "component"))
    requires fields["component"].s in Catalog
    requires Get(fields, "props").None? || fields["props"].JObj?
    ensures Errs(ParseSection(isUrl, JObj(fields), path))
         == RewriteIssues(fields["component"].s,
                          FieldIssues(Catalog[fields["component"].s], PropsOr(Get(fields, "props")), isUrl), path)
  {
  }

  /** Rewriting keeps an issue for every failing field of a schema whose
      keys are non-empty, with the key as the printed path. */
  lemma RewriteCoversFields(isUrl: UrlCheck, c: string, schema: ObjectSchema, props: map<string, Json>, path: seq<PathSeg>)
    requires forall i :: 0 <= i < |schema| ==> schema[i].name != ""
    ensures forall i, y :: 0 <= i < |schema| && y in PropIssue(path, c, schema[i], props, isUrl) ==>
      y in RewriteIssues(c, FieldIssues(schema, props, isUrl), path)
  {
    var inner := FieldIssues(schema, props, isUrl);
    var issues := RewriteIssues(c, inner, path);
    forall i, y | 0 <= i < |schema| && y in PropIssue(path, c, schema[i], props, isUrl)
      ensures y in issues
    {
      var x := FieldIssue(schema[i], props, isUrl)[0];
      assert x in FieldIssue(schema[i], props, isUrl);
      assert x in inner;
      var k :| 0 <= k < |inner| && inner[k] == x;
      assert PathLabel(x.path) == schema[i].name;
      assert issues[k] == Issue(path, SectionMessage(c, x));
    }
  }

  /** One field's issue, rewritten, is that field's section issue. */
  lemma RewriteOne(isUrl: UrlCheck, c: string, f: Field, props: map<string, Json>, path: seq<PathSeg>, x: Issue)
    requires f.name != ""
    requires x in FieldIssue(f, props, isUrl)
    ensures Issue(path, SectionMessage(c, x)) in PropIssue(path, c, f, props, isUrl)
  {
    assert x.path == [Key(f.name)];
    assert PathLabel(x.path) == f.name;
  }

  /** Every rewritten issue comes from one failing field. */
  lemma RewriteOnlyFields(isUrl: UrlCheck, c: string, schema: ObjectSchema, props: map<string, Json>, path: seq<PathSeg>)
    requires forall i :: 0 <= i < |schema| ==> schema[i].name != ""
    ensures forall y :: y in RewriteIssues(c, FieldIssues(schema, props, isUrl), path) ==>
      exists i :: 0 <= i < |schema| && y in PropIssue(path, c, schema[i], props, isUrl)
  {
    var inner := FieldIssues(schema, props, isUrl);
    var issues := RewriteIssues(c, inner, path);
    forall y | y in issues
      ensures exists i :: 0 <= i < |schema| && y in PropIssue(path, c, schema[i], props, isUrl)
    {
      var k :| 0 <= k < |issues| && issues[k] == y;
      assert inner[k] in inner;
      var i :| 0 <= i < |schema| && inner[k] in FieldIssue(schema[i], props, isUrl);
      RewriteOne(isUrl, c, schema[i], props, path, inner[k]);
    }
  }

  /** Two field issues at different keys of a space-free, non-empty schema
      never rewrite to the same section issue. */
  lemma RewriteSeparates(isUrl: UrlCheck, c: string, schema: ObjectSchema, props: map<string, Json>, path: seq<PathSeg>, x: Issue, y: Issue)
    requires forall i :: 0 <= i < |schema| ==> schema[i].name != "" && ' ' !in schema[i].name
    requires x in FieldIssues(schema, props, isUrl) && y in FieldIssues(schema, props, isUrl)
    requires x.path != y.path
    ensures SectionMessage(c, x) != SectionMessage(c, y)
  {
    IssueAtSomeKey(schema, props, isUrl, x);
    IssueAtSomeKey(schema, props, isUrl, y);
    var i :| 0 <= i < |schema| && x.path == [Key(schema[i].name)];
    var j :| 0 <= j < |schema| && y.path == [Key(schema[j].name)];
    assert PathLabel(x.path) == schema[i].name;
    assert PathLabel(y.path) == schema[j].name;
    FirstWordSeparates(c, schema[i].name, schema[j].name, x.message, y.message);
  }

  /** With distinct, space-free, non-empty keys no section issue is
      reported twice. */
  lemma RewriteNoRepeats(isUrl: UrlCheck, c: string, schema: ObjectSchema, props: map<string, Json>, path: seq<PathSeg>)
    requires DistinctNames(schema)
    requires forall i :: 0 <= i < |schema| ==> schema[i].name != "" && ' ' !in schema[i].name
    ensures NoRepeats(RewriteIssues(c, FieldIssues(schema, props, isUrl), path))
  {
    var inner := FieldIssues(schema, props, isUrl);
    var issues := RewriteIssues(c, inner, path);
    FieldIssuesDistinct(schema, props, isUrl);
    forall k, l | 0 <= k < l < |issues| ensures issues[k] != issues[l] {
      assert inner[k].path != inner[l].path;
      RewriteSeparates(isUrl, c, schema, props, path, inner[k], inner[l]);
    }
  }

  /** For a catalogued component every failing prop's issue is reported at
      the section's path with the message "<component>: <key> <inner message>",
      nothing else is reported, and no issue is reported twice. */
  lemma CataloguedIssuesRewritten(isUrl: UrlCheck, c: string, fields: map<string, Json>, path: seq<PathSeg>)
    requires Get(fields, "component") == Some(JStr(c))
    requires c in Catalog
    requires Get(fields, "props").None? || fields["props"].JObj?
    ensures forall i, y :: 0 <= i < |Catalog[c]| && y in PropIssue(path, c, Catalog[c][i], PropsOr(Get(fields, "props")), isUrl) ==>
      y in Errs(ParseSection(isUrl, JObj(fields), path))
    ensures forall y :: y in Errs(ParseSection(isUrl, JObj(fields), path)) ==>
      exists i :: 0 <= i < |Catalog[c]| && y in PropIssue(path, c, Catalog[c][i], PropsOr(Get(fields, "props")), isUrl)
    ensures |Errs(ParseSection(isUrl, JObj(fields), path))| <= |Catalog[c]|
    ensures NoRepeats(Errs(ParseSection(isUrl, JObj(fields), path)))
  {
    var schema := Catalog[c];
    var props := PropsOr(Get(fields, "props"));
    CataloguedDispatch(isUrl, fields, path);
    CatalogKeysNonEmpty(c);
    CatalogKeysSpaceFree(c);
    CatalogNamesDistinct();
    RewriteNoRepeats(isUrl, c, schema, props, path);
    RewriteCoversFields(isUrl, c, schema, props, path);
    RewriteOnlyFields(isUrl, c, schema, props, path);
  }

  /** Aggregation across the document: every issue of every section, not
      only the first failing one, is in the result, at that section's index. */
  lemma EverySectionIssueReported(isUrl: UrlCheck, fields: map<string, Json>, page: map<string, Json>,
                                  items: seq<Json>, i: nat)
    requires Get(fields, "page") == Some(JObj(page))
    requires Get(page, "sections") == Some(JArr(items))
    requires i < |items|
    ensures forall x :: x in Errs(ParseSection(isUrl, items[i], [Key("page"), Key("sections"), Index(i)])) ==>
      x in ValidatePageSpec(Strict(isUrl), JObj(fields)).issues
  {
    var path := [Key("page"), Key("sections")];
    assert [Key("page")] + [Key("sections")] == path;
    assert path + [Index(i)] == [Key("page"), Key("sections"), Index(i)];
    ItemIssuesReachSections(isUrl, items, path, i);
    SectionsIssuesReachPage(isUrl, page);
    PageIssuesReachDocument(isUrl, fields);
  }

  lemma ItemIssuesReachSections(isUrl: UrlCheck, items: seq<Json>, path: seq<PathSeg>, i: nat)
    requires i < |items|
    ensures forall x :: x in Errs(ParseSection(isUrl, items[i], path + [Index(i)])) ==>
      x in Errs(ParseSections(isUrl, Some(JArr(items)), path))
  {
    var each := ParseItems(isUrl, items, path);
    assert forall x :: x in Errs(each) ==> x in Errs(ParseSections(isUrl, Some(JArr(items)), path));
  }

  lemma SectionsIssuesReachPage(isUrl: UrlCheck, page: map<string, Json>)
    ensures forall x :: x in Errs(ParseSections(isUrl, Get(page, "sections"), [Key("page")] + [Key("sections")])) ==>
      x in Errs(ParsePage(isUrl, Some(JObj(page)), [Key("page")]))
  {
  }

  lemma PageIssuesReachDocument(isUrl: UrlCheck, fields: map<string, Json>)
    ensures forall x :: x in Errs(ParsePage(isUrl, Get(fields, "page"), [Key("page")])) ==>
      x in ValidatePageSpec(Strict(isUrl), JObj(fields)).issues
  {
  }

  /** Reference definition of a document that validates as it stands: at
      least one section, no section's props holding a `__proto__` entry, and
      every catalogued section's props accepted. */
  ghost predicate WellFormed(isUrl: UrlCheck, d: PageSpec)
  {
    && |d.sections| >= 1
    && forall i :: 0 <= i < |d.sections| ==>
         ProtoKey !in d.sections[i].props && PropsAccepted(isUrl, d.sections[i].component, d.sections[i].props)
  }

  /** On success the sections keep their number, order and component ids,
      and each section's props are the input's props, or `{}` when absent. */
  lemma SuccessKeepsSections(isUrl: UrlCheck, j: Json)
    requires ParsePageSpec(isUrl, j).Success?
    ensures var d := ParsePageSpec(isUrl, j).value;
            var page := j.fields["page"].fields;
            var items := page["sections"].items;
            && d.theme == page["theme"].s
            && Get(page["meta"].fields, "title") == Some(JStr(d.meta.title))
            && |d.sections| == |items|
            && forall i :: 0 <= i < |items| ==>
                 d.sections[i] == SectionSpec(items[i].fields["component"].s, PropsOr(Get(items[i].fields, "props")))
  {
    var d := ParsePageSpec(isUrl, j).value;
    var page := j.fields["page"].fields;
    var items := page["sections"].items;
    assert ParsePage(isUrl, Get(j.fields, "page"), [Key("page")]) == Success(d);
    assert ParseSections(isUrl, Get(page, "sections"), [Key("page")] + [Key("sections")]) == Success(d.sections);
  }

  /** Whatever validates successfully is well formed. */
  lemma SuccessIsWellFormed(isUrl: UrlCheck, j: Json)
    requires ParsePageSpec(isUrl, j).Success?
    ensures WellFormed(isUrl, ParsePageSpec(isUrl, j).value)
  {
    var d := ParsePageSpec(isUrl, j).value;
    SuccessKeepsSections(isUrl, j);
    var items := j.fields["page"].fields["sections"].items;
    forall i | 0 <= i < |d.sections|
      ensures ProtoKey !in d.sections[i].props
      ensures PropsAccepted(isUrl, d.sections[i].component, d.sections[i].props)
    {
      assert SectionConforms(isUrl, items[i]);
    }
  }

  lemma MetaRoundTrip(m: PageMeta, path: seq<PathSeg>)
    ensures ParseMeta(Some(MetaToJson(m)), path) == Success(m)
  {
    var f := MetaToJson(m).fields;
    assert Get(f, "title") == Some(JStr(m.title));
    assert Get(f, "description") == Lift(m.description);
    assert Get(f, "ogImage") == Lift(m.ogImage);
  }

  /** One section through `SectionToJson` and back: it conforms exactly when
      its props without `__proto__` are accepted, and it comes back unchanged
      exactly when, in addition, it holds no `__proto__` entry to lose. */
  lemma SectionRoundTrip(isUrl: UrlCheck, s: SectionSpec, path: seq<PathSeg>)
    ensures SectionConforms(isUrl, SectionToJson(s)) <==> PropsAccepted(isUrl, s.component, s.props - {ProtoKey})
    ensures ParseSection(isUrl, SectionToJson(s), path) == Success(s) <==>
      ProtoKey !in s.props && PropsAccepted(isUrl, s.component, s.props)
  {
    var f := SectionToJson(s).fields;
    assert Get(f, "component") == Some(JStr(s.component));
    assert Get(f, "props") == Some(JObj(s.props));
    if ProtoKey !in s.props {
      assert s.props - {ProtoKey} == s.props;
    }
  }

  lemma SectionsRoundTrip(isUrl: UrlCheck, ss: seq<SectionSpec>, path: seq<PathSeg>)
    ensures ParseSections(isUrl, Some(JArr(SectionsToJson(ss))), path) == Success(ss) <==>
      |ss| >= 1 && forall i :: 0 <= i < |ss| ==>
        ProtoKey !in ss[i].props && PropsAccepted(isUrl, ss[i].component, ss[i].props)
  {
    var items := SectionsToJson(ss);
    var r := ParseSections(isUrl, Some(JArr(items)), path);
    forall i | 0 <= i < |ss|
      ensures ParseSection(isUrl, items[i], path + [Index(i)]) == Success(ss[i]) <==>
        ProtoKey !in ss[i].props && PropsAccepted(isUrl, ss[i].component, ss[i].props)
    {
      SectionRoundTrip(isUrl, ss[i], path + [Index(i)]);
    }
    if |ss| >= 1 && forall i :: 0 <= i < |ss| ==>
        ProtoKey !in ss[i].props && PropsAccepted(isUrl, ss[i].component, ss[i].props) {
      assert SectionsConform(isUrl, Some(JArr(items))) by {
        forall i | 0 <= i < |items| ensures SectionConforms(isUrl, items[i]) {
          assert ParseSection(isUrl, items[i], path + [Index(i)]).Success?;
        }
      }
      assert |r.value| == |ss|;
      forall i | 0 <= i < |ss| ensures r.value[i] == ss[i] {
        assert ParseSection(isUrl, items[i], path + [Index(i)]) == Success(r.value[i]);
      }
      assert r.value == ss;
    }
  }

  /** Encoding a document and validating it gives the document back exactly
      when it is well formed. */
  lemma RoundTrip(isUrl: UrlCheck, d: PageSpec)
    ensures ParsePageSpec(isUrl, ToJson(d)) == Success(d) <==> WellFormed(isUrl, d)
  {
    var j := ToJson(d);
    var page := j.fields["page"].fields;
    var items := SectionsToJson(d.sections);
    assert Get(j.fields, "version") == Some(JNum(1.0));
    assert Get(j.fields, "page") == Some(JObj(page));
    assert Get(page, "sections") == Some(JArr(items));
    assert Get(page, "theme") == Some(JStr(d.theme));
    assert Get(page, "meta") == Some(MetaToJson(d.meta));
    MetaRoundTrip(d.meta, [Key("page")] + [Key("meta")]);
    SectionsRoundTrip(isUrl, d.sections, [Key("page")] + [Key("sections")]);
    if WellFormed(isUrl, d) {
      assert DocumentConforms(isUrl, j);
      var r := ParsePageSpec(isUrl, j).value;
      assert ParsePage(isUrl, Get(j.fields, "page"), [Key("page")]) == Success(r);
      assert r == d;
    }
    if ParsePageSpec(isUrl, j) == Success(d) {
      SuccessIsWellFormed(isUrl, j);
    }
  }

  /** Validation is idempotent: validating a successful output again
      succeeds with that same output. */
  lemma Idempotent(mode: Mode, j: Json)
    requires ValidatePageSpec(mode, j).Valid?
    ensures ValidatePageSpec(mode, ValidatePageSpec(mode, j).data) == ValidatePageSpec(mode, j)
  {
    if mode.Strict? {
      var d := ParsePageSpec(mode.isUrl, j).value;
      SuccessIsWellFormed(mode.isUrl, j);
      RoundTrip(mode.isUrl, d);
    }
  }

  /** The JSON shape of the `PageSpec` type: version literal 1, a meta with a
      string title and optional string description/ogImage, a string theme,
      and sections each with a string component and a record of props. */
  ghost predicate IsPageSpecJson(o: Json)
  {
    && o.JObj?
    && Get(o.fields, "version") == Some(JNum(1.0))
    && PageConforms((s: string) => true, Get(o.fields, "page"))
  }

  /** A successful strict result inhabits the `PageSpec` type. */
  lemma SuccessHasPageSpecShape(isUrl: UrlCheck, j: Json)
    requires ValidatePageSpec(Strict(isUrl), j).Valid?
    ensures IsPageSpecJson(ValidatePageSpec(Strict(isUrl), j).data)
  {
    var d := ParsePageSpec(isUrl, j).value;
    var trusting: UrlCheck := (s: string) => true;
    SuccessIsWellFormed(isUrl, j);
    assert WellFormed(trusting, d) by {
      forall i | 0 <= i < |d.sections|
        ensures PropsAccepted(trusting, d.sections[i].component, d.sections[i].props)
      {
        assert PropsAccepted(isUrl, d.sections[i].component, d.sections[i].props);
        var c := d.sections[i].component;
        if c in Catalog {
          var schema := Catalog[c];
          forall k | 0 <= k < |schema|
            ensures Admits(schema[k].kind, Get(d.sections[i].props, schema[k].name), trusting)
          {
            assert Admits(schema[k].kind, Get(d.sections[i].props, schema[k].name), isUrl);
          }
        }
      }
    }
    RoundTrip(trusting, d);
  }
}
