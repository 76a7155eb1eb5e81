/** A small field-schema language with zod's observable object semantics:
    declared keys are checked one by one, every failing key is reported,
    and undeclared keys are stripped from the parsed output. */
module Schema {
  import opened Values
  import opened Issues

  /** The field forms the component schemas use. */
  datatype FieldKind =
    | Str                                              // z.string()
    | OptStr                                           // z.string().optional()
    | StrDefault(fallback: string)                     // z.string().default(fallback)
    | EnumDefault(options: seq<string>, fallback: string)  // z.enum(options).default(fallback)
    | Url                                              // z.string().url()

  datatype Field = Field(name: string, kind: FieldKind)

  /** The shape of a `z.object`, in declaration order. */
  type ObjectSchema = seq<Field>

  /** WHATWG URL parsing, which zod's `.url()` delegates to; supplied by the caller. */
  type UrlCheck = string -> bool

  /** Only these forms fail when their key is absent. */
  predicate IsRequired(kind: FieldKind)
  {
    kind.Str? || kind.Url?
  }

  function DefaultOf(kind: FieldKind): Option<string>
  {
    match kind
    case StrDefault(d) => Some(d)
    case EnumDefault(_, d) => Some(d)
    case _ => None
  }

  /** Which values a field admits, stated from the value's side: absence is
      fine unless the field is required (a default is fed through the field's
      own check), and a present value must be a string that also meets the
      enumeration or URL condition. */
  predicate Admits(kind: FieldKind, v: Option<Json>, isUrl: UrlCheck)
  {
    match v
    case None => !IsRequired(kind) && (kind.EnumDefault? ==> kind.fallback in kind.options)
    case Some(j) =>
      && j.JStr?
      && (kind.EnumDefault? ==> j.s in kind.options)
      && (kind.Url? ==> isUrl(j.s))
  }

  function StringProblem(v: Option<Json>): Option<Problem>
  {
    match v
    case None => Some(Required)
    case Some(JStr(_)) => None
    case Some(j) => Some(WrongType("string", TypeName(j)))
  }

  function EnumProblem(options: seq<string>, s: string): Option<Problem>
  {
    if s in options then None else Some(BadEnum(options, s))
  }

  /** The problem zod reports for one field, written per field form. */
  function FieldProblem(kind: FieldKind, v: Option<Json>, isUrl: UrlCheck): (r: Option<Problem>)
    ensures r.None? <==> Admits(kind, v, isUrl)
    ensures r == Some(Required) <==> v.None? && IsRequired(kind)
  {
    match kind
    case Str => StringProblem(v)
    case OptStr => if v.None? then None else StringProblem(v)
    case StrDefault(_) => if v.None? then None else StringProblem(v)
    case EnumDefault(options, d) =>
      (match v
       case None => EnumProblem(options, d)
       case Some(JStr(s)) => EnumProblem(options, s)
       case Some(j) => Some(WrongType(QuotedOptions(options), TypeName(j))))
    case Url =>
      (match v
       case Some(JStr(s)) => if isUrl(s) then None else Some(BadUrl)
       case _ => StringProblem(v))
  }

  /** The value zod's own parse output holds for a field: the input when
      present, otherwise the declared default, otherwise nothing. */
  function FieldValue(kind: FieldKind, v: Option<Json>): Option<Json>
  {
    if v.Some? then v
    else match DefaultOf(kind)
      case Some(d) => Some(JStr(d))
      case None => None
  }

  /** The issue a single field contributes: none, or one at the field's key. */
  function FieldIssue(f: Field, fields: map<string, Json>, isUrl: UrlCheck): seq<Issue>
  {
    match FieldProblem(f.kind, Get(fields, f.name), isUrl)
    case None => []
    case Some(p) => [Issue([Key(f.name)], Message(p))]
  }

  /** Reference definition: every declared field admits what the object holds. */
  ghost predicate ObjectAccepts(schema: ObjectSchema, fields: map<string, Json>, isUrl: UrlCheck)
  {
    forall i :: 0 <= i < |schema| ==> Admits(schema[i].kind, Get(fields, schema[i].name), isUrl)
  }

  ghost predicate DistinctNames(schema: ObjectSchema)
  {
    forall i, j :: 0 <= i < j < |schema| ==> schema[i].name != schema[j].name
  }

  ghost predicate Declared(schema: ObjectSchema, key: string)
  {
    exists i :: 0 <= i < |schema| && schema[i].name == key
  }

  /** All field issues, in declaration order: every failing field is reported
      (not only the first), and every issue comes from a failing field. */
  function FieldIssues(schema: ObjectSchema, fields: map<string, Json>, isUrl: UrlCheck): (r: seq<Issue>)
    ensures r == [] <==> ObjectAccepts(schema, fields, isUrl)
    ensures |r| <= |schema|
    ensures forall i, x :: 0 <= i < |schema| && x in FieldIssue(schema[i], fields, isUrl) ==> x in r
    ensures forall x :: x in r ==> exists i :: 0 <= i < |schema| && x in FieldIssue(schema[i], fields, isUrl)
    decreases |schema|
  {
    if |schema| == 0 then []
    else
      var rest := FieldIssues(schema[1..], fields, isUrl);
      assert forall i :: 1 <= i < |schema| ==> schema[1..][i - 1] == schema[i];
      FieldIssue(schema[0], fields, isUrl) + rest
  }

  /** zod's output object: declared keys only, defaults filled in. */
  function Normalize(schema: ObjectSchema, fields: map<string, Json>): (out: map<string, Json>)
    ensures forall k :: k in out ==> Declared(schema, k)
    ensures DistinctNames(schema) ==>
      forall i :: 0 <= i < |schema| ==>
        Get(out, schema[i].name) == FieldValue(schema[i].kind, Get(fields, schema[i].name))
    decreases |schema|
  {
    if |schema| == 0 then map[]
    else
      var rest := Normalize(schema[1..], fields);
      assert forall i :: 1 <= i < |schema| ==> schema[1..][i - 1] == schema[i];
      match FieldValue(schema[0].kind, Get(fields, schema[0].name))
      case Some(v) => rest[schema[0].name := v]
      case None => rest - {schema[0].name}
  }

  /** `schema.safeParse(j)` for a `z.object` in its default (strip) mode. */
  function ParseObject(schema: ObjectSchema, j: Json, isUrl: UrlCheck): (r: Result<map<string, Json>>)
    ensures r.Success? <==> j.JObj? && ObjectAccepts(schema, j.fields, isUrl)
    ensures r.Failure? ==> |r.issues| > 0
    ensures j.JObj? ==> Errs(r) == FieldIssues(schema, j.fields, isUrl)
    ensures r.Success? ==> forall k :: k in r.value ==> Declared(schema, k)
    ensures r.Success? && DistinctNames(schema) ==>
      forall i :: 0 <= i < |schema| ==>
        Get(r.value, schema[i].name) == FieldValue(schema[i].kind, Get(j.fields, schema[i].name))
  {
    match j
    case JObj(fields) =>
      var issues := FieldIssues(schema, fields, isUrl);
      if issues == [] then Success(Normalize(schema, fields)) else Failure(issues)
    case _ => Failure([Issue([], Message(WrongType("object", TypeName(j))))])
  }
}

module SchemaFacts {
  import opened Values
  import opened Issues
  import opened Schema

  /** Every issue of a schema sits at the key of one of its fields. */
  lemma IssueAtSomeKey(schema: ObjectSchema, fields: map<string, Json>, isUrl: UrlCheck, x: Issue)
    requires x in FieldIssues(schema, fields, isUrl)
    ensures exists j :: 0 <= j < |schema| && x.path == [Key(schema[j].name)]
  {
    var j :| 0 <= j < |schema| && x in FieldIssue(schema[j], fields, isUrl);
    assert x.path == [Key(schema[j].name)];
  }

  /** At most one issue at path `p`, followed by issues elsewhere with
      distinct paths, keeps the paths distinct. */
  lemma ConsDistinct(head: seq<Issue>, rest: seq<Issue>, p: seq<PathSeg>)
    requires |head| <= 1
    requires forall x :: x in head ==> x.path == p
    requires forall x :: x in rest ==> x.path != p
    requires DistinctPaths(rest)
    ensures DistinctPaths(head + rest)
  {
    var r := head + rest;
    forall k, l | 0 <= k < l < |r| ensures r[k].path != r[l].path {
      assert r[l] == rest[l - |head|];
      if k >= |head| {
        assert r[k] == rest[k - |head|];
      } else {
        assert r[k] in head;
        assert r[l] in rest;
      }
    }
  }

  /** With distinct keys no field is reported twice: no two of an object's
      issues share a path. */
  lemma {:induction false} FieldIssuesDistinct(schema: ObjectSchema, fields: map<string, Json>, isUrl: UrlCheck)
    requires DistinctNames(schema)
    ensures DistinctPaths(FieldIssues(schema, fields, isUrl))
    decreases |schema|
  {
    if |schema| > 0 {
      var tail := schema[1..];
      assert forall i :: 1 <= i < |schema| ==> tail[i - 1] == schema[i];
      assert DistinctNames(tail);
      FieldIssuesDistinct(tail, fields, isUrl);
      var p := [Key(schema[0].name)];
      var rest := FieldIssues(tail, fields, isUrl);
      forall x | x in rest ensures x.path != p {
        IssueAtSomeKey(tail, fields, isUrl, x);
      }
      assert FieldIssues(schema, fields, isUrl) == FieldIssue(schema[0], fields, isUrl) + rest;
      ConsDistinct(FieldIssue(schema[0], fields, isUrl), rest, p);
    }
  }

  /** Keys a schema does not declare are never looked at: adding them to the
      input changes neither the verdict nor a single issue. */
  lemma {:induction false} ExtraKeysIgnored(schema: ObjectSchema, p: map<string, Json>, extra: map<string, Json>, isUrl: UrlCheck)
    requires forall k :: k in extra ==> !Declared(schema, k)
    ensures FieldIssues(schema, p + extra, isUrl) == FieldIssues(schema, p, isUrl)
    ensures ObjectAccepts(schema, p + extra, isUrl) <==> ObjectAccepts(schema, p, isUrl)
    decreases |schema|
  {
    if |schema| > 0 {
      assert schema[0].name !in extra by {
        if schema[0].name in extra {
          assert Declared(schema, schema[0].name);
        }
      }
      assert Get(p + extra, schema[0].name) == Get(p, schema[0].name);
      assert forall k :: Declared(schema[1..], k) ==> Declared(schema, k) by {
        forall k | Declared(schema[1..], k) ensures Declared(schema, k) {
          var i :| 0 <= i < |schema[1..]| && schema[1..][i].name == k;
          assert schema[i + 1].name == k;
        }
      }
      ExtraKeysIgnored(schema[1..], p, extra, isUrl);
    }
  }

  /** Defaults are filled in zod's own output: an accepted object that lacks
      a defaulted key gets the default under that key. */
  lemma DefaultFilled(schema: ObjectSchema, fields: map<string, Json>, isUrl: UrlCheck, i: nat, d: string)
    requires ObjectAccepts(schema, fields, isUrl) && DistinctNames(schema)
    requires i < |schema| && schema[i].name !in fields && DefaultOf(schema[i].kind) == Some(d)
    ensures ParseObject(schema, JObj(fields), isUrl).Success?
    ensures Get(ParseObject(schema, JObj(fields), isUrl).value, schema[i].name) == Some(JStr(d))
  {
  }
}
