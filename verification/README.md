# PageSpec validation and the component registry, in Dafny

This project models the server-side core of an editorial page builder. The
core is `validatePageSpec`, which checks an untrusted JSON page document (a
*PageSpec*). The check covers the envelope: `version` must be the literal
1, `page.meta` needs a `title`, `page.theme` must be a string, and
`page.sections` must be a non-empty list. Each section's `component` id is
then looked up among three block schemas: `text-block`,
`hero-with-parallax` and `cta-section`. When the id is found, the section's
`props` are validated against that schema, and every inner issue is
re-reported as `"<component>: <dotted path or (root)> <message>"`. The
model also holds the static component metadata registry of six entries.
Lemmas tie that table to the validation schemas.

Layout, one module per concern:

- `values.dfy` (`Values`): JSON values. An absent key (`None`) is distinct from `null`.
- `issues.dfy` (`Issues`, `Merging`): issue paths, zod's English messages,
  the path label, and the generic merge of an array's element results.
- `schema.dfy` (`Schema`, `SchemaFacts`): a small field-schema language that
  covers a string, an optional string, a string with a default, an enum with
  a default, and a URL string. It also gives zod's strip-mode object parse over that language.
- `catalog.dfy` (`BlockCatalog`): the three block schemas and the
  `blockSchemas` map, with one characterisation lemma per schema.
- `pagespec.dfy` (`PageSpecs`): the typed document (`PageSpec`,
  `PageMeta`, `SectionSpec`) and its JSON form.
- `validation.dfy` (`Validation`): the section refinement, the envelope
  parse, and `ValidatePageSpec`. The zod-unavailable branch is the mode
  `Permissive`.
- `validation_props.dfy` (`ValidationProperties`): the validator's
  properties. They cover issue rewriting, pass-through, the round trip
  through the typed document, and idempotence.
- `scenarios.dfy` (`Scenarios`): concrete documents. They show defaults
  computed but not written back, versions other than 1 rejected, numbers
  passed without a range check, and a `__proto__` props entry dropped.
- `registry.dfy` (`Registry`), `registry_props.dfy` (`RegistryConsistency`):
  the metadata table and its consistency with the block schemas.
- `finding.dfy` (`PrototypeLookup`): the component lookup as the code
  writes it, where inherited `Object.prototype` names resolve. See Findings.

Behaviour of the code that the model keeps as it is:

- A successful result keeps each section's `props` as given, or `{}` when
  absent. The block schema's own parse, with its defaults such as
  `primaryLabel: "Get Started"`, is thrown away (`Scenarios.DefaultsNotWrittenBack`).
- The one props entry that is not kept is one named `__proto__`. zod 3's
  record parse copies the entries into a fresh object and skips that key
  (`Validation.ParseProps`, `Scenarios.ProtoEntryDropped`).
- `theme` may be the empty string.
- A wrong `version` does not stop the remaining checks. Issues under `page`
  are still reported (`ValidationProperties.VersionMismatchKeepsPageIssues`).
- No numeric range is enforced. The `interval` and `scrollDistance` ranges
  in the registry are notes only, and their components have no block schema
  (`Scenarios.NoRangeCheck`, `RegistryConsistency.NotedRangesHold`).
- Three registry ids (`feature-grid`, `testimonial-slider`,
  `horizontal-scroll-gallery`) have no block schema, so they take the
  unknown-component path.

## Model

| member | source | states |
|---|---|---|
| `Validation.ValidatePageSpec` | server/utils/validation.ts:1-80 | Permissive mode returns the input unchanged. In strict mode the result is valid exactly when the document conforms to the envelope and every catalogued section's props are accepted. An invalid result carries at least one issue |
| `ValidationProperties.PermissiveAcceptsEverything` | server/utils/validation.ts:4-10 | Without zod, every input, of any shape, is accepted and returned unchanged |
| `Validation.ParsePageSpec` | server/utils/validation.ts:61-77 | Succeeds exactly when `version` is the literal 1 and `page` conforms. A failing page's issues are all reported. A bad version adds its own issue without hiding the others |
| `Validation.ParseVersion` | server/utils/validation.ts:62 | Only the number 1 passes. Anything else, absence included, gives the single issue "Invalid literal value, expected 1" at the version path |
| `ValidationProperties.VersionMismatchRejected` | server/utils/validation.ts:74-77 | Any document without `version: 1`, including a non-object, is rejected; for an object, the version issue is among those reported |
| `ValidationProperties.VersionMismatchKeepsPageIssues` | server/utils/validation.ts:61-72 | With a wrong version, every issue found under `page` is still reported |
| `Validation.ParsePage` | server/utils/validation.ts:63-71 | The page object succeeds exactly when meta, theme and sections all conform. On an object, every issue of each of the three is reported |
| `Validation.ParseMeta` | server/utils/validation.ts:64-68 | `meta` needs a string `title`. `description` and `ogImage` may be absent or strings. Other keys are dropped. On an object, every issue of each of the three fields is reported |
| `Validation.ParseString` | server/utils/validation.ts:69 | `z.string()`: passes exactly on a present string, which it returns. Otherwise it gives one issue at the field's path |
| `Validation.ParseOptString` | server/utils/validation.ts:66-67 | `z.string().optional()`: passes on absence or a string and gives the value back. Otherwise it gives one issue |
| `Validation.ParseFields` | server/utils/validation.ts:63-64 | A nested `z.object` passes its first check exactly on an object, whose fields it yields |
| `Validation.ParseSections` | server/utils/validation.ts:70 | `sections` succeeds exactly when it is a non-empty array whose every element is a conforming section. The output has the same length and each element is that element's own parse |
| `ValidationProperties.MissingOrEmptySectionsRejected` | server/utils/validation.ts:70 | A document whose `sections` is missing or `[]` is always rejected |
| `Validation.ParseItems` | server/utils/validation.ts:70 | Element parses are merged in order. Every issue of every failing section is reported under that section's index, and no issue comes from elsewhere |
| `Merging.MergeAll` | server/utils/validation.ts:70 | A list of results succeeds exactly when each does. The values are kept in order. The issues are exactly the union of the elements' issues |
| `Validation.ParseProps` | server/utils/validation.ts:47 | `props` passes exactly when absent or a record. Absent props give `{}`. A record gives every one of its entries except one named `__proto__`, each with its own value, and nothing else |
| `Validation.ParseSection` | server/utils/validation.ts:44-59 | A section succeeds exactly when it has a string `component`, a record-or-absent `props`, and props its component's schema accepts. The result keeps the id, and the props as given less a `__proto__` entry. All its issues sit under its own path |
| `Validation.PropsIssues` | server/utils/validation.ts:49-58 | The refinement adds no issue exactly when the id is uncatalogued or its schema accepts the props. Every added issue sits at the section's path |
| `Issues.PathLabel` | server/utils/validation.ts:55 | The label is never empty. It is "(root)" for the empty path and for a single empty key. A single non-empty key is shown as its name and a single index as its decimal digits. Any other path is shown dot-joined |
| `Issues.JoinPath` | server/utils/validation.ts:55 | The dot-join of a path is empty exactly for the empty path and for the path of one empty key |
| `Issues.NatToStringReadsBack` | server/utils/validation.ts:55 | An index in a path is shown as the decimal numeral of its value: no leading zero, and its digits read back to the index |
| `ValidationProperties.UnknownComponentPassesThrough` | server/utils/validation.ts:50-51 | An id with no block schema passes whatever its record props hold. It keeps them, less a `__proto__` entry |
| `ValidationProperties.CataloguedDispatch` | server/utils/validation.ts:50-52 | For a catalogued id, the section's issues are the block schema's field issues, rewritten |
| `ValidationProperties.RewriteCoversFields` | server/utils/validation.ts:54-56 | Every field problem of a schema appears as a rewritten section issue naming that field |
| `ValidationProperties.RewriteOnlyFields` | server/utils/validation.ts:54-56 | Every rewritten issue comes from the problem of one declared field |
| `ValidationProperties.RewriteSeparates` | server/utils/validation.ts:54-56 | Field issues at two different keys never turn into the same section message, because a non-empty, space-free key ends at the first space |
| `ValidationProperties.RewriteNoRepeats` | server/utils/validation.ts:54-56 | With distinct, non-empty, space-free keys, no rewritten section issue appears twice |
| `ValidationProperties.CataloguedIssuesRewritten` | server/utils/validation.ts:52-56 | For a catalogued component, every failing prop's issue is reported as `component: field message` at the section's path. There are no other issues, no more issues than declared fields, and no issue is reported twice |
| `ValidationProperties.EverySectionIssueReported` | server/utils/validation.ts:70 | Any issue of section i in a page object appears in the document's result, under `page.sections.i` |
| `ValidationProperties.SuccessKeepsSections` | server/utils/validation.ts:47-79 | On success, the sections keep their number, order and component ids. Each section's props are the input's props less a `__proto__` entry, or `{}` when absent |
| `ValidationProperties.SuccessIsWellFormed` | server/utils/validation.ts:70 | A successful result has at least one section. No section's props hold a `__proto__` entry, and every section's props pass its schema |
| `ValidationProperties.MetaRoundTrip` | types/pagespec.ts:6-10 | Any typed meta, serialised and parsed, comes back unchanged |
| `ValidationProperties.SectionRoundTrip` | types/pagespec.ts:1-4 | A serialised section conforms exactly when its props, less a `__proto__` entry, are accepted. It parses back to itself exactly when it also has no `__proto__` entry to lose |
| `ValidationProperties.SectionsRoundTrip` | types/pagespec.ts:17 | A serialised section list parses back to itself exactly when it is non-empty and every section has accepted props and no `__proto__` entry |
| `ValidationProperties.RoundTrip` | types/pagespec.ts:12-19 | A typed document parses back to itself from its JSON exactly when it is well formed: at least one section, and each section's props accepted and free of a `__proto__` entry |
| `ValidationProperties.Idempotent` | server/utils/validation.ts:74-79 | Validating a successful output again succeeds with the same output, in either mode |
| `ValidationProperties.SuccessHasPageSpecShape` | types/pagespec.ts:12-19 | A valid result has `version` 1, a meta with a string title and optional string description and ogImage, a string theme, and a non-empty list of sections, each with a string component and record props |
| `Schema.FieldProblem` | server/utils/validation.ts:12-36 | A field reports no problem exactly when its kind admits the value. "Required" is reported exactly for an absent required field |
| `Schema.FieldIssues` | server/utils/validation.ts:12-17 | An object's issues are empty exactly when every field is admitted. There are no more issues than declared fields, each failing field's issue is present, and none comes from elsewhere |
| `SchemaFacts.FieldIssuesDistinct` | server/utils/validation.ts:12-17 | When a schema declares each key once, no two of an object's issues share a path, so no field is reported twice |
| `Schema.Normalize` | server/utils/validation.ts:12-36 | The output holds declared keys only, each with the given value or its default |
| `Schema.ParseObject` | server/utils/validation.ts:12-36 | A strip-mode object parse succeeds exactly on an object whose fields are all admitted. On an object its issues are the field issues. Its output has declared keys only, with defaults filled |
| `SchemaFacts.ExtraKeysIgnored` | server/utils/validation.ts:12-36 | Adding undeclared keys changes neither the issues nor acceptance |
| `SchemaFacts.DefaultFilled` | server/utils/validation.ts:31-35 | An accepted object missing a defaulted field gets that field's default in the parsed output |
| `BlockCatalog.TextBlockAccepts` | server/utils/validation.ts:12-17 | `text-block` props are accepted exactly when `body` is a string, `eyebrow`/`headline` are absent or strings, and `align` is absent or "left"/"center" |
| `BlockCatalog.HeroAccepts` | server/utils/validation.ts:19-25 | `hero-with-parallax` props are accepted exactly when `headline` is a string, `media` is a URL string, the optional strings are absent or strings, and `align` is allowed |
| `BlockCatalog.CtaAccepts` | server/utils/validation.ts:27-36 | `cta-section` props are accepted exactly when `headline` is a string, every other text field is absent or a string, and `align` is allowed |
| `BlockCatalog.RequiredIsStructural` | server/utils/validation.ts:15-29 | A missing `body` fails text-block, but `body: ""` passes. A missing `headline` fails hero and cta. A missing or non-URL `media` fails hero |
| `BlockCatalog.AlignRule` | server/utils/validation.ts:16 | Every block schema has an `align` field, accepted exactly when it is absent or "left"/"center" |
| `BlockCatalog.CatalogKeys` | server/utils/validation.ts:38-42 | The block-schema map has exactly the three own keys |
| `BlockCatalog.CatalogNamesDistinct` | server/utils/validation.ts:12-36 | No block schema declares a field twice |
| `BlockCatalog.CatalogKeysSpaceFree` | server/utils/validation.ts:12-36 | No key of a catalogued block schema holds a space |
| `Scenarios.CtaDocUnchanged` | server/utils/validation.ts:44-79 | A one-section cta document is accepted for every theme string and returned as given |
| `Scenarios.CtaDefaultsComputed` | server/utils/validation.ts:31-35 | The block schema's own parse of `{headline: "Go"}` computes `primaryLabel: "Get Started"` and `align: "center"` |
| `Scenarios.DefaultsNotWrittenBack` | server/utils/validation.ts:52-57 | Those defaults do not reach the output. The validated section's props are `{headline: "Go"}` only, and an empty theme is accepted |
| `Scenarios.OtherVersionsRejected` | server/utils/validation.ts:62 | The same document with version 2, "1", or any other value is rejected |
| `Scenarios.NoRangeCheck` | server/utils/validation.ts:38-42 | A testimonial-slider section with any numeric `interval` passes unchecked |
| `Scenarios.ProtoItemParsed` | server/utils/validation.ts:44-47 | The section `{component: "x", props: {"__proto__": {a: 1}}}` is accepted, with empty props |
| `Scenarios.ProtoEntryDropped` | server/utils/validation.ts:47 | A whole document with that section validates, and the output carries the section with `props: {}` |
| `RegistryConsistency.IdsDistinct` | server/api/components/registry.ts:4-244 | The six registry ids are pairwise distinct |
| `RegistryConsistency.CatalogIdsRegistered` | server/api/components/registry.ts:4-244 | Every block-schema id has a registry entry. The registry ids without a block schema are exactly feature-grid, testimonial-slider and horizontal-scroll-gallery |
| `RegistryConsistency.IdsListed` | server/api/components/registry.ts:4-244 | The registry publishes exactly the six ids |
| `RegistryConsistency.TextBlockAgrees` | server/api/components/registry.ts:13-18 | text-block's registry props are the schema's fields, with the same required flags and the default "left" |
| `RegistryConsistency.HeroAgrees` | server/api/components/registry.ts:46-52 | The hero's registry props are the schema's fields, with `headline` and `media` required and `align` defaulting to "left" |
| `RegistryConsistency.CtaKeysAgree` | server/api/components/registry.ts:83-92 | The cta registry props are exactly the schema's field names |
| `RegistryConsistency.CtaAgrees` | server/api/components/registry.ts:83-92 | The cta registry requires `headline` only. Its defaults are "Get Started", "#", "Learn More", "#" and "center", as in the schema |
| `RegistryConsistency.CatalogAgreesWithRegistry` | server/api/components/registry.ts:4-115 | For every block schema, the registry entry has the same prop names, required flags and defaults |
| `RegistryConsistency.AgreesAt` | server/api/components/registry.ts:4-115 | For one catalogued id, its registry entry exists and agrees with its block schema on prop names, required flags and defaults |
| `RegistryConsistency.ExamplesAt` | server/api/components/registry.ts:26-114 | For one catalogued id, its registry entry exists and its examples pass its block schema |
| `RegistryConsistency.TextBlockExampleAccepted` | server/api/components/registry.ts:26-36 | The text-block example props pass its schema |
| `RegistryConsistency.HeroExampleAccepted` | server/api/components/registry.ts:61-73 | The hero example props pass its schema, given that its media string is a URL |
| `RegistryConsistency.CtaExampleAccepted` | server/api/components/registry.ts:100-114 | The cta example props pass its schema |
| `RegistryConsistency.ExamplesValidate` | server/api/components/registry.ts:26-114 | Every catalogued component's examples pass its block schema |
| `RegistryConsistency.CategoriesKnown` | types/meta.ts:11 | Every entry's category is one of hero, content, media, cta, sticky |
| `RegistryConsistency.DefaultPresetsAllowed` | server/api/components/registry.ts:22-225 | Each entry's default motion preset is among its allowed presets |
| `RegistryConsistency.IntervalWithinNotedRange` | server/api/components/registry.ts:168-185 | The `interval` default and example (5000) lie in the noted 1000-30000 ms |
| `RegistryConsistency.ScrollDistanceWithinNotedRange` | server/api/components/registry.ts:217-233 | The `scrollDistance` default and example (4000) lie in the noted 1000-10000 px |
| `RegistryConsistency.NotedRangesHold` | server/api/components/registry.ts:155-233 | Both noted ranges hold, and neither component has a block schema that could enforce them |
| `PrototypeLookup.RefineAsWritten` | server/utils/validation.ts:49-58 | The refinement as written throws exactly for inherited names. Otherwise it adds what the model's refinement adds |
| `PrototypeLookup.SectionAsWritten` | server/utils/validation.ts:44-59 | A section as written, built on that refinement, throws exactly when its `component` and `props` parse and the id is an inherited name. Otherwise it gives the model's section result |
| `PrototypeLookup.EachAsWritten` | server/utils/validation.ts:70 | Parsing the array elements in order, the run throws exactly when some element reaches an inherited name. Otherwise each element's result is the model's |
| `PrototypeLookup.SectionsAsWritten` | server/utils/validation.ts:70 | `sections` as written throws exactly when it is an array with an element that reaches an inherited name. Otherwise it gives the model's result |
| `PrototypeLookup.PageAsWritten` | server/utils/validation.ts:63-71 | `page` as written throws exactly when it is an object whose `sections` array has such an element. Otherwise it gives the model's result |
| `PrototypeLookup.ValidateAsWritten` | server/utils/validation.ts:61-80 | `validatePageSpec` as written rejects, with "schema.safeParse is not a function", exactly the documents in which some section reaches the refinement with an inherited name. On every other document it returns exactly what the model returns |
| `PrototypeLookup.ConstructorDocumentThrows` | server/utils/validation.ts:50-52 | A one-section document with component `constructor` makes the code as written reject. The model accepts it unchanged |
| `PrototypeLookup.InheritedNamesPassThrough` | server/utils/validation.ts:50-51 | With own-key lookup, every inherited name is an unknown id, and its section passes, keeping its props less a `__proto__` entry |

## Left out

- The dynamic `import('zod')` is not modelled. Its outcome is the `Mode` parameter (`Permissive` when it fails).
- The schema library's behaviour is modelled as zod 3's: its messages, its record parse that skips `__proto__`, and `safeParse` not catching an exception thrown in a refinement. The package manifest that pins the version is not part of this model, and zod 4's differing messages and behaviour are not modelled.
- zod's internals are not modelled. Only its observable behaviour is: strip-mode objects, collected field issues, the refinement skipped when the section object itself fails, and defaults applied to absent values.
- WHATWG URL parsing behind `z.string().url()` is the `isUrl` parameter of `Strict`. Only the lemmas that need a fact about it assume one (for example, that the hero example's media string is a URL).
- `error.format()`'s nested error tree is not modelled. A failure is the flat list of `(path, message)` issues that it is built from.
- JSON object key order is not modelled, because objects are maps. Numbers are mathematical reals, not IEEE doubles.
- zod's exact message wording is followed for the messages this core can produce ("Required", "Expected X, received Y", "Invalid enum value…", "Invalid url", "Invalid literal value, expected 1", and the array minimum). Issue codes and the other issue fields are not modelled.
- The HTTP `defineEventHandler` wrappers of the registry and page endpoints are not part of this model. Neither are the motion, theme, Tailwind and Nuxt configuration files, which have no part in validation.
- The registry entries' `semantics` (purpose and use cases) and `a11y` notes are not modelled. They are free prose that nothing reads. Every other field of every entry is kept, examples included.

## Findings

| source | as written | input that shows it | evidently intended | confidence | as-written member | corrected member |
|---|---|---|---|---|---|---|
| server/utils/validation.ts:38-52 | `blockSchemas[val.component]` indexes a plain object literal, so inherited `Object.prototype` members such as `constructor`, `toString` or `__proto__` are found and are truthy. `schema.safeParse` is then not a function, and the `TypeError` escapes `validatePageSpec` as a rejected promise | `{version: 1, page: {meta: {title: "t"}, theme: "acme", sections: [{component: "constructor"}]}}` | Only the three own keys select a schema, and every other id passes through as an unknown component | not executed; high that the lookup reaches the prototype, medium that zod does not catch the throw | `PrototypeLookup.ConstructorDocumentThrows` | `PrototypeLookup.InheritedNamesPassThrough` |
