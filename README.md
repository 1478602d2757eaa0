# CRD to JSON Schema converter, modelled in Dafny

This project models the converter in
`actions/crdjsonschema/openapi2jsonschema.py`. The converter reads
Kubernetes CustomResourceDefinition (CRD) documents and writes one JSON
Schema file for each entry of a CRD's `spec.versions` that carries a schema,
whether or not the version is served, and exactly one for a CRD in the
legacy form with `spec.validation.openAPIV3Schema`. It also writes one combined
document whose `oneOf` lists every schema it wrote.

The model follows the converter's own steps:

- `json.dfy` (module `JsonValue`): a parsed YAML/JSON value. A mapping is an
  ordered list of fields, as a Python dict keeps insertion order. The module
  also holds the Python operations the script uses: `in`, `x[k]`,
  `x[k] = v` (`Put`), `for x in ...` and `list.append`. Each operation that
  can raise returns a `Result` whose error is the exception Python would
  raise (`KeyError`, `TypeError` or `AttributeError`); `Put` cannot fail
  and returns the new field list.
- `rewrite.dfy` (module `SchemaRewrite`): `additional_properties` and
  `replace_int_or_string`, as recursive functions. The lemmas say which
  nodes each rewrite changes and how. They also prove that every mapping
  reached from the root through mappings (never through a list) that
  declares `properties` ends up declaring `additionalProperties`, that no
  mapping under a key keeps format `int-or-string` (the root and list
  elements themselves keep theirs, as line 66 rewrites list elements as
  roots), that each
  rewrite is idempotent, and that the second rewrite keeps what the first
  stamped.
- `envelope.dfy` (module `Envelope`): `insert_api_version_kind_and_objectmeta`
  and `append_no_duplicates`, as methods that assign field by field. They
  are proved against what they must set and what they must leave alone. A
  lemma shows that the in-place stamping of the shared ObjectMeta fragment
  changes no output.
- `naming.dfy` (module `Naming`): the default file name
  `{kind}-{group}-{version}`, with the first dot-segment of the group,
  lowercased and with `.json` appended, followed by the `os.path.basename`
  step.
- `plan.dfy` (module `Plan`): the main loop. It skips documents that are not
  CRDs, prefers the legacy `spec.validation.openAPIV3Schema` over
  `spec.versions`, sends each schema through `write_schema_file` (envelope,
  then both rewrites, then the basename), and builds the combined document.
  The loops are methods proved against recursive specification functions
  (`VersionsOutcome`, `DocumentOutcome`, `RunOutcome`). The first exception
  ends the run. By then the files before it have been written, but the
  combined document has not.

Behaviour of the script worth knowing:

- An empty YAML document (null), a boolean or a number is not skipped:
  the membership test for `kind` (line 158) raises `TypeError` on it, and that ends the run
  (`Plan.ScalarDocumentFails`). A document that is a string is a substring
  test instead: it is skipped unless its text contains `kind`, and then
  `y["kind"]` raises `TypeError`. A list is skipped unless it holds the
  string `kind`.
- `in` on a list compares with Python's `==`, under which two dicts with
  the same keys and values are equal whatever the order of their keys
  (`JsonValue.PyEq`).
- Two steps mutate their input in place: `additional_properties` stamps the
  caller's nested mappings (line 43), and the envelope insertion assigns
  into the schema (lines 109-113). `replace_int_or_string` builds new
  mappings and mutates nothing. The model works
  on values and proves the one place where this is visible harmless: the
  ObjectMeta fragment that every schema shares
  (`Envelope.SharedObjectMetaStampIsHarmless`).
- The envelope is inserted before both rewrites (lines 120-122), so the
  envelope nodes are rewritten too.

## Model

| member | source | states |
|---|---|---|
| JsonValue.Lookup | actions/crdjsonschema/openapi2jsonschema.py:160 | a value is found exactly when the mapping has the key |
| JsonValue.LookupFirst | actions/crdjsonschema/openapi2jsonschema.py:160 | the value found is the one in the first field with that key |
| JsonValue.LookupIsFirst | actions/crdjsonschema/openapi2jsonschema.py:160 | conversely, whenever the key is present, the value found sits in the first field with that key |
| JsonValue.Put | actions/crdjsonschema/openapi2jsonschema.py:103 | `d[k] = v` makes `d[k]` be `v` and leaves every other key's value alone; an existing key keeps its place, a new key goes last |
| JsonValue.PyIn | actions/crdjsonschema/openapi2jsonschema.py:158 | `in` tests the keys of a dict (a list or dict value raises TypeError, any other non-string value is absent), the elements of a list with Python's `==`, and substrings of a string (a non-string value raises TypeError); the only exception it raises is TypeError, which null, booleans and numbers always raise |
| JsonValue.PyEqReflexive | actions/crdjsonschema/openapi2jsonschema.py:104 | under Python's `==` every value equals itself, so a value appended to a list is then in it |
| JsonValue.PyInIgnoresKeyOrder | actions/crdjsonschema/openapi2jsonschema.py:104 | a list holding `{"b": 2, "a": 1}` holds `{"a": 1, "b": 2}` |
| JsonValue.PyIndex | actions/crdjsonschema/openapi2jsonschema.py:160 | `x[k]` succeeds exactly on a dict holding `k`, giving its value; otherwise KeyError on a dict and TypeError on anything else |
| JsonValue.PyIter | actions/crdjsonschema/openapi2jsonschema.py:179 | iteration yields a list's elements, a dict's keys in order, or a string's one-character strings in order, and raises TypeError on anything else |
| JsonValue.PyAppend | actions/crdjsonschema/openapi2jsonschema.py:105 | `append` succeeds exactly on a list and adds the value at its end; anything else raises AttributeError |
| SchemaRewrite.Stamp | actions/crdjsonschema/openapi2jsonschema.py:41-43 | a mapping with `properties` and no `additionalProperties` gets `additionalProperties: false` after its own keys, every other key keeping its value; anything else is unchanged |
| SchemaRewrite.AdditionalProperties | actions/crdjsonschema/openapi2jsonschema.py:34-50 | a non-mapping is returned unchanged; a mapping keeps exactly its keys, in order, so the root is never stamped |
| SchemaRewrite.APFields | actions/crdjsonschema/openapi2jsonschema.py:38-47 | the rebuilt mapping has the same keys in the same order |
| SchemaRewrite.APValue | actions/crdjsonschema/openapi2jsonschema.py:39-46 | the rewrite of one value (no contract of its own: APValueIsStampThenRecurse, APValueShape and APValueStamps state what it does) |
| SchemaRewrite.APValueIsStampThenRecurse | actions/crdjsonschema/openapi2jsonschema.py:40-44 | the rewrite of a value equals stamping it first and then recursing, the source's order |
| SchemaRewrite.APValueShape | actions/crdjsonschema/openapi2jsonschema.py:38-47 | a mapping value that needs the stamp gets exactly one new key, `additionalProperties: false`; any other mapping keeps its keys; lists and scalars are unchanged |
| SchemaRewrite.APValueKeepsExisting | actions/crdjsonschema/openapi2jsonschema.py:42-43 | an `additionalProperties` the value already has is not replaced: a non-mapping comes out unchanged, a mapping is rewritten like any other value |
| SchemaRewrite.AdditionalPropertiesStamps | actions/crdjsonschema/openapi2jsonschema.py:40-44 | after the rewrite, every nested mapping reached through mappings (not through lists) that has `properties` has `additionalProperties` |
| SchemaRewrite.APValueStamps | actions/crdjsonschema/openapi2jsonschema.py:40-44 | the same for one rewritten value, itself included |
| SchemaRewrite.AdditionalPropertiesFixpoint | actions/crdjsonschema/openapi2jsonschema.py:40-44 | the rewrite leaves a value unchanged exactly when it is already fully stamped |
| SchemaRewrite.APFieldsFixpoint | actions/crdjsonschema/openapi2jsonschema.py:38-47 | the rebuilt fields equal the old ones exactly when every value in them is fully stamped |
| SchemaRewrite.APValueFixpoint | actions/crdjsonschema/openapi2jsonschema.py:40-46 | one value is unchanged exactly when it is fully stamped |
| SchemaRewrite.AdditionalPropertiesIdempotent | actions/crdjsonschema/openapi2jsonschema.py:34-50 | applying additional_properties twice gives what applying it once gives |
| SchemaRewrite.APValueIdempotent | actions/crdjsonschema/openapi2jsonschema.py:40-44 | the same for one mapping value, which is what a second in-place pass over a shared fragment does |
| SchemaRewrite.ReplaceIntOrString | actions/crdjsonschema/openapi2jsonschema.py:53-72 | a non-mapping is returned unchanged; a mapping keeps exactly its keys, in order, so the root is never replaced |
| SchemaRewrite.RISFields | actions/crdjsonschema/openapi2jsonschema.py:56-69 | the rebuilt mapping has the same keys in the same order |
| SchemaRewrite.RISValue | actions/crdjsonschema/openapi2jsonschema.py:57-68 | the rewrite of one value (no contract of its own: ReplaceIntOrStringShape, RISValueClears and RISValueFixpoint state what it does) |
| SchemaRewrite.ReplaceIntOrStringShape | actions/crdjsonschema/openapi2jsonschema.py:57-69 | under each key of a rewritten mapping, an int-or-string mapping value becomes exactly the `oneOf` of string and integer whatever its other keys; another mapping keeps its keys; a list keeps its length with each element rewritten as a root; a scalar is unchanged |
| SchemaRewrite.IntOrStringSchemaClean | actions/crdjsonschema/openapi2jsonschema.py:60 | the replacement node, placed under a key, neither has format `int-or-string` nor holds a mapping under a key that has it, and is stamped (it has no `properties` needing `additionalProperties`, nor does anything inside it) |
| SchemaRewrite.ReplaceIntOrStringClears | actions/crdjsonschema/openapi2jsonschema.py:58-66 | after the rewrite no mapping under a key has format `int-or-string`; the root and list elements themselves keep their own format, since line 66 rewrites list elements as roots |
| SchemaRewrite.RISValueClears | actions/crdjsonschema/openapi2jsonschema.py:58-66 | the same for one rewritten value |
| SchemaRewrite.RISLookupFormat | actions/crdjsonschema/openapi2jsonschema.py:59 | a rewritten mapping has format `int-or-string` exactly when the original had |
| SchemaRewrite.ReplaceIntOrStringFixpoint | actions/crdjsonschema/openapi2jsonschema.py:58-68 | the rewrite leaves a value unchanged exactly when no mapping under a key in it has format int-or-string |
| SchemaRewrite.RISValueFixpoint | actions/crdjsonschema/openapi2jsonschema.py:58-68 | the same for one value |
| SchemaRewrite.ReplaceIntOrStringIdempotent | actions/crdjsonschema/openapi2jsonschema.py:53-72 | applying replace_int_or_string twice gives what applying it once gives |
| SchemaRewrite.ReplaceIntOrStringKeepsStamps | actions/crdjsonschema/openapi2jsonschema.py:121-122 | replace_int_or_string keeps every stamp that additional_properties put in |
| SchemaRewrite.RISValueKeepsStamps | actions/crdjsonschema/openapi2jsonschema.py:121-122 | the same for one value |
| Envelope.SetEnumAndDefault | actions/crdjsonschema/openapi2jsonschema.py:109-112 | it succeeds exactly on a mapping node, which then has the given `enum` and `default`; otherwise TypeError |
| Envelope.SetEnumAndDefaultSameExcept | actions/crdjsonschema/openapi2jsonschema.py:109-112 | the two assignments change nothing else in the node and move no key |
| Envelope.PutSameExcept | actions/crdjsonschema/openapi2jsonschema.py:113 | one assignment changes only its own key and moves no key |
| Envelope.WithEnvelope | actions/crdjsonschema/openapi2jsonschema.py:109-113 | the five assignments as one expression (no contract of its own: WithEnvelopeFails and WithEnvelopeSets state what it does) |
| Envelope.WithEnvelopeFails | actions/crdjsonschema/openapi2jsonschema.py:108-114 | the insertion succeeds exactly when `properties`, `properties.apiVersion` and `properties.kind` are mappings; a mapping without `properties` raises KeyError |
| Envelope.WithEnvelopeSets | actions/crdjsonschema/openapi2jsonschema.py:108-114 | on success `enum` and `default` hold the API version and the kind, `metadata` is the fragment, and nothing else changes at any of the three levels |
| Envelope.InsertApiVersionKindAndObjectMeta | actions/crdjsonschema/openapi2jsonschema.py:108-114 | the assignments, in order: success exactly when the three nodes are mappings, KeyError without `properties`, the five values set and nothing else changed |
| Envelope.EnvelopePropsChanged | actions/crdjsonschema/openapi2jsonschema.py:109-113 | the three assignments into `properties` set `apiVersion`, `kind` and `metadata` and change nothing else |
| Envelope.AppendNoDuplicates | actions/crdjsonschema/openapi2jsonschema.py:97-106 | the list under the key (a new empty one if missing) gets the value appended unless it already holds an element `==` to it; afterwards it holds the value, keeps its earlier elements in place and has grown by at most one; every other key keeps its value; a non-list raises exactly when Python's `in` does not answer true |
| Envelope.APFieldsPut | actions/crdjsonschema/openapi2jsonschema.py:47 | rewriting after an assignment equals assigning the rewritten value |
| Envelope.MetadataStampIsHarmless | actions/crdjsonschema/openapi2jsonschema.py:113 | rewriting `properties` with an already rewritten `metadata` gives the same as with the original |
| Envelope.EnvelopedStampIsHarmless | actions/crdjsonschema/openapi2jsonschema.py:120-121 | the same one level up, for the whole schema |
| Envelope.SharedObjectMetaStampIsHarmless | actions/crdjsonschema/openapi2jsonschema.py:113-121 | a schema enveloped with the ObjectMeta fragment as an earlier run left it rewrites to the same output as with the original fragment |
| Naming.Lower | actions/crdjsonschema/openapi2jsonschema.py:172 | `lower()` keeps the length, leaves no upper-case letter, and changes exactly the upper-case letters |
| Naming.LowerIdempotent | actions/crdjsonschema/openapi2jsonschema.py:172 | lowercasing twice is lowercasing once |
| Naming.FirstSegment | actions/crdjsonschema/openapi2jsonschema.py:170 | `split(".")[0]` is the longest prefix without a dot |
| Naming.DefaultFilename | actions/crdjsonschema/openapi2jsonschema.py:168-172 | the default name (no contract of its own: WrittenNameShape and DefaultFilenameExample state what it gives) |
| Naming.Basename | actions/crdjsonschema/openapi2jsonschema.py:126 | the basename has no `/` and is the suffix after the last `/` |
| Naming.BasenameKeepsSuffix | actions/crdjsonschema/openapi2jsonschema.py:126 | a suffix without `/` survives the basename step |
| Naming.BasenameNoUpper | actions/crdjsonschema/openapi2jsonschema.py:126 | a name without upper-case letters keeps none after the basename step |
| Naming.WrittenNameShape | actions/crdjsonschema/openapi2jsonschema.py:126-172 | every written name has no `/`, no upper-case letter, and ends in `.json` |
| Naming.DefaultFilenameExample | actions/crdjsonschema/openapi2jsonschema.py:168-172 | kind Foo, group bar.example.com, version v1 give `foo-bar-v1.json` |
| Naming.FirstSegmentExample | actions/crdjsonschema/openapi2jsonschema.py:170 | the first segment of `bar.example.com` is `bar` |
| Naming.LowerExample | actions/crdjsonschema/openapi2jsonschema.py:172 | `Foo-bar-v1` lowercases to `foo-bar-v1` |
| Plan.TextOf | actions/crdjsonschema/openapi2jsonschema.py:166-188 | a string gives its text and anything else raises the given exception: AttributeError for the group, which has no `split` (lines 170 and 184), TypeError for the version and the entry's `name`, which are concatenated to a string (lines 174 and 188), and TypeError for the kind (see Left out) |
| Plan.Filename | actions/crdjsonschema/openapi2jsonschema.py:168-172 | the default file name of a resource (no contract of its own: WrittenNameShape) |
| Plan.ApiVersion | actions/crdjsonschema/openapi2jsonschema.py:174 | `group + "/" + version` (no contract of its own) |
| Plan.LegacyForm | actions/crdjsonschema/openapi2jsonschema.py:165 | the legacy-form test, each `in` and subscript as Python evaluates it (no contract of its own: LegacyTargetFound, VersionsDocumentPlan) |
| Plan.VersionsForm | actions/crdjsonschema/openapi2jsonschema.py:178 | the versions-form test (no contract of its own: VersionsDocumentPlan) |
| Plan.VersionEntries | actions/crdjsonschema/openapi2jsonschema.py:179 | what the versions loop iterates over (no contract of its own: VersionsDocumentPlan) |
| Plan.LegacyTarget | actions/crdjsonschema/openapi2jsonschema.py:166-175 | the legacy lookups in source order (no contract of its own: LegacyTargetFound) |
| Plan.VersionTarget | actions/crdjsonschema/openapi2jsonschema.py:180-189 | one entry's lookups in source order (no contract of its own: VersionStepPlanned) |
| Plan.IsCrdDocument | actions/crdjsonschema/openapi2jsonschema.py:158-161 | a mapping is a CRD exactly when its `kind` is `CustomResourceDefinition`; null, booleans and numbers raise TypeError; a string document is skipped unless `kind` is a substring of it, and a list document unless it holds the string `kind`, and otherwise `y["kind"]` raises TypeError |
| Plan.SchemaFile | actions/crdjsonschema/openapi2jsonschema.py:117-131 | write_schema_file succeeds exactly when the schema is ready for the envelope, and names the file by the basename |
| Plan.SchemaFileRewritten | actions/crdjsonschema/openapi2jsonschema.py:120-122 | every written schema is fully stamped, and no mapping under a key in it (the root and list elements themselves excepted) has format int-or-string |
| Plan.WriteSchemaFile | actions/crdjsonschema/openapi2jsonschema.py:117-131 | the steps in order give the specified output: success exactly when the envelope fits, a name without `/`, a stamped schema in which no mapping under a key has format int-or-string |
| Plan.Schemas | actions/crdjsonschema/openapi2jsonschema.py:177-191 | the `oneOf` entries are the written schemas, one each, in order |
| Plan.VersionsOutcome | actions/crdjsonschema/openapi2jsonschema.py:179-191 | the versions loop as a specification (no contract of its own: VersionsOutcomePlanned, VersionsFailureStops, VersionsOutcomeWellShaped) |
| Plan.DocumentOutcome | actions/crdjsonschema/openapi2jsonschema.py:158-191 | one document as a specification (no contract of its own: NonCrdDocumentsYieldNothing, ScalarDocumentFails, LegacyDocumentPlan, VersionsDocumentPlan) |
| Plan.RunOutcome | actions/crdjsonschema/openapi2jsonschema.py:151-191 | the whole run as a specification (no contract of its own: RunFailureStops, RunOutputsWellShaped) |
| Plan.AllSchemas | actions/crdjsonschema/openapi2jsonschema.py:194-199 | the combined document (no contract of its own: Run) |
| Plan.VersionsFailureStops | actions/crdjsonschema/openapi2jsonschema.py:179-191 | after an entry raises, later entries change nothing |
| Plan.RunFailureStops | actions/crdjsonschema/openapi2jsonschema.py:151-191 | after a document raises, later documents change nothing |
| Plan.ConvertDocument | actions/crdjsonschema/openapi2jsonschema.py:157-191 | one document's files and exception are exactly those the specification of lines 158-191 gives |
| Plan.WriteVersion | actions/crdjsonschema/openapi2jsonschema.py:190-191 | an entry's schema, if any, goes through write_schema_file |
| Plan.ConvertVersions | actions/crdjsonschema/openapi2jsonschema.py:179-191 | the loop over `spec.versions` gives exactly the specified files, in order, stopping at the first exception |
| Plan.Run | actions/crdjsonschema/openapi2jsonschema.py:145-199 | the run writes the specified files in order; the combined document exists exactly when nothing raised, and its `oneOf` lists the written schemas in the order written |
| Plan.NonCrdDocumentsYieldNothing | actions/crdjsonschema/openapi2jsonschema.py:158-161 | a mapping without `kind: CustomResourceDefinition` yields no file and no exception |
| Plan.ScalarDocumentFails | actions/crdjsonschema/openapi2jsonschema.py:158 | a null, boolean or number document raises TypeError |
| Plan.LegacyTargetFound | actions/crdjsonschema/openapi2jsonschema.py:165-175 | a legacy CRD is a CRD in the legacy form, and its schema and resource are those under `spec` |
| Plan.LegacyDocumentPlan | actions/crdjsonschema/openapi2jsonschema.py:165-177 | a legacy CRD yields exactly one file, whatever `spec.versions` holds, and fails exactly when its schema lacks the envelope nodes |
| Plan.VersionStepPlanned | actions/crdjsonschema/openapi2jsonschema.py:180-191 | in a versions-form CRD (no `spec.validation`, or one without `openAPIV3Schema`), a well-formed entry yields no file without a schema, and otherwise the expected file named after the entry's `name` |
| Plan.VersionsOutcomePlanned | actions/crdjsonschema/openapi2jsonschema.py:179-191 | for a versions-form CRD (no `spec.validation`, or one without `openAPIV3Schema`), well-formed entries yield one file per entry with a schema, in order, and no exception |
| Plan.VersionsDocumentPlan | actions/crdjsonschema/openapi2jsonschema.py:178-191 | a versions-form CRD (no `spec.validation`, or one without `openAPIV3Schema`) with well-formed entries yields one file per entry with a schema, in entry order |
| Plan.TargetFileWellShaped | actions/crdjsonschema/openapi2jsonschema.py:117-131 | a written file has a lower-case `.json` name without `/` and a stamped schema in which no mapping under a key has format int-or-string |
| Plan.WriteStepWellShaped | actions/crdjsonschema/openapi2jsonschema.py:190 | the same for the file an entry yields |
| Plan.VersionsOutcomeWellShaped | actions/crdjsonschema/openapi2jsonschema.py:179-191 | the same for every file of the versions loop |
| Plan.LegacyOutcomeWellShaped | actions/crdjsonschema/openapi2jsonschema.py:176 | the same for the legacy file |
| Plan.DocumentOutcomeWellShaped | actions/crdjsonschema/openapi2jsonschema.py:158-191 | the same for every file of one document |
| Plan.RunOutputsWellShaped | actions/crdjsonschema/openapi2jsonschema.py:151-191 | every file a run writes, and so every `oneOf` entry, has that shape, whatever the input |

## Left out

- Reading the CRD sources, fetching URLs, YAML parsing, `json.dumps`, writing files and `print` (lines 141-157, 123-130, 201-207) are not modelled. Documents arrive as parsed values in source order. The ObjectMeta fragment is a parameter. The written files and the combined document are returned.
- The `FILENAME_FORMAT` environment variable (line 163) is not modelled: only its default template `{kind}-{group}-{version}` is.
- `allow_null_optional_fields` (lines 75-94) is not modelled. Nothing calls it, and line 89 names an undefined variable.
- `iteritems` (lines 27-31) is modelled as plain ordered iteration over a mapping. The `len(sys.argv) == 0` guard (line 134) can never fire.
- Plan.TextOf: a `kind` that is not a string raises TypeError in the model. Python would instead format it with `str()` into the file name, and that text form is not modelled.
- Naming.Lower: only ASCII letters are lowercased; Unicode case mapping is not modelled.
- Numbers are opaque integers, so floating point is not modelled.
- JsonValue.PyEq: `True == 1` and `1 == 1.0` are not modelled; a boolean and a number are never equal here.
- YAML anchors and aliases, which can make two schemas share one mapping, are not modelled. Values are trees.
- Updates in place are modelled on values. Each dict assignment produces the new mapping. Aliasing is reasoned about only for the shared ObjectMeta fragment (`Envelope.SharedObjectMetaStampIsHarmless`).
- Envelope.AppendNoDuplicates: `obj` is taken to be a mapping. Nothing in the script calls the function.
- oci/client/push_pull_test.go is not part of this model: it is a registry integration test with no logic of its own.
