/** The main loop of the converter: which documents are CRDs, where their
    schemas are, under which name each schema is written, and the combined
    `oneOf` document. Documents arrive already parsed, in the order the
    sources and the documents within them were given. */
module Plan {
  import opened JsonValue
  import opened SchemaRewrite
  import opened Envelope
  import opened Naming

  /** What identifies a produced schema. */
  datatype Resource = Resource(kind: string, group: string, version: string)

  /** A schema found in a CRD, with the resource it belongs to. */
  datatype Target = Target(resource: Resource, schema: Json)

  /** One written file: its name (after the basename step) and its content. */
  datatype Output = Output(filename: string, schema: Json)

  /** How far processing got: the files written, in order, and the
      exception that stopped it, if one did. */
  datatype Outcome = Outcome(written: seq<Output>, failure: Option<Error>)

  /** The default FILENAME_FORMAT, `{kind}-{group}-{version}`, lowercased,
      with `.json` appended; the group contributes its first dot-segment. */
  function Filename(r: Resource): string {
    DefaultFilename(r.kind, r.group, r.version)
  }

  /** Lines 174 and 188: the group, a slash, then the version. */
  function ApiVersion(r: Resource): string {
    r.group + "/" + r.version
  }

  // ---------------------------------------------------------------------------
  // Values that must be strings

  /** The text of a value the converter uses as a string, or the exception
      Python raises when it is not one: the group is split on dots (line 170),
      so anything else has no `split` and raises AttributeError; the version
      and the entry's `name` are concatenated to a string (lines 174 and 188),
      so anything else raises TypeError. A kind that is not a string is taken
      to raise TypeError as well, where Python would format it with `str()`. */
  function TextOf(v: Json, error: Error): (r: Result<string>)
    ensures r.Ok? <==> v.JStr?
    ensures r.Ok? ==> r.value == v.s
    ensures r.Err? ==> r.error == error
  {
    if v.JStr? then Ok(v.s) else Err(error)
  }

  // ---------------------------------------------------------------------------
  // The tests and lookups of the main loop

  /** Lines 158-161: a document is converted only when it has a `kind`
      equal to CustomResourceDefinition; the membership test comes first
      and can raise. */
  function IsCrdDocument(y: Json): (r: Result<bool>)
    ensures y.JObj? ==> r == Ok(Child(y, "kind") == Some(JStr("CustomResourceDefinition")))
    ensures y.JNull? || y.JBool? || y.JNum? ==> r == Err(TypeError)
    ensures y.JStr? ==> r == (if IsSubstring("kind", y.s) then Err(TypeError) else Ok(false))
    ensures y.JArr? ==> r == (if PyContains(y.items, JStr("kind")) then Err(TypeError) else Ok(false))
  {
    var hasKind :- PyIn(JStr("kind"), y);
    if !hasKind then Ok(false)
    else
      var kind :- PyIndex(y, "kind");
      Ok(kind == JStr("CustomResourceDefinition"))
  }

  /** Line 165: `in` tests for `spec`, then `validation` under it, then
      `openAPIV3Schema` under that, each evaluated only when the one before
      answered true. */
  function LegacyForm(y: Json): Result<bool> {
    var hasSpec :- PyIn(JStr("spec"), y);
    if !hasSpec then Ok(false)
    else
      var spec :- PyIndex(y, "spec");
      var hasValidation :- PyIn(JStr("validation"), spec);
      if !hasValidation then Ok(false)
      else
        var validation :- PyIndex(spec, "validation");
        PyIn(JStr("openAPIV3Schema"), validation)
  }

  /** Line 178: `in` tests for `spec`, then `versions` under it. */
  function VersionsForm(y: Json): Result<bool> {
    var hasSpec :- PyIn(JStr("spec"), y);
    if !hasSpec then Ok(false)
    else
      var spec :- PyIndex(y, "spec");
      PyIn(JStr("versions"), spec)
  }

  /** Line 179: the items the loop visits, taken from `spec.versions`. */
  function VersionEntries(y: Json): Result<seq<Json>> {
    var spec :- PyIndex(y, "spec");
    var versions :- PyIndex(spec, "versions");
    PyIter(versions)
  }

  /** Lines 166-175: the legacy schema and its resource, looked up in the
      order the source evaluates them. */
  function LegacyTarget(y: Json): Result<Target> {
    var spec :- PyIndex(y, "spec");
    var names :- PyIndex(spec, "names");
    var kindValue :- PyIndex(names, "kind");
    var versionValue :- PyIndex(spec, "version");
    var groupValue :- PyIndex(spec, "group");
    var group :- TextOf(groupValue, AttributeError);
    var kind :- TextOf(kindValue, TypeError);
    var version :- TextOf(versionValue, TypeError);
    var validation :- PyIndex(spec, "validation");
    var schema :- PyIndex(validation, "openAPIV3Schema");
    Ok(Target(Resource(kind, group, version), schema))
  }

  /** Lines 180-189 for one entry of `spec.versions`: nothing when the entry
      carries no `schema.openAPIV3Schema`, otherwise its schema and
      resource. */
  function VersionTarget(y: Json, entry: Json): Result<Option<Target>> {
    var hasSchema :- PyIn(JStr("schema"), entry);
    if !hasSchema then Ok(None)
    else
      var schemaNode :- PyIndex(entry, "schema");
      var hasOpenAPI :- PyIn(JStr("openAPIV3Schema"), schemaNode);
      if !hasOpenAPI then Ok(None)
      else
        var spec :- PyIndex(y, "spec");
        var names :- PyIndex(spec, "names");
        var kindValue :- PyIndex(names, "kind");
        var groupValue :- PyIndex(spec, "group");
        var group :- TextOf(groupValue, AttributeError);
        var nameValue :- PyIndex(entry, "name");
        var kind :- TextOf(kindValue, TypeError);
        var name :- TextOf(nameValue, TypeError);
        var schema :- PyIndex(schemaNode, "openAPIV3Schema");
        Ok(Some(Target(Resource(kind, group, name), schema)))
  }

  // ---------------------------------------------------------------------------
  // write_schema_file

  /** `write_schema_file` without the file write: envelope, then
      additional_properties, then replace_int_or_string, and the file name
      cut down to its basename. */
  function SchemaFile(schema: Json, apiVersion: string, kind: string, objectMeta: Json, filename: string)
    : (r: Result<Output>)
    ensures r.Ok? <==> EnvelopeReady(schema)
    ensures r.Ok? ==> r.value.filename == Basename(filename)
  {
    WithEnvelopeFails(schema, apiVersion, JStr(kind), objectMeta);
    var enveloped :- WithEnvelope(schema, apiVersion, JStr(kind), objectMeta);
    Ok(Output(Basename(filename), ReplaceIntOrString(AdditionalProperties(enveloped))))
  }

  /** In every schema written, each mapping reached from the root through
      mappings (never through a list) that declares `properties` also
      declares `additionalProperties`, and no mapping under a key (the root and
      list elements themselves excepted) has format `int-or-string`, whatever
      the input schema held. */
  lemma SchemaFileRewritten(schema: Json, apiVersion: string, kind: string, objectMeta: Json, filename: string)
    ensures var r := SchemaFile(schema, apiVersion, kind, objectMeta, filename);
      r.Ok? ==> Stamped(r.value.schema) && NoIntOrString(r.value.schema)
  {
    var enveloped := WithEnvelope(schema, apiVersion, JStr(kind), objectMeta);
    if enveloped.Ok? {
      var stamped := AdditionalProperties(enveloped.value);
      AdditionalPropertiesStamps(enveloped.value);
      ReplaceIntOrStringKeepsStamps(stamped);
      ReplaceIntOrStringClears(stamped);
    }
  }

  /** `write_schema_file` (lines 117-131), step by step: the schema it writes (and returns) is the enveloped
      schema put through both rewrites, under the basename of `filename`. */
  method WriteSchemaFile(schema: Json, apiVersion: string, kind: string, objectMeta: Json, filename: string)
    returns (r: Result<Output>)
    ensures r == SchemaFile(schema, apiVersion, kind, objectMeta, filename)
    ensures r.Ok? <==> EnvelopeReady(schema)
    ensures r.Ok? ==> '/' !in r.value.filename
    ensures r.Ok? ==> Stamped(r.value.schema) && NoIntOrString(r.value.schema)
  {
    var enveloped :- InsertApiVersionKindAndObjectMeta(schema, apiVersion, JStr(kind), objectMeta);
    var rewritten := AdditionalProperties(enveloped);
    rewritten := ReplaceIntOrString(rewritten);
    // line 126: only the last path component of the name is kept
    var name := Basename(filename);
    r := Ok(Output(name, rewritten));
    SchemaFileRewritten(schema, apiVersion, kind, objectMeta, filename);
  }

  /** The file written for a target. */
  function TargetFile(t: Target, objectMeta: Json): Result<Output> {
    SchemaFile(t.schema, ApiVersion(t.resource), t.resource.kind, objectMeta, Filename(t.resource))
  }

  // ---------------------------------------------------------------------------
  // Specification of the loops

  /** One entry of `spec.versions`: no file, one file, or an exception. */
  function VersionStep(y: Json, entry: Json, objectMeta: Json): Result<Option<Output>> {
    WriteStep(VersionTarget(y, entry), objectMeta)
  }

  /** Lines 190-191 for what lines 180-189 found. */
  function WriteStep(target: Result<Option<Target>>, objectMeta: Json): Result<Option<Output>> {
    match target
    case Err(e) => Err(e)
    case Ok(None) => Ok(None)
    case Ok(Some(t)) =>
      match TargetFile(t, objectMeta)
      case Err(e) => Err(e)
      case Ok(out) => Ok(Some(out))
  }

  /** The loop of lines 179-191 over the first |entries| entries. */
  function VersionsOutcome(y: Json, entries: seq<Json>, objectMeta: Json): Outcome
    decreases |entries|
  {
    if entries == [] then Outcome([], None)
    else
      var before := VersionsOutcome(y, entries[..|entries| - 1], objectMeta);
      if before.failure.Some? then before
      else
        match VersionStep(y, entries[|entries| - 1], objectMeta)
        case Err(e) => Outcome(before.written, Some(e))
        case Ok(None) => before
        case Ok(Some(out)) => Outcome(before.written + [out], None)
  }

  function Failed(e: Error): Outcome {
    Outcome([], Some(e))
  }

  /** Lines 176-177 for what lines 166-175 found: one file, or the exception. */
  function LegacyOutcome(target: Result<Target>, objectMeta: Json): Outcome {
    match target
    case Err(e) => Failed(e)
    case Ok(t) =>
      match TargetFile(t, objectMeta)
      case Err(e) => Failed(e)
      case Ok(out) => Outcome([out], None)
  }

  /** The body of the document loop, lines 158-191. */
  function DocumentOutcome(y: Json, objectMeta: Json): Outcome {
    match IsCrdDocument(y)
    case Err(e) => Failed(e)
    case Ok(false) => Outcome([], None)
    case Ok(true) =>
      match LegacyForm(y)
      case Err(e) => Failed(e)
      case Ok(true) => LegacyOutcome(LegacyTarget(y), objectMeta)
      case Ok(false) =>
        match VersionsForm(y)
        case Err(e) => Failed(e)
        case Ok(false) => Outcome([], None)
        case Ok(true) =>
          match VersionEntries(y)
          case Err(e) => Failed(e)
          case Ok(entries) => VersionsOutcome(y, entries, objectMeta)
  }

  /** All documents in order; the first exception ends the run. */
  function RunOutcome(docs: seq<Json>, objectMeta: Json): Outcome
    decreases |docs|
  {
    if docs == [] then Outcome([], None)
    else
      var before := RunOutcome(docs[..|docs| - 1], objectMeta);
      if before.failure.Some? then before
      else
        var last := DocumentOutcome(docs[|docs| - 1], objectMeta);
        Outcome(before.written + last.written, last.failure)
  }

  function Schemas(outs: seq<Output>): (r: seq<Json>)
    ensures |r| == |outs|
    ensures forall i :: 0 <= i < |outs| ==> r[i] == outs[i].schema
  {
    seq(|outs|, i requires 0 <= i < |outs| => outs[i].schema)
  }

  lemma SchemasAppend(a: seq<Output>, b: seq<Output>)
    ensures Schemas(a + b) == Schemas(a) + Schemas(b)
  {
  }

  /** Lines 194-199: the combined document. */
  function AllSchemas(oneOf: seq<Json>): Json {
    JObj([
      ("description", JStr("Auto-generated CRD JSON schema for Flux")),
      ("title", JStr("Flux CRD JSON schemas")),
      ("$schema", JStr("http://json-schema.org/draft-04/schema#")),
      ("oneOf", JArr(oneOf))
    ])
  }

  /** Once a prefix of the versions has failed, later entries change nothing. */
  lemma {:induction false} VersionsFailureStops(y: Json, entries: seq<Json>, n: nat, objectMeta: Json)
    requires n <= |entries|
    requires VersionsOutcome(y, entries[..n], objectMeta).failure.Some?
    ensures VersionsOutcome(y, entries, objectMeta) == VersionsOutcome(y, entries[..n], objectMeta)
    decreases |entries|
  {
    if n < |entries| {
      var shorter := entries[..|entries| - 1];
      assert shorter[..n] == entries[..n];
      VersionsFailureStops(y, shorter, n, objectMeta);
    } else {
      assert entries[..n] == entries;
    }
  }

  /** Once a prefix of the documents has failed, later documents change nothing. */
  lemma {:induction false} RunFailureStops(docs: seq<Json>, n: nat, objectMeta: Json)
    requires n <= |docs|
    requires RunOutcome(docs[..n], objectMeta).failure.Some?
    ensures RunOutcome(docs, objectMeta) == RunOutcome(docs[..n], objectMeta)
    decreases |docs|
  {
    if n < |docs| {
      var shorter := docs[..|docs| - 1];
      assert shorter[..n] == docs[..n];
      RunFailureStops(shorter, n, objectMeta);
    } else {
      assert docs[..n] == docs;
    }
  }

  /** One more entry after a prefix of the versions that did not fail. */
  lemma VersionsStep(y: Json, versions: seq<Json>, i: nat, objectMeta: Json, written: seq<Output>,
                     step: Result<Option<Output>>)
    requires i < |versions|
    requires VersionsOutcome(y, versions[..i], objectMeta) == Outcome(written, None)
    requires step == VersionStep(y, versions[i], objectMeta)
    ensures step.Err? ==> VersionsOutcome(y, versions[..i + 1], objectMeta) == Outcome(written, Some(step.error))
    ensures step == Ok(None) ==> VersionsOutcome(y, versions[..i + 1], objectMeta) == Outcome(written, None)
    ensures step.Ok? && step.value.Some? ==>
      VersionsOutcome(y, versions[..i + 1], objectMeta) == Outcome(written + [step.value.value], None)
  {
    assert versions[..i + 1][..i] == versions[..i];
  }

  /** One more document after a prefix that did not fail. */
  lemma RunStep(docs: seq<Json>, i: nat, objectMeta: Json, written: seq<Output>, last: Outcome)
    requires i < |docs|
    requires RunOutcome(docs[..i], objectMeta) == Outcome(written, None)
    requires last == DocumentOutcome(docs[i], objectMeta)
    ensures RunOutcome(docs[..i + 1], objectMeta) == Outcome(written + last.written, last.failure)
  {
    assert docs[..i + 1][..i] == docs[..i];
  }

  // ---------------------------------------------------------------------------
  // The loops

  /** One parsed document: the files it produces, in order, and the
      exception that stopped it, if any. */
  method ConvertDocument(y: Json, objectMeta: Json) returns (written: seq<Output>, failure: Option<Error>)
    ensures Outcome(written, failure) == DocumentOutcome(y, objectMeta)
  {
    written := [];
    var isCrd := IsCrdDocument(y);
    if isCrd.Err? {
      return [], Some(isCrd.error);
    }
    if !isCrd.value {
      return [], None;
    }
    var legacy := LegacyForm(y);
    if legacy.Err? {
      return [], Some(legacy.error);
    }
    if legacy.value {
      var target := LegacyTarget(y);
      if target.Err? {
        return [], Some(target.error);
      }
      var t := target.value;
      var out := WriteSchemaFile(t.schema, ApiVersion(t.resource), t.resource.kind, objectMeta, Filename(t.resource));
      if out.Err? {
        return [], Some(out.error);
      }
      return [out.value], None;
    }
    var modern := VersionsForm(y);
    if modern.Err? {
      return [], Some(modern.error);
    }
    if !modern.value {
      return [], None;
    }
    var entries := VersionEntries(y);
    if entries.Err? {
      return [], Some(entries.error);
    }
    written, failure := ConvertVersions(y, entries.value, objectMeta);
  }

  /** Lines 190-191: the schema an entry carries, if any, goes through
      write_schema_file. */
  method WriteVersion(target: Result<Option<Target>>, objectMeta: Json) returns (step: Result<Option<Output>>)
    ensures step == WriteStep(target, objectMeta)
  {
    match target
    case Err(e) =>
      step := Err(e);
    case Ok(None) =>
      step := Ok(None);
    case Ok(Some(t)) =>
      var out := WriteSchemaFile(t.schema, ApiVersion(t.resource), t.resource.kind, objectMeta, Filename(t.resource));
      match out
      case Err(e) =>
        step := Err(e);
      case Ok(written) =>
        step := Ok(Some(written));
  }

  /** The loop over `spec.versions` (lines 179-191): one file per entry that
      carries a schema, in order, until an entry raises. */
  method ConvertVersions(y: Json, versions: seq<Json>, objectMeta: Json)
    returns (written: seq<Output>, failure: Option<Error>)
    ensures Outcome(written, failure) == VersionsOutcome(y, versions, objectMeta)
  {
    written := [];
    var i := 0;
    while i < |versions|
      invariant 0 <= i <= |versions|
      invariant VersionsOutcome(y, versions[..i], objectMeta) == Outcome(written, None)
    {
      var step := WriteVersion(VersionTarget(y, versions[i]), objectMeta);
      VersionsStep(y, versions, i, objectMeta, written, step);
      if step.Err? {
        VersionsFailureStops(y, versions, i + 1, objectMeta);
        return written, Some(step.error);
      }
      if step.value.Some? {
        // lines 177 and 191: the written schema joins the `oneOf` list
        written := written + [step.value.value];
      }
      i := i + 1;
    }
    assert versions[..i] == versions;
    failure := None;
  }

  /** The whole run: the files written, in order, and either the combined
      document, whose `oneOf` lists every written schema in the order written,
      or the exception that stopped the run before it was written. */
  method Run(docs: seq<Json>, objectMeta: Json) returns (written: seq<Output>, combined: Result<Json>)
    ensures written == RunOutcome(docs, objectMeta).written
    ensures combined.Err? <==> RunOutcome(docs, objectMeta).failure.Some?
    ensures combined.Err? ==> Some(combined.error) == RunOutcome(docs, objectMeta).failure
    ensures combined.Ok? ==> combined.value == AllSchemas(Schemas(written))
  {
    var oneOf: seq<Json> := [];
    written := [];
    var i := 0;
    while i < |docs|
      invariant 0 <= i <= |docs|
      invariant RunOutcome(docs[..i], objectMeta) == Outcome(written, None)
      invariant oneOf == Schemas(written)
    {
      var docWritten, failure := ConvertDocument(docs[i], objectMeta);
      RunStep(docs, i, objectMeta, written, Outcome(docWritten, failure));
      SchemasAppend(written, docWritten);
      written := written + docWritten;
      oneOf := oneOf + Schemas(docWritten);
      if failure.Some? {
        RunFailureStops(docs, i + 1, objectMeta);
        return written, Err(failure.value);
      }
      i := i + 1;
    }
    assert docs[..i] == docs;
    combined := Ok(AllSchemas(oneOf));
  }

  // ---------------------------------------------------------------------------
  // What a run produces

  /** The file a schema is written to when the envelope insertion succeeds,
      which SchemaFile's contract guarantees for a schema ready for it. */
  function ExpectedFile(r: Resource, schema: Json, objectMeta: Json): Output
    requires EnvelopeReady(schema)
  {
    TargetFile(Target(r, schema), objectMeta).value
  }

  /** A document whose `kind` is absent or is not `CustomResourceDefinition`
      produces no file and raises nothing. */
  lemma NonCrdDocumentsYieldNothing(y: Json, objectMeta: Json)
    requires y.JObj?
    requires Child(y, "kind") != Some(JStr("CustomResourceDefinition"))
    ensures DocumentOutcome(y, objectMeta) == Outcome([], None)
  {
  }

  /** An empty YAML document (null) or a bare scalar stops the run: the
      membership test for `kind` on line 158 raises TypeError on it. */
  lemma ScalarDocumentFails(y: Json, objectMeta: Json)
    requires y.JNull? || y.JBool? || y.JNum?
    ensures DocumentOutcome(y, objectMeta) == Failed(TypeError)
  {
  }

  /** A CRD in the legacy form: `spec.validation.openAPIV3Schema` holds the
      schema, and kind, group and version are strings. */
  predicate LegacyCrd(y: Json, r: Resource, schema: Json) {
    Child(y, "kind") == Some(JStr("CustomResourceDefinition")) &&
    HasObjectChild(y, "spec") &&
    var spec := Child(y, "spec").value;
    HasObjectChild(spec, "names") &&
    Child(Child(spec, "names").value, "kind") == Some(JStr(r.kind)) &&
    Child(spec, "group") == Some(JStr(r.group)) &&
    Child(spec, "version") == Some(JStr(r.version)) &&
    HasObjectChild(spec, "validation") &&
    Child(Child(spec, "validation").value, "openAPIV3Schema") == Some(schema)
  }

  lemma LegacyTargetFound(y: Json, r: Resource, schema: Json)
    requires LegacyCrd(y, r, schema)
    ensures IsCrdDocument(y) == Ok(true)
    ensures LegacyForm(y) == Ok(true)
    ensures LegacyTarget(y) == Ok(Target(r, schema))
  {
  }

  /** A legacy CRD yields exactly one file, whatever `spec.versions` holds:
      the schema with the envelope for `group/version`, put through both
      rewrites, under the default name. It fails exactly when the schema
      lacks the envelope properties, and then writes nothing. */
  lemma LegacyDocumentPlan(y: Json, r: Resource, schema: Json, objectMeta: Json)
    requires LegacyCrd(y, r, schema)
    ensures var out := DocumentOutcome(y, objectMeta);
      (out.failure.None? <==> EnvelopeReady(schema)) &&
      (out.failure.Some? ==> out.written == []) &&
      (EnvelopeReady(schema) ==> out.written == [ExpectedFile(r, schema, objectMeta)])
  {
    LegacyTargetFound(y, r, schema);
  }

  /** A CRD in the versions form, with string kind and group: `spec` has no
      `validation`, or a `validation` mapping without `openAPIV3Schema`
      (line 165 then falls through to line 178). */
  predicate VersionsCrd(y: Json, kind: string, group: string, entries: seq<Json>) {
    Child(y, "kind") == Some(JStr("CustomResourceDefinition")) &&
    HasObjectChild(y, "spec") &&
    var spec := Child(y, "spec").value;
    (!Has(spec.fields, "validation") ||
     (HasObjectChild(spec, "validation") &&
      !Has(Child(spec, "validation").value.fields, "openAPIV3Schema"))) &&
    HasObjectChild(spec, "names") &&
    Child(Child(spec, "names").value, "kind") == Some(JStr(kind)) &&
    Child(spec, "group") == Some(JStr(group)) &&
    Child(spec, "versions") == Some(JArr(entries))
  }

  /** An entry of `spec.versions` that carries `schema.openAPIV3Schema`. */
  predicate CarriesSchema(e: Json) {
    HasObjectChild(e, "schema") && Child(Child(e, "schema").value, "openAPIV3Schema").Some?
  }

  function EntrySchema(e: Json): Json
    requires CarriesSchema(e)
  {
    Child(Child(e, "schema").value, "openAPIV3Schema").value
  }

  /** An entry the loop handles without an exception: a mapping whose
      `schema`, if any, is a mapping, and which, when it carries a schema,
      has a string `name` and a schema ready for the envelope. */
  predicate GoodEntry(e: Json) {
    e.JObj? &&
    (Has(e.fields, "schema") ==> HasObjectChild(e, "schema")) &&
    (CarriesSchema(e) ==>
       Child(e, "name").Some? && Child(e, "name").value.JStr? && EnvelopeReady(EntrySchema(e)))
  }

  /** The files the versions loop is meant to write: one per entry that
      carries a schema, in the order of the entries. */
  function PlannedFiles(kind: string, group: string, entries: seq<Json>, objectMeta: Json): seq<Output>
    requires forall i :: 0 <= i < |entries| ==> GoodEntry(entries[i])
    decreases |entries|
  {
    if entries == [] then []
    else
      var last := entries[|entries| - 1];
      assert GoodEntry(last);
      var before := PlannedFiles(kind, group, entries[..|entries| - 1], objectMeta);
      if CarriesSchema(last) then
        before + [ExpectedFile(Resource(kind, group, Child(last, "name").value.s), EntrySchema(last), objectMeta)]
      else before
  }

  lemma VersionStepPlanned(y: Json, kind: string, group: string, entries: seq<Json>, e: Json, objectMeta: Json)
    requires VersionsCrd(y, kind, group, entries)
    requires GoodEntry(e)
    ensures !CarriesSchema(e) ==> VersionStep(y, e, objectMeta) == Ok(None)
    ensures CarriesSchema(e) ==>
      VersionStep(y, e, objectMeta) ==
        Ok(Some(ExpectedFile(Resource(kind, group, Child(e, "name").value.s), EntrySchema(e), objectMeta)))
  {
    if CarriesSchema(e) {
      var t := Target(Resource(kind, group, Child(e, "name").value.s), EntrySchema(e));
      assert VersionTarget(y, e) == Ok(Some(t));
    }
  }

  lemma {:induction false} VersionsOutcomePlanned(y: Json, kind: string, group: string, all: seq<Json>,
                                                  entries: seq<Json>, objectMeta: Json)
    requires VersionsCrd(y, kind, group, all)
    requires forall i :: 0 <= i < |entries| ==> GoodEntry(entries[i])
    ensures VersionsOutcome(y, entries, objectMeta) == Outcome(PlannedFiles(kind, group, entries, objectMeta), None)
    decreases |entries|
  {
    if entries != [] {
      var shorter := entries[..|entries| - 1];
      VersionsOutcomePlanned(y, kind, group, all, shorter, objectMeta);
      VersionStepPlanned(y, kind, group, all, entries[|entries| - 1], objectMeta);
    }
  }

  /** A versions-form CRD whose entries are all well formed writes, without
      an exception, one file per entry that carries a schema, in order, each
      under the name built from that entry's `name`. */
  lemma VersionsDocumentPlan(y: Json, kind: string, group: string, entries: seq<Json>, objectMeta: Json)
    requires VersionsCrd(y, kind, group, entries)
    requires forall i :: 0 <= i < |entries| ==> GoodEntry(entries[i])
    ensures DocumentOutcome(y, objectMeta) == Outcome(PlannedFiles(kind, group, entries, objectMeta), None)
  {
    assert IsCrdDocument(y) == Ok(true);
    assert LegacyForm(y) == Ok(false);
    assert VersionsForm(y) == Ok(true);
    assert VersionEntries(y) == Ok(entries);
    VersionsOutcomePlanned(y, kind, group, entries, entries, objectMeta);
  }

  /** The shape every written file has: a lowercase `.json` name in the
      working directory, and a schema that is Stamped (mappings reached
      through mappings are closed; those inside lists are not touched) and
      in which no mapping under a key (the root and list elements themselves
      excepted) has format `int-or-string`. */
  predicate WellShaped(o: Output) {
    '/' !in o.filename &&
    (forall i :: 0 <= i < |o.filename| ==> !IsUpper(o.filename[i])) &&
    |o.filename| >= 5 && o.filename[|o.filename| - 5..] == ".json" &&
    Stamped(o.schema) && NoIntOrString(o.schema)
  }

  lemma TargetFileWellShaped(t: Target, objectMeta: Json)
    ensures TargetFile(t, objectMeta).Ok? ==> WellShaped(TargetFile(t, objectMeta).value)
  {
    WrittenNameShape(t.resource.kind, t.resource.group, t.resource.version);
    SchemaFileRewritten(t.schema, ApiVersion(t.resource), t.resource.kind, objectMeta, Filename(t.resource));
  }

  lemma WriteStepWellShaped(target: Result<Option<Target>>, objectMeta: Json)
    ensures var step := WriteStep(target, objectMeta);
      step.Ok? && step.value.Some? ==> WellShaped(step.value.value)
  {
    if target.Ok? && target.value.Some? {
      TargetFileWellShaped(target.value.value, objectMeta);
    }
  }

  lemma {:induction false} VersionsOutcomeWellShaped(y: Json, entries: seq<Json>, objectMeta: Json)
    ensures forall o :: o in VersionsOutcome(y, entries, objectMeta).written ==> WellShaped(o)
    decreases |entries|
  {
    if entries != [] {
      VersionsOutcomeWellShaped(y, entries[..|entries| - 1], objectMeta);
      WriteStepWellShaped(VersionTarget(y, entries[|entries| - 1]), objectMeta);
    }
  }

  lemma LegacyOutcomeWellShaped(target: Result<Target>, objectMeta: Json)
    ensures forall o :: o in LegacyOutcome(target, objectMeta).written ==> WellShaped(o)
  {
    if target.Ok? {
      TargetFileWellShaped(target.value, objectMeta);
    }
  }

  lemma DocumentOutcomeWellShaped(y: Json, objectMeta: Json)
    ensures forall o :: o in DocumentOutcome(y, objectMeta).written ==> WellShaped(o)
  {
    LegacyOutcomeWellShaped(LegacyTarget(y), objectMeta);
    var entries := VersionEntries(y);
    if entries.Ok? {
      VersionsOutcomeWellShaped(y, entries.value, objectMeta);
    }
  }

  /** Every file a run writes, and so every member of the combined `oneOf`,
      has the shape above, whatever the documents hold. */
  lemma {:induction false} RunOutputsWellShaped(docs: seq<Json>, objectMeta: Json)
    ensures forall o :: o in RunOutcome(docs, objectMeta).written ==> WellShaped(o)
    decreases |docs|
  {
    if docs != [] {
      RunOutputsWellShaped(docs[..|docs| - 1], objectMeta);
      DocumentOutcomeWellShaped(docs[|docs| - 1], objectMeta);
    }
  }
}
