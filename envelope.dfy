/** The two helpers that assign into a schema mapping:
    `insert_api_version_kind_and_objectmeta`, which stamps the Kubernetes
    envelope fields, and `append_no_duplicates`, a set-like append on a
    mapping of lists. A Python dict is updated in place; here each update
    produces the new value of the mapping, and an exception is an Err. */
module Envelope {
  import opened JsonValue
  import opened SchemaRewrite

  /** The value under `k` when `x` is a mapping that has it. */
  function Child(x: Json, k: string): Option<Json> {
    if x.JObj? then Lookup(x.fields, k) else None
  }

  predicate HasObjectChild(x: Json, k: string) {
    Child(x, k).Some? && Child(x, k).value.JObj?
  }

  /** What the envelope insertion needs: `properties`, `properties.apiVersion`
      and `properties.kind` all exist and are mappings. */
  predicate EnvelopeReady(schema: Json) {
    HasObjectChild(schema, "properties") &&
    HasObjectChild(Child(schema, "properties").value, "apiVersion") &&
    HasObjectChild(Child(schema, "properties").value, "kind")
  }

  /** The envelope fields of `schema` carry the given values. */
  predicate HasEnvelope(schema: Json, apiVersion: string, kind: Json, objectMeta: Json) {
    EnvelopeReady(schema) &&
    var props := Child(schema, "properties").value;
    var av := Child(props, "apiVersion").value;
    var kd := Child(props, "kind").value;
    Child(av, "enum") == Some(JArr([JStr(apiVersion)])) &&
    Child(av, "default") == Some(JStr(apiVersion)) &&
    Child(kd, "enum") == Some(JArr([kind])) &&
    Child(kd, "default") == Some(kind) &&
    Child(props, "metadata") == Some(objectMeta)
  }

  /** `after` differs from `before` only in the values under the keys of
      `changed`, and keeps every key of `before` in its place. */
  ghost predicate SameExcept(before: Json, after: Json, changed: set<string>) {
    before.JObj? && after.JObj? &&
    |Keys(before.fields)| <= |Keys(after.fields)| &&
    Keys(after.fields)[..|Keys(before.fields)|] == Keys(before.fields) &&
    (forall k :: k in Keys(after.fields) && k !in Keys(before.fields) ==> k in changed) &&
    (forall k :: k !in changed ==> Lookup(after.fields, k) == Lookup(before.fields, k))
  }

  /** Two assignments into one envelope node (lines 109-110 for
      `apiVersion`, 111-112 for `kind`): `enum` first, then `default`. */
  function SetEnumAndDefault(node: Json, enum: Json, default: Json): (r: Result<Json>)
    ensures r.Ok? <==> node.JObj?
    ensures r.Err? ==> r.error == TypeError
    ensures r.Ok? ==> r.value.JObj?
    ensures r.Ok? ==> Child(r.value, "enum") == Some(enum) && Child(r.value, "default") == Some(default)
  {
    match node
    case JObj(fs) => Ok(JObj(Put(Put(fs, "enum", enum), "default", default)))
    case _ => Err(TypeError)
  }

  /** The two assignments change nothing else in the node. */
  lemma SetEnumAndDefaultSameExcept(node: Json, enum: Json, default: Json)
    requires node.JObj?
    ensures SameExcept(node, SetEnumAndDefault(node, enum, default).value, {"enum", "default"})
  {
    var withEnum := Put(node.fields, "enum", enum);
    PutSameExcept(node.fields, "enum", enum, {"enum", "default"});
    PutSameExcept(withEnum, "default", default, {"enum", "default"});
    SameExceptTrans(node, JObj(withEnum), JObj(Put(withEnum, "default", default)), {"enum", "default"});
  }

  /** Lines 109-113 as an expression: the subscripts and assignments one
      after the other, each failing as Python's would. Once `apiVersion` has
      been found in it, `properties` is known to be a mapping, so the later
      assignments into it cannot fail. */
  function WithEnvelope(schema: Json, apiVersion: string, kind: Json, objectMeta: Json): Result<Json> {
    var props :- PyIndex(schema, "properties");
    var av :- PyIndex(props, "apiVersion");
    var av' :- SetEnumAndDefault(av, JArr([JStr(apiVersion)]), JStr(apiVersion));
    var kd :- PyIndex(props, "kind");
    var kd' :- SetEnumAndDefault(kd, JArr([kind]), kind);
    var props' := Put(Put(Put(props.fields, "apiVersion", av'), "kind", kd'), "metadata", objectMeta);
    Ok(JObj(Put(schema.fields, "properties", JObj(props'))))
  }

  lemma PutSameExcept(fs: seq<(string, Json)>, k: string, v: Json, changed: set<string>)
    requires k in changed
    ensures SameExcept(JObj(fs), JObj(Put(fs, k, v)), changed)
  {
    var ks := Keys(fs);
    if Has(fs, k) {
      assert Keys(Put(fs, k, v))[..|ks|] == ks;
    } else {
      assert (ks + [k])[..|ks|] == ks;
    }
  }

  lemma SameExceptTrans(a: Json, b: Json, c: Json, changed: set<string>)
    requires SameExcept(a, b, changed) && SameExcept(b, c, changed)
    ensures SameExcept(a, c, changed)
  {
    var ka, kb, kc := Keys(a.fields), Keys(b.fields), Keys(c.fields);
    assert kc[..|ka|] == kc[..|kb|][..|ka|];
  }

  /** The insertion succeeds exactly when `properties`,
      `properties.apiVersion` and `properties.kind` are mappings; a mapping
      schema without `properties` fails with KeyError. */
  lemma WithEnvelopeFails(schema: Json, apiVersion: string, kind: Json, objectMeta: Json)
    ensures WithEnvelope(schema, apiVersion, kind, objectMeta).Ok? <==> EnvelopeReady(schema)
    ensures schema.JObj? && !Has(schema.fields, "properties") ==>
      WithEnvelope(schema, apiVersion, kind, objectMeta) == Err(KeyError("properties"))
  {
    var props := PyIndex(schema, "properties");
    if props.Ok? {
      var av := PyIndex(props.value, "apiVersion");
      if av.Ok? && av.value.JObj? {
        var kd := PyIndex(props.value, "kind");
        assert kd.Ok? && kd.value.JObj? <==> HasObjectChild(props.value, "kind");
      }
      assert av.Ok? && av.value.JObj? <==> HasObjectChild(props.value, "apiVersion");
    }
    assert props.Ok? && props.value.JObj? <==> HasObjectChild(schema, "properties");
  }

  /** On success, `enum` and `default` of `properties.apiVersion` and
      `properties.kind` hold the given values, `properties.metadata` is the
      ObjectMeta fragment, and nothing else changes: no other key at any of
      the three levels, and no key moves. */
  lemma WithEnvelopeSets(schema: Json, apiVersion: string, kind: Json, objectMeta: Json)
    requires EnvelopeReady(schema)
    ensures WithEnvelope(schema, apiVersion, kind, objectMeta).Ok?
    ensures var after := WithEnvelope(schema, apiVersion, kind, objectMeta).value;
      HasEnvelope(after, apiVersion, kind, objectMeta) &&
      SameExcept(schema, after, {"properties"}) &&
      var propsBefore, propsAfter := Child(schema, "properties").value, Child(after, "properties").value;
      SameExcept(propsBefore, propsAfter, {"apiVersion", "kind", "metadata"}) &&
      SameExcept(Child(propsBefore, "apiVersion").value, Child(propsAfter, "apiVersion").value, {"enum", "default"}) &&
      SameExcept(Child(propsBefore, "kind").value, Child(propsAfter, "kind").value, {"enum", "default"})
  {
    WithEnvelopeFails(schema, apiVersion, kind, objectMeta);
    var props := Child(schema, "properties").value;
    var av := Child(props, "apiVersion").value;
    var kd := Child(props, "kind").value;
    var av' := SetEnumAndDefault(av, JArr([JStr(apiVersion)]), JStr(apiVersion)).value;
    var kd' := SetEnumAndDefault(kd, JArr([kind]), kind).value;
    var fields := Put(Put(Put(props.fields, "apiVersion", av'), "kind", kd'), "metadata", objectMeta);
    var after := JObj(Put(schema.fields, "properties", JObj(fields)));
    assert WithEnvelope(schema, apiVersion, kind, objectMeta) == Ok(after) by {
      assert PyIndex(schema, "properties") == Ok(props);
      assert PyIndex(props, "apiVersion") == Ok(av);
      assert PyIndex(props, "kind") == Ok(kd);
    }
    SetEnumAndDefaultSameExcept(av, JArr([JStr(apiVersion)]), JStr(apiVersion));
    SetEnumAndDefaultSameExcept(kd, JArr([kind]), kind);
    EnvelopePropsChanged(props.fields, av', kd', objectMeta);
    PutSameExcept(schema.fields, "properties", JObj(fields), {"properties"});
    assert Child(after, "properties") == Some(JObj(fields));
    assert Child(JObj(fields), "apiVersion") == Some(av');
    assert Child(JObj(fields), "kind") == Some(kd');
    assert Child(JObj(fields), "metadata") == Some(objectMeta);
  }

  /** `insert_api_version_kind_and_objectmeta`, assignment by assignment: it
      succeeds exactly when `properties`, `properties.apiVersion` and
      `properties.kind` are mappings, and then sets `enum` and `default` on
      the last two, replaces `properties.metadata` wholesale and changes
      nothing else. Without `properties` it fails with KeyError. */
  method InsertApiVersionKindAndObjectMeta(schema: Json, apiVersion: string, kind: Json, objectMeta: Json)
    returns (r: Result<Json>)
    ensures r == WithEnvelope(schema, apiVersion, kind, objectMeta)
    ensures r.Ok? <==> EnvelopeReady(schema)
    ensures schema.JObj? && !Has(schema.fields, "properties") ==> r == Err(KeyError("properties"))
    ensures r.Ok? ==> HasEnvelope(r.value, apiVersion, kind, objectMeta)
    ensures r.Ok? ==> SameExcept(schema, r.value, {"properties"})
    ensures r.Ok? ==> SameExcept(Child(schema, "properties").value, Child(r.value, "properties").value,
                                 {"apiVersion", "kind", "metadata"})
    ensures r.Ok? ==>
      var before, after := Child(schema, "properties").value, Child(r.value, "properties").value;
      SameExcept(Child(before, "apiVersion").value, Child(after, "apiVersion").value, {"enum", "default"}) &&
      SameExcept(Child(before, "kind").value, Child(after, "kind").value, {"enum", "default"})
  {
    WithEnvelopeFails(schema, apiVersion, kind, objectMeta);
    var props :- PyIndex(schema, "properties");
    // lines 109-110: `enum`, then `default`, on properties.apiVersion
    var av :- PyIndex(props, "apiVersion");
    av :- SetEnumAndDefault(av, JArr([JStr(apiVersion)]), JStr(apiVersion));
    // lines 111-112: the same two assignments on properties.kind
    var kd :- PyIndex(props, "kind");
    kd :- SetEnumAndDefault(kd, JArr([kind]), kind);
    // both nodes live inside `properties`, a mapping from here on
    var fields := props.fields;
    fields := Put(fields, "apiVersion", av);
    fields := Put(fields, "kind", kd);
    // line 113: the shared ObjectMeta fragment becomes properties.metadata
    fields := Put(fields, "metadata", objectMeta);
    r := Ok(JObj(Put(schema.fields, "properties", JObj(fields))));
    WithEnvelopeSets(schema, apiVersion, kind, objectMeta);
  }

  lemma EnvelopePropsChanged(fs: seq<(string, Json)>, av: Json, kd: Json, objectMeta: Json)
    ensures var fs' := Put(Put(Put(fs, "apiVersion", av), "kind", kd), "metadata", objectMeta);
      SameExcept(JObj(fs), JObj(fs'), {"apiVersion", "kind", "metadata"}) &&
      Lookup(fs', "apiVersion") == Some(av) && Lookup(fs', "kind") == Some(kd) &&
      Lookup(fs', "metadata") == Some(objectMeta)
  {
    var changed := {"apiVersion", "kind", "metadata"};
    var f1 := Put(fs, "apiVersion", av);
    var f2 := Put(f1, "kind", kd);
    var f3 := Put(f2, "metadata", objectMeta);
    PutSameExcept(fs, "apiVersion", av, changed);
    PutSameExcept(f1, "kind", kd, changed);
    PutSameExcept(f2, "metadata", objectMeta, changed);
    SameExceptTrans(JObj(fs), JObj(f1), JObj(f2), changed);
    SameExceptTrans(JObj(fs), JObj(f2), JObj(f3), changed);
  }

  /** `append_no_duplicates` (lines 97-106): the list under `key` (an
      empty one is created first when the key is missing) gets `value`
      appended unless it already holds an element equal to it, as Python's
      `==` compares. Afterwards the list holds the value, its earlier
      elements stay in place, and it has grown by at most one element. When
      the value under `key` is not a list, Python's `in` and `append` decide:
      a string or dict that already "contains" the value is left alone,
      anything else raises. */
  method AppendNoDuplicates(obj: seq<(string, Json)>, key: string, value: Json)
    returns (r: Result<seq<(string, Json)>>)
    ensures var listLike := !Has(obj, key) || Lookup(obj, key).value.JArr?;
      r.Err? <==> !listLike && PyIn(value, Lookup(obj, key).value) != Ok(true)
    ensures r.Ok? && Has(obj, key) && !Lookup(obj, key).value.JArr? ==> r.value == obj
    ensures r.Ok? && (!Has(obj, key) || Lookup(obj, key).value.JArr?) ==>
      var before := if Has(obj, key) then Lookup(obj, key).value.items else [];
      Lookup(r.value, key) == Some(JArr(if PyContains(before, value) then before else before + [value]))
    ensures r.Ok? && (!Has(obj, key) || Lookup(obj, key).value.JArr?) ==>
      var before := if Has(obj, key) then Lookup(obj, key).value.items else [];
      var after := Lookup(r.value, key).value.items;
      PyContains(after, value) && |before| <= |after| && after[..|before|] == before &&
      |after| == |before| + (if PyContains(before, value) then 0 else 1)
    ensures r.Ok? ==> Keys(r.value) == if Has(obj, key) then Keys(obj) else Keys(obj) + [key]
    ensures r.Ok? ==> forall k :: k != key ==> Lookup(r.value, k) == Lookup(obj, k)
  {
    var fields := obj;
    // lines 102-103: a missing key first gets an empty list
    if !Has(fields, key) {
      fields := Put(fields, key, JArr([]));
    }
    var current := Lookup(fields, key).value;
    // lines 104-105: the value is appended unless the list already holds it
    var present :- PyIn(value, current);
    if !present {
      var appended :- PyAppend(current, value);
      fields := Put(fields, key, appended);
      assert Has(Put(obj, key, JArr([])), key);
    }
    if current.JArr? {
      ContainsAfterAppend(current.items, value);
    }
    r := Ok(fields);
  }

  lemma ContainsAfterAppend(before: seq<Json>, value: Json)
    ensures var after := if PyContains(before, value) then before else before + [value];
      PyContains(after, value) && after[..|before|] == before
  {
    if !PyContains(before, value) {
      PyEqReflexive(value);
      assert PyEq(value, (before + [value])[|before|]);
    }
  }

  // ---------------------------------------------------------------------------
  // The shared ObjectMeta fragment

  /** Rewriting after an assignment is assigning the rewritten value. */
  lemma {:induction false} APFieldsPut(fs: seq<(string, Json)>, k: string, v: Json)
    ensures APFields(Put(fs, k, v)) == Put(APFields(fs), k, APValue(v))
  {
    if fs == [] {
      APFieldsCons((k, v), []);
    } else {
      var head, tail := fs[0], fs[1..];
      assert fs == [head] + tail;
      APFieldsCons(head, tail);
      var ap := APFields(fs);
      assert ap[0] == (head.0, APValue(head.1)) && ap[1..] == APFields(tail);
      if head.0 == k {
        APFieldsCons((k, v), tail);
      } else {
        APFieldsPut(tail, k, v);
        APFieldsCons(head, Put(tail, k, v));
      }
    }
  }

  /** `properties` after the envelope insertion, but before `metadata` is set. */
  function EnvelopeBase(schema: Json, apiVersion: string, kind: Json): seq<(string, Json)>
    requires EnvelopeReady(schema)
  {
    var props := Child(schema, "properties").value;
    var av' := SetEnumAndDefault(Child(props, "apiVersion").value, JArr([JStr(apiVersion)]), JStr(apiVersion)).value;
    var kd' := SetEnumAndDefault(Child(props, "kind").value, JArr([kind]), kind).value;
    Put(Put(props.fields, "apiVersion", av'), "kind", kd')
  }

  lemma WithEnvelopeShape(schema: Json, apiVersion: string, kind: Json, objectMeta: Json)
    requires EnvelopeReady(schema)
    ensures WithEnvelope(schema, apiVersion, kind, objectMeta) ==
      Ok(JObj(Put(schema.fields, "properties", JObj(Put(EnvelopeBase(schema, apiVersion, kind), "metadata", objectMeta)))))
  {
    var props := Child(schema, "properties").value;
    assert PyIndex(schema, "properties") == Ok(props);
    assert PyIndex(props, "apiVersion") == Ok(Child(props, "apiVersion").value);
    assert PyIndex(props, "kind") == Ok(Child(props, "kind").value);
  }

  lemma MetadataStampIsHarmless(base: seq<(string, Json)>, objectMeta: Json)
    ensures APValue(JObj(Put(base, "metadata", APValue(objectMeta)))) ==
            APValue(JObj(Put(base, "metadata", objectMeta)))
  {
    var p1 := Put(base, "metadata", objectMeta);
    var p2 := Put(base, "metadata", APValue(objectMeta));
    APFieldsPut(base, "metadata", objectMeta);
    APFieldsPut(base, "metadata", APValue(objectMeta));
    APValueIdempotent(objectMeta);
    assert Keys(p1) == Keys(p2);
    assert StampTail(p1) == StampTail(p2);
  }

  lemma EnvelopedStampIsHarmless(fs: seq<(string, Json)>, base: seq<(string, Json)>, objectMeta: Json)
    ensures AdditionalProperties(JObj(Put(fs, "properties", JObj(Put(base, "metadata", APValue(objectMeta)))))) ==
            AdditionalProperties(JObj(Put(fs, "properties", JObj(Put(base, "metadata", objectMeta)))))
  {
    MetadataStampIsHarmless(base, objectMeta);
    APFieldsPut(fs, "properties", JObj(Put(base, "metadata", objectMeta)));
    APFieldsPut(fs, "properties", JObj(Put(base, "metadata", APValue(objectMeta))));
  }

  /** additional_properties also stamps, in place, the mappings of the
      ObjectMeta fragment that every schema shares, so every schema after
      the first receives the fragment already rewritten. That changes no
      output: rewriting a schema enveloped with the rewritten fragment gives
      what rewriting it with the original fragment gives. */
  lemma SharedObjectMetaStampIsHarmless(schema: Json, apiVersion: string, kind: Json, objectMeta: Json)
    ensures var withOriginal := WithEnvelope(schema, apiVersion, kind, objectMeta);
      var withStamped := WithEnvelope(schema, apiVersion, kind, APValue(objectMeta));
      (withOriginal.Ok? <==> withStamped.Ok?) &&
      (withOriginal.Ok? ==>
        AdditionalProperties(withStamped.value) == AdditionalProperties(withOriginal.value))
  {
    WithEnvelopeFails(schema, apiVersion, kind, objectMeta);
    WithEnvelopeFails(schema, apiVersion, kind, APValue(objectMeta));
    if EnvelopeReady(schema) {
      WithEnvelopeShape(schema, apiVersion, kind, objectMeta);
      WithEnvelopeShape(schema, apiVersion, kind, APValue(objectMeta));
      EnvelopedStampIsHarmless(schema.fields, EnvelopeBase(schema, apiVersion, kind), objectMeta);
    }
  }
}
