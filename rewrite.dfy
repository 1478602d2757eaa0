/** The two structural rewrites applied to every extracted schema:
    `additional_properties` and `replace_int_or_string`. Both walk a mapping
    and build a fresh mapping with the same keys in the same order; they
    differ in where they descend and what they change. */
module SchemaRewrite {
  import opened JsonValue

  // ---------------------------------------------------------------------------
  // additional_properties

  const AdditionalPropertiesFalse: (string, Json) := ("additionalProperties", JBool(false))

  /** A mapping that declares `properties` but not `additionalProperties`. */
  predicate NeedsStamp(fs: seq<(string, Json)>) {
    Has(fs, "properties") && !Has(fs, "additionalProperties")
  }

  /** Line 43: a mapping value that needs it gets `additionalProperties`
      set to false in place; anything else is left as it is. */
  function Stamp(v: Json): (r: Json)
    ensures v.JObj? && NeedsStamp(v.fields) ==>
      r.JObj? && Keys(r.fields) == Keys(v.fields) + ["additionalProperties"] &&
      Lookup(r.fields, "additionalProperties") == Some(JBool(false))
    ensures v.JObj? && NeedsStamp(v.fields) ==>
      forall k :: k != "additionalProperties" ==> Lookup(r.fields, k) == Lookup(v.fields, k)
    ensures !(v.JObj? && NeedsStamp(v.fields)) ==> r == v
  {
    if v.JObj? && NeedsStamp(v.fields) then
      var fs' := v.fields + [AdditionalPropertiesFalse];
      assert Keys(fs') == Keys(v.fields) + ["additionalProperties"];
      LookupAppendAbsent(v.fields, AdditionalPropertiesFalse);
      forall k | k != "additionalProperties" ensures Lookup(fs', k) == Lookup(v.fields, k) {
        LookupAppendOther(v.fields, AdditionalPropertiesFalse, k);
      }
      JObj(fs')
    else v
  }

  lemma {:induction false} LookupAppendOther(fs: seq<(string, Json)>, p: (string, Json), k: string)
    requires k != p.0
    ensures Lookup(fs + [p], k) == Lookup(fs, k)
  {
    if fs == [] {
      assert Keys([p]) == [p.0];
    } else {
      assert (fs + [p])[1..] == fs[1..] + [p];
      LookupAppendOther(fs[1..], p, k);
    }
  }

  lemma LookupAppendAbsent(fs: seq<(string, Json)>, p: (string, Json))
    requires !Has(fs, p.0)
    ensures Lookup(fs + [p], p.0) == Some(p.1)
  {
    if fs != [] {
      assert (fs + [p])[1..] == fs[1..] + [p];
      assert Keys(fs) == [fs[0].0] + Keys(fs[1..]);
      LookupAppendAbsent(fs[1..], p);
    }
  }

  function StampTail(fs: seq<(string, Json)>): seq<(string, Json)> {
    if NeedsStamp(fs) then [AdditionalPropertiesFalse] else []
  }

  /** `additional_properties` (lines 34-50): a mapping is rebuilt key by key, each
      value rewritten by APValue; anything else (a list, a scalar) has no
      `items()` and is returned unchanged. The root itself is never stamped. */
  function AdditionalProperties(data: Json): (r: Json)
    ensures !data.JObj? ==> r == data
    ensures data.JObj? ==> r.JObj? && Keys(r.fields) == Keys(data.fields)
  {
    match data
    case JObj(fs) => JObj(APFields(fs))
    case _ => data
  }

  function APFields(fs: seq<(string, Json)>): (r: seq<(string, Json)>)
    ensures Keys(r) == Keys(fs)
    decreases JObj(fs), 0
  {
    seq(|fs|, i requires 0 <= i < |fs| => (fs[i].0, APValue(fs[i].1)))
  }

  /** The loop body for one value: a mapping value is stamped when it needs
      it and then rewritten recursively; a list or scalar value is kept as it
      is. The stamp is a boolean, which the recursion leaves alone, so it is
      appended after the recursion here; APValueIsStampThenRecurse shows
      this is the source's order of stamping first. */
  function APValue(v: Json): (r: Json)
    decreases v, 1
  {
    match v
    case JObj(cfs) => JObj(APFields(cfs) + StampTail(cfs))
    case _ => v
  }

  lemma APValueIsStampThenRecurse(v: Json)
    ensures APValue(v) == (if v.JObj? then AdditionalProperties(Stamp(v)) else v)
  {
    if v.JObj? && NeedsStamp(v.fields) {
      var fs := v.fields;
      var fs' := fs + [AdditionalPropertiesFalse];
      assert APFields(fs') == APFields(fs) + [AdditionalPropertiesFalse] by {
        assert APValue(JBool(false)) == JBool(false);
      }
    }
  }

  /** What the rewrite does to one mapping value of the input: a value with
      `properties` and no `additionalProperties` gets `additionalProperties:
      false` appended after its own keys; any other mapping keeps exactly its
      keys; a list or scalar value is unchanged. */
  lemma APValueShape(v: Json)
    ensures v.JObj? && NeedsStamp(v.fields) ==>
      APValue(v).JObj? &&
      Keys(APValue(v).fields) == Keys(v.fields) + ["additionalProperties"] &&
      Lookup(APValue(v).fields, "additionalProperties") == Some(JBool(false))
    ensures v.JObj? && !NeedsStamp(v.fields) ==>
      APValue(v).JObj? && Keys(APValue(v).fields) == Keys(v.fields)
    ensures !v.JObj? ==> APValue(v) == v
  {
    if v.JObj? && NeedsStamp(v.fields) {
      var fs := APFields(v.fields);
      assert Keys(fs + [AdditionalPropertiesFalse]) == Keys(fs) + ["additionalProperties"];
      LookupAppendAbsent(fs, AdditionalPropertiesFalse);
    } else if v.JObj? {
      assert APValue(v).fields == APFields(v.fields);
    }
  }

  /** An `additionalProperties` that a mapping value already declares is
      not replaced: it comes out unchanged when it is not itself a mapping,
      and rewritten like any other mapping value when it is one. */
  lemma APValueKeepsExisting(v: Json)
    requires v.JObj? && Has(v.fields, "additionalProperties")
    ensures APValue(v).JObj? && Keys(APValue(v).fields) == Keys(v.fields)
    ensures var old_ := Lookup(v.fields, "additionalProperties").value;
      Lookup(APValue(v).fields, "additionalProperties") == Some(APValue(old_)) &&
      (!old_.JObj? ==> Lookup(APValue(v).fields, "additionalProperties") == Some(old_))
  {
    var fs := v.fields;
    assert APValue(v).fields == APFields(fs);
    LookupMapped(fs, "additionalProperties");
  }

  lemma APFieldsCons(head: (string, Json), tail: seq<(string, Json)>)
    ensures APFields([head] + tail) == [(head.0, APValue(head.1))] + APFields(tail)
  {
    var fs := [head] + tail;
    assert forall i | 0 <= i < |tail| :: fs[i + 1] == tail[i];
  }

  lemma {:induction false} LookupMapped(fs: seq<(string, Json)>, k: string)
    requires Has(fs, k)
    ensures Lookup(APFields(fs), k) == Some(APValue(Lookup(fs, k).value))
  {
    var head, tail := fs[0], fs[1..];
    assert fs == [head] + tail;
    APFieldsCons(head, tail);
    LookupCons((head.0, APValue(head.1)), APFields(tail), k);
    LookupCons(head, tail, k);
    if head.0 != k {
      KeysCons(head, tail);
      LookupMapped(tail, k);
    }
  }

  /** Every mapping reachable from the root through mappings only (never
      through a list), other than the root, that declares `properties` also
      declares `additionalProperties`. */
  predicate Stamped(x: Json)
    decreases x, 0
  {
    match x
    case JObj(fs) => forall i :: 0 <= i < |fs| ==> ChildStamped(fs[i].1)
    case _ => true
  }

  predicate ChildStamped(v: Json)
    decreases v, 1
  {
    match v
    case JObj(cfs) => !NeedsStamp(cfs) && Stamped(v)
    case _ => true
  }

  /** After the rewrite, every nested mapping that declares `properties`
      declares `additionalProperties`. */
  lemma {:induction false} AdditionalPropertiesStamps(x: Json)
    ensures Stamped(AdditionalProperties(x))
  {
    if x.JObj? {
      forall i | 0 <= i < |x.fields| ensures ChildStamped(APValue(x.fields[i].1)) {
        APValueStamps(x.fields[i].1);
      }
    }
  }

  lemma {:induction false} APValueStamps(v: Json)
    ensures ChildStamped(APValue(v))
    decreases v
  {
    if v.JObj? {
      var cfs := v.fields;
      var fs := APFields(cfs) + StampTail(cfs);
      assert Keys(fs) == Keys(cfs) + Keys(StampTail(cfs));
      if Has(cfs, "properties") && !Has(cfs, "additionalProperties") {
        assert Keys(fs)[|cfs|] == "additionalProperties";
      }
      forall i | 0 <= i < |fs| ensures ChildStamped(fs[i].1) {
        if i < |cfs| {
          APValueStamps(cfs[i].1);
        }
      }
    }
  }

  /** The rewrite changes a value exactly when some nested mapping still
      lacks its stamp. */
  lemma {:induction false} AdditionalPropertiesFixpoint(x: Json)
    ensures AdditionalProperties(x) == x <==> Stamped(x)
  {
    if x.JObj? {
      APFieldsFixpoint(x.fields);
    }
  }

  lemma {:induction false} APFieldsFixpoint(fs: seq<(string, Json)>)
    ensures APFields(fs) == fs <==> forall i :: 0 <= i < |fs| ==> ChildStamped(fs[i].1)
    decreases JObj(fs), 0
  {
    forall i | 0 <= i < |fs| ensures APValue(fs[i].1) == fs[i].1 <==> ChildStamped(fs[i].1) {
      APValueFixpoint(fs[i].1);
    }
    if APFields(fs) == fs {
      forall i | 0 <= i < |fs| ensures APValue(fs[i].1) == fs[i].1 {
        assert APFields(fs)[i] == fs[i];
      }
    }
  }

  lemma {:induction false} APValueFixpoint(v: Json)
    ensures APValue(v) == v <==> ChildStamped(v)
    decreases v, 1
  {
    if v.JObj? {
      var cfs := v.fields;
      APFieldsFixpoint(cfs);
      if APValue(v) == v {
        assert |APFields(cfs) + StampTail(cfs)| == |cfs|;
        assert StampTail(cfs) == [];
        assert APFields(cfs) + [] == APFields(cfs);
      }
    }
  }

  /** Running additional_properties on its own output changes nothing. */
  lemma AdditionalPropertiesIdempotent(x: Json)
    ensures AdditionalProperties(AdditionalProperties(x)) == AdditionalProperties(x)
  {
    AdditionalPropertiesStamps(x);
    AdditionalPropertiesFixpoint(AdditionalProperties(x));
  }

  /** The same for one mapping value: a value that was stamped in place by an
      earlier run (as the shared ObjectMeta fragment is) rewrites to what the
      original value rewrites to. */
  lemma APValueIdempotent(v: Json)
    ensures APValue(APValue(v)) == APValue(v)
  {
    APValueStamps(v);
    APValueFixpoint(APValue(v));
  }

  // ---------------------------------------------------------------------------
  // replace_int_or_string

  /** The fixed node that replaces an int-or-string field. */
  const IntOrStringSchema: Json :=
    JObj([("oneOf", JArr([JObj([("type", JStr("string"))]), JObj([("type", JStr("integer"))])]))])

  /** A mapping whose `format` is the string "int-or-string". */
  predicate IsIntOrString(fs: seq<(string, Json)>) {
    Lookup(fs, "format") == Some(JStr("int-or-string"))
  }

  /** `replace_int_or_string` (lines 53-72): a mapping is rebuilt key by key, each
      value rewritten by RISValue; anything else is returned unchanged. The
      root itself is never replaced. */
  function ReplaceIntOrString(data: Json): (r: Json)
    ensures !data.JObj? ==> r == data
    ensures data.JObj? ==> r.JObj? && Keys(r.fields) == Keys(data.fields)
    decreases data, 1
  {
    match data
    case JObj(fs) => JObj(RISFields(fs))
    case _ => data
  }

  function RISFields(fs: seq<(string, Json)>): (r: seq<(string, Json)>)
    ensures Keys(r) == Keys(fs)
    decreases JObj(fs), 0
  {
    seq(|fs|, i requires 0 <= i < |fs| => (fs[i].0, RISValue(fs[i].1)))
  }

  /** The loop body for one value: an int-or-string mapping is replaced, any
      other mapping is rewritten recursively, a list is rewritten element by
      element (each element as a root, so never itself replaced), and a
      scalar is kept. */
  function RISValue(v: Json): (r: Json)
    decreases v, 2
  {
    match v
    case JObj(cfs) => if IsIntOrString(cfs) then IntOrStringSchema else ReplaceIntOrString(v)
    case JArr(items) => JArr(seq(|items|, i requires 0 <= i < |items| => ReplaceIntOrString(items[i])))
    case _ => v
  }

  /** What the rewrite does to the value under each key of a mapping: an
      int-or-string mapping becomes exactly the `oneOf` of string and
      integer, whatever its other keys; any other mapping keeps its keys, in
      order; a list keeps its length and has each element rewritten as a root
      (so an element is never itself replaced); a scalar is unchanged. */
  lemma ReplaceIntOrStringShape(data: Json, k: string)
    requires data.JObj? && Has(data.fields, k)
    ensures var v := Lookup(data.fields, k).value;
      var r := Lookup(ReplaceIntOrString(data).fields, k).value;
      (v.JObj? && IsIntOrString(v.fields) ==>
        r == JObj([("oneOf", JArr([JObj([("type", JStr("string"))]), JObj([("type", JStr("integer"))])]))])) &&
      (v.JObj? && !IsIntOrString(v.fields) ==> r.JObj? && Keys(r.fields) == Keys(v.fields)) &&
      (v.JArr? ==>
        r.JArr? && |r.items| == |v.items| &&
        forall i :: 0 <= i < |v.items| ==> r.items[i] == ReplaceIntOrString(v.items[i])) &&
      (!v.JObj? && !v.JArr? ==> r == v)
  {
    RISLookupMapped(data.fields, k);
  }

  lemma RISFieldsCons(head: (string, Json), tail: seq<(string, Json)>)
    ensures RISFields([head] + tail) == [(head.0, RISValue(head.1))] + RISFields(tail)
  {
    var fs := [head] + tail;
    assert forall i | 0 <= i < |tail| :: fs[i + 1] == tail[i];
  }

  lemma {:induction false} RISLookupMapped(fs: seq<(string, Json)>, k: string)
    requires Has(fs, k)
    ensures Lookup(RISFields(fs), k) == Some(RISValue(Lookup(fs, k).value))
  {
    var head, tail := fs[0], fs[1..];
    assert fs == [head] + tail;
    RISFieldsCons(head, tail);
    LookupCons((head.0, RISValue(head.1)), RISFields(tail), k);
    LookupCons(head, tail, k);
    if head.0 != k {
      KeysCons(head, tail);
      RISLookupMapped(tail, k);
    }
  }

  /** No mapping value reachable from the root (through mappings and lists,
      other than the root and the elements of a list themselves) has format
      "int-or-string". */
  predicate NoIntOrString(x: Json)
    decreases x, 0
  {
    match x
    case JObj(fs) => forall i :: 0 <= i < |fs| ==> ChildNoIntOrString(fs[i].1)
    case _ => true
  }

  predicate ChildNoIntOrString(v: Json)
    decreases v, 1
  {
    match v
    case JObj(cfs) => !IsIntOrString(cfs) && NoIntOrString(v)
    case JArr(items) => forall i :: 0 <= i < |items| ==> NoIntOrString(items[i])
    case _ => true
  }

  lemma IntOrStringSchemaClean()
    ensures ChildNoIntOrString(IntOrStringSchema)
    ensures ChildStamped(IntOrStringSchema)
  {
    var s := JObj([("type", JStr("string"))]);
    var n := JObj([("type", JStr("integer"))]);
    assert NoIntOrString(s) && NoIntOrString(n);
    assert Lookup(IntOrStringSchema.fields, "format") == None;
  }

  /** After the rewrite no mapping under a key has format int-or-string. The
      root and the elements of a list keep their own format (line 66 recurses
      into list elements as roots). */
  lemma {:induction false} ReplaceIntOrStringClears(x: Json)
    ensures NoIntOrString(ReplaceIntOrString(x))
    decreases x, 1
  {
    if x.JObj? {
      forall i | 0 <= i < |x.fields| ensures ChildNoIntOrString(RISValue(x.fields[i].1)) {
        RISValueClears(x.fields[i].1);
      }
    }
  }

  lemma {:induction false} RISValueClears(v: Json)
    ensures ChildNoIntOrString(RISValue(v))
    decreases v, 2
  {
    match v
    case JObj(cfs) =>
      if IsIntOrString(cfs) {
        IntOrStringSchemaClean();
      } else {
        ReplaceIntOrStringClears(v);
        var r := ReplaceIntOrString(v);
        assert Keys(r.fields) == Keys(cfs);
        RISLookupFormat(cfs);
      }
    case JArr(items) =>
      forall i | 0 <= i < |items| ensures NoIntOrString(ReplaceIntOrString(items[i])) {
        ReplaceIntOrStringClears(items[i]);
      }
    case _ =>
  }

  /** The `format` of a rewritten mapping is "int-or-string" only if it was
      before: a string value is kept and any other value does not become one. */
  lemma {:induction false} RISLookupFormat(fs: seq<(string, Json)>)
    ensures IsIntOrString(RISFields(fs)) <==> IsIntOrString(fs)
  {
    if fs != [] {
      assert RISFields(fs)[1..] == RISFields(fs[1..]);
      RISLookupFormat(fs[1..]);
    }
  }

  /** The rewrite changes a value exactly when a mapping under a key in it has format int-or-string. */
  lemma {:induction false} ReplaceIntOrStringFixpoint(x: Json)
    ensures ReplaceIntOrString(x) == x <==> NoIntOrString(x)
    decreases x, 1
  {
    if x.JObj? {
      var fs := x.fields;
      forall i | 0 <= i < |fs| ensures RISValue(fs[i].1) == fs[i].1 <==> ChildNoIntOrString(fs[i].1) {
        RISValueFixpoint(fs[i].1);
      }
      if ReplaceIntOrString(x) == x {
        forall i | 0 <= i < |fs| ensures RISValue(fs[i].1) == fs[i].1 {
          assert RISFields(fs)[i] == fs[i];
        }
      }
    }
  }

  lemma {:induction false} RISValueFixpoint(v: Json)
    ensures RISValue(v) == v <==> ChildNoIntOrString(v)
    decreases v, 2
  {
    match v
    case JObj(cfs) =>
      if IsIntOrString(cfs) {
        assert Has(cfs, "format");
        assert !Has(IntOrStringSchema.fields, "format");
      } else {
        ReplaceIntOrStringFixpoint(v);
      }
    case JArr(items) =>
      var r := RISValue(v).items;
      forall i | 0 <= i < |items| ensures ReplaceIntOrString(items[i]) == items[i] <==> NoIntOrString(items[i]) {
        ReplaceIntOrStringFixpoint(items[i]);
      }
      if RISValue(v) == v {
        forall i | 0 <= i < |items| ensures ReplaceIntOrString(items[i]) == items[i] {
          assert r[i] == items[i];
        }
      }
    case _ =>
  }

  /** Running replace_int_or_string on its own output changes nothing. */
  lemma ReplaceIntOrStringIdempotent(x: Json)
    ensures ReplaceIntOrString(ReplaceIntOrString(x)) == ReplaceIntOrString(x)
  {
    ReplaceIntOrStringClears(x);
    ReplaceIntOrStringFixpoint(ReplaceIntOrString(x));
  }

  /** replace_int_or_string, run after additional_properties, keeps every
      stamp in place: a replaced node declares no `properties`, and every
      other mapping keeps its keys. */
  lemma {:induction false} ReplaceIntOrStringKeepsStamps(x: Json)
    requires Stamped(x)
    ensures Stamped(ReplaceIntOrString(x))
    decreases x, 1
  {
    if x.JObj? {
      forall i | 0 <= i < |x.fields| ensures ChildStamped(RISValue(x.fields[i].1)) {
        RISValueKeepsStamps(x.fields[i].1);
      }
    }
  }

  lemma {:induction false} RISValueKeepsStamps(v: Json)
    requires ChildStamped(v)
    ensures ChildStamped(RISValue(v))
    decreases v, 2
  {
    if v.JObj? {
      if IsIntOrString(v.fields) {
        IntOrStringSchemaClean();
      } else {
        ReplaceIntOrStringKeepsStamps(v);
      }
    }
  }
}
