/** A parsed JSON/YAML value and the handful of Python operations the
    converter applies to one: membership (`in`), subscripting (`x[k]`),
    iteration and `list.append`.
    Each Python operation returns a Result whose error is the exception the
    interpreter would raise. */
module JsonValue {

  /** A JSON/YAML value. A mapping keeps its keys in insertion order, as a
      Python dict does. Numbers are opaque: nothing in the converter looks
      inside one. */
  datatype Json =
    | JNull
    | JBool(b: bool)
    | JNum(n: int)
    | JStr(s: string)
    | JArr(items: seq<Json>)
    | JObj(fields: seq<(string, Json)>)

  /** The exceptions that the modelled code can raise. */
  datatype Error = KeyError(key: string) | TypeError | AttributeError

  datatype Option<T> = None | Some(value: T)

  datatype Result<T> = Ok(value: T) | Err(error: Error) {
    predicate IsFailure() { Err? }
    function PropagateFailure<U>(): Result<U>
      requires Err?
    {
      Err(error)
    }
    function Extract(): T
      requires Ok?
    {
      value
    }
  }

  // ---------------------------------------------------------------------------
  // Mappings as ordered field lists

  function Keys(fs: seq<(string, Json)>): (ks: seq<string>)
    ensures |ks| == |fs|
    ensures forall i :: 0 <= i < |fs| ==> ks[i] == fs[i].0
  {
    seq(|fs|, i requires 0 <= i < |fs| => fs[i].0)
  }

  predicate Has(fs: seq<(string, Json)>, k: string) {
    k in Keys(fs)
  }

  /** Python `d[k]` on a dict: the value stored under `k`, if any. */
  function Lookup(fs: seq<(string, Json)>, k: string): (r: Option<Json>)
    ensures r.Some? <==> Has(fs, k)
  {
    if fs == [] then None
    else if fs[0].0 == k then Some(fs[0].1)
    else
      assert Keys(fs) == [fs[0].0] + Keys(fs[1..]);
      Lookup(fs[1..], k)
  }

  /** The value found is the one in the first field with that key. */
  lemma {:induction false} LookupFirst(fs: seq<(string, Json)>, k: string, i: nat)
    requires i < |fs| && fs[i].0 == k
    requires forall j :: 0 <= j < i ==> fs[j].0 != k
    ensures Lookup(fs, k) == Some(fs[i].1)
  {
    if i > 0 {
      LookupFirst(fs[1..], k, i - 1);
    }
  }

  /** Conversely, a value found comes from the first field with that key. */
  lemma {:induction false} LookupIsFirst(fs: seq<(string, Json)>, k: string)
    requires Has(fs, k)
    ensures exists i ::
      0 <= i < |fs| && fs[i] == (k, Lookup(fs, k).value) && (forall j :: 0 <= j < i ==> fs[j].0 != k)
  {
    if fs[0].0 != k {
      assert Keys(fs) == [fs[0].0] + Keys(fs[1..]);
      LookupIsFirst(fs[1..], k);
      var i :| 0 <= i < |fs[1..]| && fs[1..][i] == (k, Lookup(fs[1..], k).value) &&
        forall j :: 0 <= j < i ==> fs[1..][j].0 != k;
      assert fs[i + 1] == (k, Lookup(fs, k).value);
      assert forall j :: 0 <= j < i + 1 ==> fs[j].0 != k by {
        forall j | 0 < j < i + 1 ensures fs[j].0 != k {
          assert fs[j] == fs[1..][j - 1];
        }
      }
    } else {
      assert fs[0] == (k, Lookup(fs, k).value);
    }
  }

  lemma KeysCons(p: (string, Json), fs: seq<(string, Json)>)
    ensures Keys([p] + fs) == [p.0] + Keys(fs)
  {
  }

  lemma LookupCons(p: (string, Json), fs: seq<(string, Json)>, k: string)
    ensures Lookup([p] + fs, k) == if p.0 == k then Some(p.1) else Lookup(fs, k)
  {
    assert ([p] + fs)[1..] == fs;
  }

  /** Python `d[k] = v` on a dict: an existing key keeps its position and
      gets the new value; a new key goes at the end. */
  function Put(fs: seq<(string, Json)>, k: string, v: Json): (r: seq<(string, Json)>)
    ensures Lookup(r, k) == Some(v)
    ensures forall k' :: k' != k ==> Lookup(r, k') == Lookup(fs, k')
    ensures Has(fs, k) ==> Keys(r) == Keys(fs)
    ensures !Has(fs, k) ==> Keys(r) == Keys(fs) + [k]
  {
    if fs == [] then [(k, v)]
    else if fs[0].0 == k then
      PutAtHead(fs, k, v);
      [(k, v)] + fs[1..]
    else
      var rest := Put(fs[1..], k, v);
      PutBelowHead(fs, k, v, rest);
      [fs[0]] + rest
  }

  /** Put when the first field has the key. */
  lemma PutAtHead(fs: seq<(string, Json)>, k: string, v: Json)
    requires fs != [] && fs[0].0 == k
    ensures var r := [(k, v)] + fs[1..];
      Lookup(r, k) == Some(v) &&
      (forall k' :: k' != k ==> Lookup(r, k') == Lookup(fs, k')) &&
      Has(fs, k) && Keys(r) == Keys(fs)
  {
    var head, tail := fs[0], fs[1..];
    assert fs == [head] + tail;
    KeysCons(head, tail);
    KeysCons((k, v), tail);
    LookupCons((k, v), tail, k);
    forall k' | k' != k ensures Lookup([(k, v)] + tail, k') == Lookup(fs, k') {
      LookupCons((k, v), tail, k');
      LookupCons(head, tail, k');
    }
  }

  /** Put when the key lies further on: the first field stays in front of
      what Put does to the rest. */
  lemma PutBelowHead(fs: seq<(string, Json)>, k: string, v: Json, rest: seq<(string, Json)>)
    requires fs != [] && fs[0].0 != k
    requires Lookup(rest, k) == Some(v)
    requires forall k' :: k' != k ==> Lookup(rest, k') == Lookup(fs[1..], k')
    requires Has(fs[1..], k) ==> Keys(rest) == Keys(fs[1..])
    requires !Has(fs[1..], k) ==> Keys(rest) == Keys(fs[1..]) + [k]
    ensures var r := [fs[0]] + rest;
      Lookup(r, k) == Some(v) &&
      (forall k' :: k' != k ==> Lookup(r, k') == Lookup(fs, k')) &&
      (Has(fs, k) ==> Keys(r) == Keys(fs)) &&
      (!Has(fs, k) ==> Keys(r) == Keys(fs) + [k])
  {
    var head, tail := fs[0], fs[1..];
    assert fs == [head] + tail;
    PutBelowHeadKeys(head, tail, k, rest);
    LookupCons(head, rest, k);
    forall k' | k' != k ensures Lookup([head] + rest, k') == Lookup([head] + tail, k') {
      LookupCons(head, rest, k');
      LookupCons(head, tail, k');
    }
  }

  lemma PutBelowHeadKeys(head: (string, Json), tail: seq<(string, Json)>, k: string, rest: seq<(string, Json)>)
    requires head.0 != k
    requires Has(tail, k) ==> Keys(rest) == Keys(tail)
    requires !Has(tail, k) ==> Keys(rest) == Keys(tail) + [k]
    ensures Has([head] + tail, k) ==> Keys([head] + rest) == Keys([head] + tail)
    ensures !Has([head] + tail, k) ==> Keys([head] + rest) == Keys([head] + tail) + [k]
  {
    KeysCons(head, tail);
    KeysCons(head, rest);
    assert Has([head] + tail, k) <==> Has(tail, k);
  }

  // ---------------------------------------------------------------------------
  // Python operations on values

  predicate IsPrefix(p: string, s: string) {
    |p| <= |s| && s[..|p|] == p
  }

  /** Python `p in s` for two strings. */
  predicate IsSubstring(p: string, s: string)
    decreases |s|
  {
    IsPrefix(p, s) || (s != [] && IsSubstring(p, s[1..]))
  }

  /** Python `a == b`: two dicts are equal when they have the same keys and
      equal values under each key, whatever the order of the keys; two lists
      when they are equal element by element; scalars when they are the same
      value. */
  predicate PyEq(a: Json, b: Json)
    decreases a
  {
    match a
    case JObj(fs) =>
      b.JObj? &&
      (forall k :: k in Keys(fs) ==> k in Keys(b.fields)) &&
      (forall k :: k in Keys(b.fields) ==> k in Keys(fs)) &&
      forall i :: 0 <= i < |fs| && Lookup(fs, fs[i].0) == Some(fs[i].1) ==>
        Has(b.fields, fs[i].0) && PyEq(fs[i].1, Lookup(b.fields, fs[i].0).value)
    case JArr(items) =>
      b.JArr? && |items| == |b.items| && forall i :: 0 <= i < |items| ==> PyEq(items[i], b.items[i])
    case _ => a == b
  }

  /** Every value equals itself. */
  lemma {:induction false} PyEqReflexive(a: Json)
    ensures PyEq(a, a)
    decreases a
  {
    match a
    case JObj(fs) =>
      forall i | 0 <= i < |fs| && Lookup(fs, fs[i].0) == Some(fs[i].1)
        ensures PyEq(fs[i].1, Lookup(fs, fs[i].0).value)
      {
        PyEqReflexive(fs[i].1);
      }
    case JArr(items) =>
      forall i | 0 <= i < |items| ensures PyEq(items[i], items[i]) {
        PyEqReflexive(items[i]);
      }
    case _ =>
  }

  /** Python `value in items` for a list: some element equals the value. */
  predicate PyContains(items: seq<Json>, value: Json) {
    exists i :: 0 <= i < |items| && PyEq(value, items[i])
  }

  /** Python `value in container`. A dict tests its keys (an unhashable value
      raises TypeError; any other non-string value is simply absent, since
      every key here is a string), a list tests its elements with `==`, a
      string tests for a substring (a non-string value raises TypeError), and
      any other container raises TypeError. */
  function PyIn(value: Json, container: Json): (r: Result<bool>)
    ensures container.JObj? && value.JStr? ==> r == Ok(Has(container.fields, value.s))
    ensures container.JObj? && !value.JStr? ==>
      r == (if value.JArr? || value.JObj? then Err(TypeError) else Ok(false))
    ensures container.JArr? ==> r == Ok(PyContains(container.items, value))
    ensures container.JStr? ==>
      r == (if value.JStr? then Ok(IsSubstring(value.s, container.s)) else Err(TypeError))
    ensures r.Err? ==> r.error == TypeError
    ensures (container.JNull? || container.JBool? || container.JNum?) ==> r.Err?
  {
    match container
    case JObj(fs) =>
      if value.JStr? then Ok(Has(fs, value.s))
      else if value.JArr? || value.JObj? then Err(TypeError)
      else Ok(false)
    case JArr(items) => Ok(PyContains(items, value))
    case JStr(s) => if value.JStr? then Ok(IsSubstring(value.s, s)) else Err(TypeError)
    case _ => Err(TypeError)
  }

  /** A list holding a dict holds every dict with the same keys and values,
      whatever their order. */
  lemma PyInIgnoresKeyOrder()
    ensures PyIn(JObj([("a", JNum(1)), ("b", JNum(2))]),
                 JArr([JObj([("b", JNum(2)), ("a", JNum(1))])])) == Ok(true)
  {
    var x := [("a", JNum(1)), ("b", JNum(2))];
    var y := [("b", JNum(2)), ("a", JNum(1))];
    SwappedFieldsEqual();
    assert PyContains([JObj(y)], JObj(x)) by {
      assert PyEq(JObj(x), [JObj(y)][0]);
    }
  }

  lemma SwappedFieldsEqual()
    ensures PyEq(JObj([("a", JNum(1)), ("b", JNum(2))]), JObj([("b", JNum(2)), ("a", JNum(1))]))
  {
    var x := [("a", JNum(1)), ("b", JNum(2))];
    var y := [("b", JNum(2)), ("a", JNum(1))];
    assert Keys(x) == ["a", "b"] && Keys(y) == ["b", "a"];
    LookupFirst(y, "a", 1);
    LookupFirst(y, "b", 0);
    forall i | 0 <= i < |x| && Lookup(x, x[i].0) == Some(x[i].1)
      ensures Has(y, x[i].0) && PyEq(x[i].1, Lookup(y, x[i].0).value)
    {
      assert i == 0 || i == 1;
    }
  }

  /** Python `container[key]` with a string key. */
  function PyIndex(container: Json, key: string): (r: Result<Json>)
    ensures r.Ok? <==> container.JObj? && Has(container.fields, key)
    ensures r.Ok? ==> Lookup(container.fields, key) == Some(r.value)
    ensures r.Err? ==> r.error == (if container.JObj? then KeyError(key) else TypeError)
  {
    match container
    case JObj(fs) => if Has(fs, key) then Ok(Lookup(fs, key).value) else Err(KeyError(key))
    case _ => Err(TypeError)
  }

  /** Python `for x in container`: the elements of a list, the keys of a
      dict, the one-character strings of a string; anything else raises
      TypeError. */
  function PyIter(container: Json): (r: Result<seq<Json>>)
    ensures container.JArr? ==> r == Ok(container.items)
    ensures container.JObj? ==>
      r.Ok? && |r.value| == |container.fields| &&
      (forall i :: 0 <= i < |container.fields| ==> r.value[i] == JStr(container.fields[i].0))
    ensures container.JStr? ==>
      r.Ok? && |r.value| == |container.s| &&
      (forall i :: 0 <= i < |container.s| ==> r.value[i] == JStr([container.s[i]]))
    ensures r.Err? <==> !(container.JArr? || container.JObj? || container.JStr?)
  {
    match container
    case JArr(items) => Ok(items)
    case JObj(fs) => Ok(seq(|fs|, i requires 0 <= i < |fs| => JStr(fs[i].0)))
    case JStr(s) => Ok(seq(|s|, i requires 0 <= i < |s| => JStr([s[i]])))
    case _ => Err(TypeError)
  }

  /** Python `container.append(v)`: only a list has the method. */
  function PyAppend(container: Json, v: Json): (r: Result<Json>)
    ensures r.Ok? <==> container.JArr?
    ensures r.Ok? ==> r.value == JArr(container.items + [v])
    ensures r.Err? ==> r.error == AttributeError
  {
    match container
    case JArr(items) => Ok(JArr(items + [v]))
    case _ => Err(AttributeError)
  }
}
