/** JSON values as handed to the reconstructor, and the values it builds. */
module JsonValues {

  datatype Option<+T> = None | Some(value: T)

  /** An already-parsed JSON value. `JUndefined` is JavaScript's `undefined`,
      which can appear as a field value of an object literal. Numbers are
      modelled as integers. */
  datatype Json =
    | JNull
    | JUndefined
    | JBool(b: bool)
    | JNum(n: int)
    | JStr(s: string)
    | JArr(elems: seq<Json>)
    | JObj(fields: map<string, Json>)

  /** A reconstructed value: the JSON-native shapes, a plain record (a generic
      object), an instance of a registered class (its class name and its
      fields), an arbitrary-precision integer, or a date (kept as its ISO
      string; `VInvalidDate` is a date built from something that is not a
      string). */
  datatype Value =
    | VNull
    | VUndefined
    | VBool(b: bool)
    | VNum(n: int)
    | VStr(s: string)
    | VArr(elems: seq<Value>)
    | VRecord(fields: map<string, Value>)
    | VInstance(className: string, fields: map<string, Value>)
    | VBigInt(i: int)
    | VDate(iso: string)
    | VInvalidDate

  /** The reserved key holding the type tag. */
  const ClassKey: string := "@class"

  /** The field `key` of an object, `undefined` when absent (JavaScript's `obj[key]`). */
  function Get(fields: map<string, Json>, key: string): Json
  {
    if key in fields then fields[key] else JUndefined
  }

  /** True when no object anywhere in `j` carries the tag key. */
  predicate NoTags(j: Json)
    decreases j
  {
    match j
    case JArr(elems) => forall i :: 0 <= i < |elems| ==> NoTags(elems[i])
    case JObj(fields) => ClassKey !in fields && forall k :: k in fields ==> NoTags(fields[k])
    case _ => true
  }

  /** The deep structural copy of a JSON value: every object a plain record. */
  function Plain(j: Json): (v: Value)
    decreases j
  {
    match j
    case JNull => VNull
    case JUndefined => VUndefined
    case JBool(b) => VBool(b)
    case JNum(n) => VNum(n)
    case JStr(s) => VStr(s)
    case JArr(elems) => VArr(seq(|elems|, i requires 0 <= i < |elems| => Plain(elems[i])))
    case JObj(fields) => VRecord(map k | k in fields :: Plain(fields[k]))
  }

  /** True when `v` is made only of JSON-native shapes and plain records. */
  predicate IsPlain(v: Value)
    decreases v
  {
    match v
    case VArr(elems) => forall i :: 0 <= i < |elems| ==> IsPlain(elems[i])
    case VRecord(fields) => forall k :: k in fields ==> IsPlain(fields[k])
    case VInstance(_, _) => false
    case VBigInt(_) => false
    case VDate(_) => false
    case VInvalidDate => false
    case _ => true
  }

  /** A plain value read back as JSON: the input the reconstructor would see
      if the value were handed to it again. */
  function ToJson(v: Value): (j: Json)
    requires IsPlain(v)
    decreases v
  {
    match v
    case VNull => JNull
    case VUndefined => JUndefined
    case VBool(b) => JBool(b)
    case VNum(n) => JNum(n)
    case VStr(s) => JStr(s)
    case VArr(elems) => JArr(seq(|elems|, i requires 0 <= i < |elems| => ToJson(elems[i])))
    case VRecord(fields) => JObj(map k | k in fields :: ToJson(fields[k]))
  }

  /** A structural copy is plain, and reading it back gives the original JSON. */
  lemma {:induction false} PlainRoundTrip(j: Json)
    ensures IsPlain(Plain(j))
    ensures ToJson(Plain(j)) == j
    decreases j
  {
    match j
    case JArr(elems) =>
      var p := Plain(j).elems;
      forall i | 0 <= i < |elems|
        ensures IsPlain(p[i]) && ToJson(p[i]) == elems[i]
      {
        PlainRoundTrip(elems[i]);
      }
      assert ToJson(Plain(j)).elems == elems;
    case JObj(fields) =>
      var p := Plain(j).fields;
      forall k | k in fields
        ensures IsPlain(p[k]) && ToJson(p[k]) == fields[k]
      {
        PlainRoundTrip(fields[k]);
      }
      assert ToJson(Plain(j)).fields == fields;
    case _ =>
  }

  /** True when no record or instance anywhere in `v` has the tag key. */
  predicate NoTagKeys(v: Value)
    decreases v
  {
    match v
    case VArr(elems) => forall i :: 0 <= i < |elems| ==> NoTagKeys(elems[i])
    case VRecord(fields) => ClassKey !in fields && forall k :: k in fields ==> NoTagKeys(fields[k])
    case VInstance(_, fields) => ClassKey !in fields && forall k :: k in fields ==> NoTagKeys(fields[k])
    case _ => true
  }

  /** Reading a plain value as JSON and copying it back gives the value; a
      value without the tag key reads as JSON without tags. */
  lemma {:induction false} ToJsonRoundTrip(v: Value)
    requires IsPlain(v)
    ensures Plain(ToJson(v)) == v
    ensures NoTagKeys(v) ==> NoTags(ToJson(v))
    decreases v
  {
    match v
    case VArr(elems) =>
      var j := ToJson(v).elems;
      forall i | 0 <= i < |elems|
        ensures Plain(j[i]) == elems[i]
        ensures NoTagKeys(v) ==> NoTags(j[i])
      {
        ToJsonRoundTrip(elems[i]);
      }
      assert Plain(ToJson(v)).elems == elems;
    case VRecord(fields) =>
      var j := ToJson(v).fields;
      forall k | k in fields
        ensures Plain(j[k]) == fields[k]
        ensures NoTagKeys(v) ==> NoTags(j[k])
      {
        ToJsonRoundTrip(fields[k]);
      }
      assert Plain(ToJson(v)).fields == fields;
    case _ =>
  }
}
