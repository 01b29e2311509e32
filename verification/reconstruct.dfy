/** The tag-driven reconstructor `fromJsonObj`: a structural recursion over a
    JSON value that rebuilds arrays element by element and dispatches every
    object on its `@class` tag. */
module Reconstruct {
  import opened JsonValues
  import Decimal

  /** A user-supplied converter for one tag. It receives the raw JSON object and
      the fields that the default field filling produces for it (what calling
      `fillJsonObj` onto a fresh object yields), and its result is taken as is. */
  type Converter = (map<string, Json>, map<string, Value>) -> Value

  /** A class's own `fillJsonObj` method: from the raw JSON object, the
      default-filled fields and the instance's current fields, the instance's
      new fields. */
  type CustomFill = (map<string, Json>, map<string, Value>, map<string, Value>) -> map<string, Value>

  /** What an instantiator entry creates: an instance of class `name` whose
      fields start as `initial`, with or without its own `fillJsonObj`. */
  datatype ClassSpec = ClassSpec(name: string, initial: map<string, Value>, customFill: Option<CustomFill>)

  /** The options threaded unchanged through the recursion. */
  datatype Options = Options(instantiator: map<string, ClassSpec>, converter: map<string, Converter>)

  /** `fromJsonObj(value)` called without options. */
  const NoOptions: Options := Options(map[], map[])

  const DateTag: string := "Date"
  const BigIntTag: string := "BigInt"
  /** The field of a `Date` tagged object that holds the ISO string. */
  const DateKey: string := "date"
  /** The field of a `BigInt` tagged object that holds the integer. */
  const ValueKey: string := "value"

  /** The tag of an object: the string under the reserved key, if any. */
  function TagOf(fields: map<string, Json>): Option<string>
  {
    if ClassKey in fields && fields[ClassKey].JStr? then Some(fields[ClassKey].s) else None
  }

  /** How an object is reconstructed. */
  datatype Route =
    | Untagged
    | BuiltinDate
    | BuiltinBigInt
    | ByConverter(conv: Converter)
    | ByInstantiator(spec: ClassSpec)
    | UnknownTag

  /** Tag resolution: built-in tags first, then the converter table, then the
      instantiator table, and a plain record otherwise. */
  function Resolve(fields: map<string, Json>, opts: Options): Route {
    match TagOf(fields)
    case None => Untagged
    case Some(t) =>
      if t == DateTag then BuiltinDate
      else if t == BigIntTag then BuiltinBigInt
      else if t in opts.converter then ByConverter(opts.converter[t])
      else if t in opts.instantiator then ByInstantiator(opts.instantiator[t])
      else UnknownTag
  }

  /** The fields of an instance after `fillJsonObj`: its own method's result if
      it has one, otherwise every default-filled field assigned over the
      current ones. */
  function Fill(customFill: Option<CustomFill>, current: map<string, Value>,
                raw: map<string, Json>, filled: map<string, Value>): map<string, Value>
  {
    match customFill
    case Some(hook) => hook(raw, filled, current)
    case None => current + filled
  }

  /** A `Date` from the value of its `date` field. */
  function DateFrom(v: Json): Value {
    if v.JStr? then VDate(v.s) else VInvalidDate
  }

  /** The `BigInt` conversion policy for a `value` that is not an array or an object. */
  function BigIntScalar(v: Json): Value
    requires !v.JArr? && !v.JObj?
  {
    match v
    case JUndefined => VUndefined
    case JNull => VNull
    case JBool(b) => VBigInt(if b then 1 else 0)
    case JNum(n) => VBigInt(n)
    case JStr(s) =>
      match Decimal.ParseInt(s)
      case Some(n) => VBigInt(n)
      case None => VStr(s)
  }

  /** `fromJsonObj(j, opts)`. */
  function FromJsonObj(j: Json, opts: Options): (r: Value)
    ensures !j.JArr? && !j.JObj? ==> r == Plain(j)
    ensures j.JArr? ==> r.VArr? && |r.elems| == |j.elems|
    ensures j.JObj? && ClassKey !in j.fields ==> r.VRecord? && r.fields.Keys == j.fields.Keys
    decreases j, 1
  {
    match j
    case JNull => VNull
    case JUndefined => VUndefined
    case JBool(b) => VBool(b)
    case JNum(n) => VNum(n)
    case JStr(s) => VStr(s)
    case JArr(elems) =>
      VArr(seq(|elems|, i requires 0 <= i < |elems| => FromJsonObj(elems[i], opts)))
    case JObj(fields) =>
      match Resolve(fields, opts)
      case Untagged => VRecord(ReconstructFields(fields, opts))
      case UnknownTag => VRecord(ReconstructFields(fields, opts))
      case BuiltinDate => DateFrom(Get(fields, DateKey))
      case BuiltinBigInt =>
        if ValueKey in fields && (fields[ValueKey].JArr? || fields[ValueKey].JObj?)
        then FromJsonObj(fields[ValueKey], opts)
        else BigIntScalar(Get(fields, ValueKey))
      case ByConverter(conv) => conv(fields, ReconstructFields(fields, opts))
      case ByInstantiator(spec) =>
        VInstance(spec.name, Fill(spec.customFill, spec.initial, fields, ReconstructFields(fields, opts)))
  }

  /** The default field filling onto an empty target: every field but the
      tag, each value reconstructed. */
  function ReconstructFields(raw: map<string, Json>, opts: Options): (r: map<string, Value>)
    ensures r.Keys == raw.Keys - {ClassKey}
    decreases JObj(raw), 0
  {
    map k | k in raw && k != ClassKey :: FromJsonObj(raw[k], opts)
  }

  // ---------------------------------------------------------------------
  // Properties

  /** The dispatch order: no tag gives a record; `Date` and `BigInt` are built
      in whatever the options hold; otherwise a converter entry wins over an
      instantiator entry, and a tag in neither table gives a record. */
  lemma ResolveOrder(fields: map<string, Json>, opts: Options)
    ensures ClassKey !in fields ==> Resolve(fields, opts).Untagged?
    ensures TagOf(fields) == Some(DateTag) ==> Resolve(fields, opts).BuiltinDate?
    ensures TagOf(fields) == Some(BigIntTag) ==> Resolve(fields, opts).BuiltinBigInt?
    ensures forall t :: TagOf(fields) == Some(t) && t != DateTag && t != BigIntTag && t in opts.converter ==>
      Resolve(fields, opts) == ByConverter(opts.converter[t])
    ensures forall t ::
      (TagOf(fields) == Some(t) && t != DateTag && t != BigIntTag &&
       t !in opts.converter && t in opts.instantiator) ==>
        Resolve(fields, opts) == ByInstantiator(opts.instantiator[t])
    ensures forall t ::
      (TagOf(fields) == Some(t) && t != DateTag && t != BigIntTag &&
       t !in opts.converter && t !in opts.instantiator) ==>
        Resolve(fields, opts).UnknownTag?
  {
  }

  /** Default filling gives each key except the tag its value reconstructed. */
  lemma ReconstructFieldsShape(raw: map<string, Json>, opts: Options)
    ensures forall k :: k in raw && k != ClassKey ==>
      ReconstructFields(raw, opts)[k] == FromJsonObj(raw[k], opts)
  {
  }

  /** Null, undefined, booleans, numbers and strings come back unchanged. */
  lemma ScalarsUnchanged(j: Json, opts: Options)
    requires !j.JArr? && !j.JObj?
    ensures FromJsonObj(j, opts) == Plain(j)
  {
  }

  /** An array keeps its length and order; each element is reconstructed on its own. */
  lemma ArrayElementwise(elems: seq<Json>, opts: Options)
    ensures FromJsonObj(JArr(elems), opts).VArr?
    ensures |FromJsonObj(JArr(elems), opts).elems| == |elems|
    ensures forall i :: 0 <= i < |elems| ==>
      FromJsonObj(JArr(elems), opts).elems[i] == FromJsonObj(elems[i], opts)
  {
  }

  /** An object without a tag becomes a plain record with the same keys, each
      value reconstructed. */
  lemma UntaggedObjectIsRecord(fields: map<string, Json>, opts: Options)
    requires ClassKey !in fields
    ensures FromJsonObj(JObj(fields), opts).VRecord?
    ensures FromJsonObj(JObj(fields), opts).fields.Keys == fields.Keys
    ensures forall k :: k in fields ==>
      FromJsonObj(JObj(fields), opts).fields[k] == FromJsonObj(fields[k], opts)
  {
    ReconstructFieldsShape(fields, opts);
  }

  /** A tag that is neither built in nor registered gives a plain record of all
      the other fields, without error. */
  lemma UnknownTagIsRecord(fields: map<string, Json>, opts: Options, t: string)
    requires TagOf(fields) == Some(t)
    requires t != DateTag && t != BigIntTag
    requires t !in opts.converter && t !in opts.instantiator
    ensures FromJsonObj(JObj(fields), opts) == VRecord(ReconstructFields(fields, opts))
    ensures FromJsonObj(JObj(fields), opts).fields.Keys == fields.Keys - {ClassKey}
  {
    ReconstructFieldsShape(fields, opts);
  }

  /** A converter entry decides the result, whatever the instantiator table holds. */
  lemma ConverterResultVerbatim(fields: map<string, Json>, opts: Options, t: string)
    requires TagOf(fields) == Some(t)
    requires t != DateTag && t != BigIntTag
    requires t in opts.converter
    ensures FromJsonObj(JObj(fields), opts) == opts.converter[t](fields, ReconstructFields(fields, opts))
  {
  }

  /** An instantiator entry (and no converter entry) gives an instance of its
      class. Without its own `fillJsonObj`, the instance holds its initial
      fields overwritten by every reconstructed non-tag field; with one, the
      method's result. */
  lemma InstantiatorBuildsInstance(fields: map<string, Json>, opts: Options, t: string)
    requires TagOf(fields) == Some(t)
    requires t != DateTag && t != BigIntTag
    requires t !in opts.converter && t in opts.instantiator
    ensures FromJsonObj(JObj(fields), opts).VInstance?
    ensures FromJsonObj(JObj(fields), opts).className == opts.instantiator[t].name
    ensures opts.instantiator[t].customFill.Some? ==>
      FromJsonObj(JObj(fields), opts).fields ==
        opts.instantiator[t].customFill.value(fields, ReconstructFields(fields, opts), opts.instantiator[t].initial)
    ensures opts.instantiator[t].customFill.None? ==>
      FromJsonObj(JObj(fields), opts).fields.Keys ==
        opts.instantiator[t].initial.Keys + (fields.Keys - {ClassKey})
    ensures opts.instantiator[t].customFill.None? ==>
      forall k :: k in fields && k != ClassKey ==>
        FromJsonObj(JObj(fields), opts).fields[k] == FromJsonObj(fields[k], opts)
    ensures opts.instantiator[t].customFill.None? ==>
      forall k :: k in opts.instantiator[t].initial && k !in fields ==>
        FromJsonObj(JObj(fields), opts).fields[k] == opts.instantiator[t].initial[k]
  {
    ReconstructFieldsShape(fields, opts);
  }

  /** The `Date` tag cannot be shadowed by any option. */
  lemma DateTagIsBuiltin(fields: map<string, Json>, opts: Options)
    requires TagOf(fields) == Some(DateTag)
    ensures FromJsonObj(JObj(fields), opts) == FromJsonObj(JObj(fields), NoOptions)
    ensures Get(fields, DateKey).JStr? ==> FromJsonObj(JObj(fields), opts) == VDate(Get(fields, DateKey).s)
  {
  }

  /** A `Date` rebuilt from an ISO string renders as exactly that string. */
  lemma DateKeepsIsoString(iso: string, opts: Options)
    ensures FromJsonObj(JObj(map[ClassKey := JStr(DateTag), DateKey := JStr(iso)]), opts) == VDate(iso)
  {
    var fields := map[ClassKey := JStr(DateTag), DateKey := JStr(iso)];
    assert TagOf(fields) == Some(DateTag);
  }

  /** The tagged object `{'@class': 'BigInt', value: v}`. */
  function BigIntObj(v: Json): map<string, Json> {
    map[ClassKey := JStr(BigIntTag), ValueKey := v]
  }

  /** The `BigInt` policy, case by case, under any options. */
  lemma BigIntPolicy(v: Json, opts: Options)
    ensures v == JUndefined ==> FromJsonObj(JObj(BigIntObj(v)), opts) == VUndefined
    ensures v == JNull ==> FromJsonObj(JObj(BigIntObj(v)), opts) == VNull
    ensures v == JBool(true) ==> FromJsonObj(JObj(BigIntObj(v)), opts) == VBigInt(1)
    ensures v == JBool(false) ==> FromJsonObj(JObj(BigIntObj(v)), opts) == VBigInt(0)
    ensures v.JNum? ==> FromJsonObj(JObj(BigIntObj(v)), opts) == VBigInt(v.n)
    ensures v.JStr? && Decimal.IsIntLiteral(v.s) ==>
      FromJsonObj(JObj(BigIntObj(v)), opts) == VBigInt(Decimal.LiteralValue(v.s))
    ensures v.JStr? && !Decimal.IsIntLiteral(v.s) ==> FromJsonObj(JObj(BigIntObj(v)), opts) == VStr(v.s)
    ensures (v.JArr? || v.JObj?) ==> FromJsonObj(JObj(BigIntObj(v)), opts) == FromJsonObj(v, opts)
  {
    var fields := BigIntObj(v);
    assert TagOf(fields) == Some(BigIntTag);
  }

  /** A `BigInt` object without a `value` field gives undefined. */
  lemma BigIntMissingValueIsUndefined(opts: Options)
    ensures FromJsonObj(JObj(map[ClassKey := JStr(BigIntTag)]), opts) == VUndefined
  {
    assert TagOf(map[ClassKey := JStr(BigIntTag)]) == Some(BigIntTag);
  }

  /** Every integer written out in base 10 comes back as that integer. */
  lemma BigIntFromDecimalString(n: int, opts: Options)
    ensures FromJsonObj(JObj(BigIntObj(JStr(Decimal.ToDecimal(n)))), opts) == VBigInt(n)
  {
    Decimal.ParseIntRoundTrip(n);
    assert TagOf(BigIntObj(JStr(Decimal.ToDecimal(n)))) == Some(BigIntTag);
  }

  /** A value without any tag is rebuilt as its deep structural copy. */
  lemma {:induction false} UntaggedIsDeepCopy(j: Json, opts: Options)
    requires NoTags(j)
    ensures FromJsonObj(j, opts) == Plain(j)
    decreases j
  {
    match j
    case JArr(elems) =>
      forall i | 0 <= i < |elems|
        ensures FromJsonObj(elems[i], opts) == Plain(elems[i])
      {
        UntaggedIsDeepCopy(elems[i], opts);
      }
      assert FromJsonObj(j, opts).elems == Plain(j).elems;
    case JObj(fields) =>
      forall k | k in fields
        ensures FromJsonObj(fields[k], opts) == Plain(fields[k])
      {
        UntaggedIsDeepCopy(fields[k], opts);
      }
      assert ReconstructFields(fields, opts) == Plain(j).fields;
    case _ =>
  }

  /** A plain value without the tag key anywhere (a generic result, such as
      the record built for an unknown tag) is reconstructed to itself. */
  lemma ReconstructPlainIsIdentity(v: Value, opts: Options)
    requires IsPlain(v) && NoTagKeys(v)
    ensures FromJsonObj(ToJson(v), opts) == v
  {
    ToJsonRoundTrip(v);
    UntaggedIsDeepCopy(ToJson(v), opts);
  }
}
