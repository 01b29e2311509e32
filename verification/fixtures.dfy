/** The classes, instantiator table and converters of the `fromJsonObj` test
    suite, and each of its cases stated as an equation over the model. */
module FromJsonObjTests {
  import opened JsonValues
  import opened Reconstruct
  import Decimal

  /** JavaScript's conversion of a value to a string, as used by `+` on a string.
      Numbers are integers here and are written in plain base 10; JavaScript
      would switch to exponent form from 1e21 on, which no fixture reaches. */
  function JsToString(j: Json): string
    decreases j, 0
  {
    match j
    case JUndefined => "undefined"
    case JNull => "null"
    case JBool(b) => if b then "true" else "false"
    case JNum(n) => Decimal.ToDecimal(n)
    case JStr(s) => s
    case JObj(_) => "[object Object]"
    case JArr(elems) => Join(seq(|elems|, i requires 0 <= i < |elems| => ElementString(elems[i])))
  }

  /** An array element as `Array.prototype.join` renders it: null and undefined as empty. */
  function ElementString(j: Json): string
    decreases j, 1
  {
    if j.JNull? || j.JUndefined? then "" else JsToString(j)
  }

  /** The strings joined with commas. */
  function Join(parts: seq<string>): string {
    if |parts| == 0 then ""
    else if |parts| == 1 then parts[0]
    else parts[0] + "," + Join(parts[1..])
  }

  // The test classes: none declares initial field values.

  const TestClass1: ClassSpec := ClassSpec("TestClass1", map[], None)
  const TestClass2: ClassSpec := ClassSpec("TestClass2", map[], None)
  const TestClass3: ClassSpec := ClassSpec("TestClass3", map[], Some(TestClass3Fill))
  const TestClass4: ClassSpec := ClassSpec("TestClass4", map[], None)

  /** `TestClass3.fillJsonObj`: sets `a` to the JSON object's `a` followed by "a". */
  function TestClass3Fill(raw: map<string, Json>, filled: map<string, Value>,
                          current: map<string, Value>): (r: map<string, Value>)
    ensures r.Keys == current.Keys + {"a"}
    ensures r["a"] == VStr(JsToString(Get(raw, "a")) + "a")
    ensures forall k :: k in current && k != "a" ==> r[k] == current[k]
  {
    current["a" := VStr(JsToString(Get(raw, "a")) + "a")]
  }

  /** The `instantiator` table of the suite. */
  const Instantiator: map<string, ClassSpec> :=
    map["TestClass1" := TestClass1, "TestClass2" := TestClass2,
        "TestClass3" := TestClass3, "TestClass4" := TestClass4]

  const WithInstantiator: Options := Options(Instantiator, map[])

  /** The `TestClass1` converter: a new `TestClass1` filled through `fillJsonObj`. */
  function ConvertTestClass1(raw: map<string, Json>, filled: map<string, Value>): (r: Value)
    ensures r == VInstance("TestClass1", filled)
  {
    assert TestClass1.initial + filled == filled;
    VInstance(TestClass1.name, Fill(TestClass1.customFill, TestClass1.initial, raw, filled))
  }

  /** The `TestClass6` converter: a new `TestClass4` whose `a` is "a" followed by the JSON's `a`. */
  function ConvertTestClass6(raw: map<string, Json>, filled: map<string, Value>): (r: Value)
    ensures r.VInstance? && r.className == "TestClass4" && r.fields.Keys == {"a"}
    ensures r.fields["a"] == VStr("a" + JsToString(Get(raw, "a")))
  {
    VInstance(TestClass4.name, TestClass4.initial["a" := VStr("a" + JsToString(Get(raw, "a")))])
  }

  const WithConverter: Options :=
    Options(map[], map["TestClass1" := ConvertTestClass1, "TestClass6" := ConvertTestClass6])

  /** `{'@class': name}` plus the given fields. */
  function Tagged(name: string, rest: map<string, Json>): map<string, Json> {
    rest[ClassKey := JStr(name)]
  }

  lemma EmptyObjectTest()
    ensures FromJsonObj(JObj(map[]), NoOptions) == VRecord(map[])
  {
    UntaggedObjectIsRecord(map[], NoOptions);
  }

  lemma NullTest()
    ensures FromJsonObj(JNull, NoOptions) == VNull
  {
  }

  lemma CorrespondingClassTest()
    ensures FromJsonObj(
              JObj(Tagged("TestClass1", map[
                "a" := JObj(Tagged("TestClass2", map[])),
                "b" := JArr([JObj(Tagged("TestClass1", map[]))])])),
              WithInstantiator)
            == VInstance("TestClass1", map[
                 "a" := VInstance("TestClass2", map[]),
                 "b" := VArr([VInstance("TestClass1", map[])])])
  {
    var inner1 := Tagged("TestClass1", map[]);
    var inner2 := Tagged("TestClass2", map[]);
    InstantiatorBuildsInstance(inner1, WithInstantiator, "TestClass1");
    InstantiatorBuildsInstance(inner2, WithInstantiator, "TestClass2");
    assert FromJsonObj(JObj(inner1), WithInstantiator) == VInstance("TestClass1", map[]);
    assert FromJsonObj(JObj(inner2), WithInstantiator) == VInstance("TestClass2", map[]);
    var outer := Tagged("TestClass1", map["a" := JObj(inner2), "b" := JArr([JObj(inner1)])]);
    InstantiatorBuildsInstance(outer, WithInstantiator, "TestClass1");
    ArrayElementwise([JObj(inner1)], WithInstantiator);
    var r := FromJsonObj(JObj(outer), WithInstantiator);
    assert outer.Keys - {ClassKey} == {"a", "b"};
    assert r.fields.Keys == {"a", "b"};
    assert r.fields["b"] == VArr([VInstance("TestClass1", map[])]);
  }

  lemma UnknownClassTest()
    ensures FromJsonObj(
              JObj(Tagged("TestClass100", map[
                "a" := JObj(Tagged("TestClass100", map[])),
                "b" := JArr([JObj(Tagged("TestClass100", map[]))])])),
              WithInstantiator)
            == VRecord(map["a" := VRecord(map[]), "b" := VArr([VRecord(map[])])])
  {
    var inner := Tagged("TestClass100", map[]);
    UnknownTagIsRecord(inner, WithInstantiator, "TestClass100");
    assert FromJsonObj(JObj(inner), WithInstantiator) == VRecord(map[]);
    var outer := Tagged("TestClass100", map["a" := JObj(inner), "b" := JArr([JObj(inner)])]);
    UnknownTagIsRecord(outer, WithInstantiator, "TestClass100");
    ReconstructFieldsShape(outer, WithInstantiator);
    ArrayElementwise([JObj(inner)], WithInstantiator);
    var r := FromJsonObj(JObj(outer), WithInstantiator);
    assert outer.Keys - {ClassKey} == {"a", "b"};
    assert r.fields.Keys == {"a", "b"};
    assert r.fields["b"] == VArr([VRecord(map[])]);
  }

  /** The mixed array of the suite: two tagged objects around a string and a number. */
  function MixedArray(): seq<Json> {
    [JObj(Tagged("TestClass1", map[])), JStr("a"), JNum(1), JObj(Tagged("TestClass2", map[]))]
  }

  /** The mixed array of the suite after reconstruction. */
  function MixedArrayConverted(): seq<Value> {
    [VInstance("TestClass1", map[]), VStr("a"), VNum(1), VInstance("TestClass2", map[])]
  }

  /** The mixed array on its own. */
  lemma MixedArrayTest()
    ensures FromJsonObj(JArr(MixedArray()), WithInstantiator) == VArr(MixedArrayConverted())
  {
    var a := MixedArray();
    InstantiatorBuildsInstance(Tagged("TestClass1", map[]), WithInstantiator, "TestClass1");
    InstantiatorBuildsInstance(Tagged("TestClass2", map[]), WithInstantiator, "TestClass2");
    ArrayElementwise(a, WithInstantiator);
    assert FromJsonObj(JArr(a), WithInstantiator).elems == MixedArrayConverted();
  }

  /** The mixed array inside an untagged object. */
  lemma ArrayOfClassesTest()
    ensures FromJsonObj(JObj(map["a" := JStr("a"), "b" := JArr(MixedArray()), "c" := JNum(1)]), WithInstantiator)
            == VRecord(map["a" := VStr("a"), "b" := VArr(MixedArrayConverted()), "c" := VNum(1)])
  {
    MixedArrayTest();
    var obj := map["a" := JStr("a"), "b" := JArr(MixedArray()), "c" := JNum(1)];
    UntaggedObjectIsRecord(obj, WithInstantiator);
    var r := FromJsonObj(JObj(obj), WithInstantiator);
    assert r.fields.Keys == {"a", "b", "c"};
    assert r.fields == map["a" := VStr("a"), "b" := VArr(MixedArrayConverted()), "c" := VNum(1)];
  }

  /** A `TestClass6` object with string field `a` converts to a `TestClass4` whose `a` is "a" + that string. */
  lemma TestClass6Converted(x: string)
    ensures FromJsonObj(JObj(Tagged("TestClass6", map["a" := JStr(x)])), WithConverter)
            == VInstance("TestClass4", map["a" := VStr("a" + x)])
  {
    var fields := Tagged("TestClass6", map["a" := JStr(x)]);
    ConverterResultVerbatim(fields, WithConverter, "TestClass6");
    assert Get(fields, "a") == JStr(x);
    assert WithConverter.converter["TestClass6"] == ConvertTestClass6;
  }

  lemma ConverterTest()
    ensures FromJsonObj(
              JObj(Tagged("TestClass1", map[
                "a" := JObj(Tagged("TestClass6", map["a" := JStr("1")])),
                "b" := JArr([JObj(Tagged("TestClass6", map["a" := JStr("2")]))])])),
              WithConverter)
            == VInstance("TestClass1", map[
                 "a" := VInstance("TestClass4", map["a" := VStr("a1")]),
                 "b" := VArr([VInstance("TestClass4", map["a" := VStr("a2")])])])
  {
    var inner1 := Tagged("TestClass6", map["a" := JStr("1")]);
    var inner2 := Tagged("TestClass6", map["a" := JStr("2")]);
    TestClass6Converted("1");
    TestClass6Converted("2");
    assert "a" + "1" == "a1" && "a" + "2" == "a2";
    var outer := Tagged("TestClass1", map["a" := JObj(inner1), "b" := JArr([JObj(inner2)])]);
    ConverterResultVerbatim(outer, WithConverter, "TestClass1");
    assert WithConverter.converter["TestClass1"] == ConvertTestClass1;
    ReconstructFieldsShape(outer, WithConverter);
    ArrayElementwise([JObj(inner2)], WithConverter);
    var r := FromJsonObj(JObj(outer), WithConverter);
    assert outer.Keys - {ClassKey} == {"a", "b"};
    assert r.fields.Keys == {"a", "b"};
    assert r.fields["b"] == VArr([VInstance("TestClass4", map["a" := VStr("a2")])]);
  }

  lemma OwnFillJsonObjTest()
    ensures FromJsonObj(JObj(Tagged("TestClass3", map["a" := JStr("a")])), WithInstantiator)
            == VInstance("TestClass3", map["a" := VStr("aa")])
  {
    var fields := Tagged("TestClass3", map["a" := JStr("a")]);
    InstantiatorBuildsInstance(fields, WithInstantiator, "TestClass3");
    assert Get(fields, "a") == JStr("a");
    assert WithInstantiator.instantiator["TestClass3"].customFill.value == TestClass3Fill;
    assert JsToString(JStr("a")) == "a" && "a" + "a" == "aa";
    assert TestClass3Fill(fields, ReconstructFields(fields, WithInstantiator), map[])
        == map["a" := VStr("aa")];
  }

  lemma BigIntScalarTests()
    ensures FromJsonObj(JObj(BigIntObj(JStr(Decimal.ToDecimal(3)))), NoOptions) == VBigInt(3)
    ensures FromJsonObj(JObj(BigIntObj(JUndefined)), NoOptions) == VUndefined
    ensures FromJsonObj(JObj(BigIntObj(JNull)), NoOptions) == VNull
    ensures FromJsonObj(JObj(BigIntObj(JBool(true))), NoOptions) == VBigInt(1)
    ensures FromJsonObj(JObj(BigIntObj(JBool(false))), NoOptions) == VBigInt(0)
  {
    BigIntFromDecimalString(3, NoOptions);
    BigIntPolicy(JUndefined, NoOptions);
    BigIntPolicy(JNull, NoOptions);
    BigIntPolicy(JBool(true), NoOptions);
    BigIntPolicy(JBool(false), NoOptions);
  }

  lemma BigIntObjectValueTest()
    ensures FromJsonObj(JObj(BigIntObj(JObj(map["b" := JNum(1)]))), NoOptions) == VRecord(map["b" := VNum(1)])
  {
    var obj := JObj(map["b" := JNum(1)]);
    BigIntPolicy(obj, NoOptions);
    UntaggedIsDeepCopy(obj, NoOptions);
    assert Plain(obj).fields == map["b" := VNum(1)];
  }

  lemma BigIntArrayValueTest()
    ensures FromJsonObj(JObj(BigIntObj(JArr([JStr("a"), JNum(1)]))), NoOptions) == VArr([VStr("a"), VNum(1)])
  {
    var arr := JArr([JStr("a"), JNum(1)]);
    BigIntPolicy(arr, NoOptions);
    UntaggedIsDeepCopy(arr, NoOptions);
    assert Plain(arr).elems == [VStr("a"), VNum(1)];
  }

  lemma BigIntNonLiteralStringTest()
    ensures FromJsonObj(JObj(BigIntObj(JStr("a"))), NoOptions) == VStr("a")
  {
    BigIntPolicy(JStr("a"), NoOptions);
    assert !Decimal.IsDigit("a"[0]);
  }
}
