/**
 * `JsonValue`: a tagged union of the eight value types, with checked accessors, and its
 * subclass `JsonArrayValue`, an array element that carries the key it was written under.
 */
module JsonValues {
  import opened Wrappers
  import opened JsonKeys

  datatype ValueType = STRING | INTEGER | DOUBLE | BOOLEAN | NULL | ARRAY | LIST | JSON_OBJECT

  /** A Java `double`, kept as the decimal text it was written as, or an `int` widened to `double`. */
  datatype Double = Lexeme(text: string) | Widened(i: int32)

  /** The payload of a value; the variant is the tag. Nested objects are map values. */
  datatype Payload =
    | NullP
    | StringP(s: string)
    | IntegerP(i: int32)
    | DoubleP(d: Double)
    | BooleanP(b: bool)
    | ArrayP(elems: seq<JsonValue>)
    | ListP(elems: seq<JsonValue>)
    | ObjectP(fields: map<JsonKey, JsonValue>)

  /** A plain `JsonValue`, or a `JsonArrayValue` carrying the key of a `KEY: value` array element. */
  datatype JsonValue = Plain(payload: Payload) | ArrayElement(key: JsonKey, payload: Payload)

  /** The contents of a `Json` object. */
  type Object = map<JsonKey, JsonValue>

  /** The Java object handed to the constructor `JsonValue(Object)`. */
  datatype JavaObject =
    | JNull
    | JString(s: string)
    | JInteger(i: int32)
    | JDouble(d: Double)
    | JBoolean(b: bool)
    | JObjectArray(elems: seq<JsonValue>)
    | JList(elems: seq<JsonValue>)
    | JJson(fields: Object)
    | JOther(className: string)

  /** `getType()`. */
  function Type(v: JsonValue): ValueType {
    match v.payload
    case NullP => NULL
    case StringP(_) => STRING
    case IntegerP(_) => INTEGER
    case DoubleP(_) => DOUBLE
    case BooleanP(_) => BOOLEAN
    case ArrayP(_) => ARRAY
    case ListP(_) => LIST
    case ObjectP(_) => JSON_OBJECT
  }

  /** `getValue()`: the Java object the value stores. */
  function GetValue(v: JsonValue): (o: JavaObject)
    ensures !o.JOther?
  {
    match v.payload
    case NullP => JNull
    case StringP(s) => JString(s)
    case IntegerP(i) => JInteger(i)
    case DoubleP(d) => JDouble(d)
    case BooleanP(b) => JBoolean(b)
    case ArrayP(e) => JObjectArray(e)
    case ListP(e) => JList(e)
    case ObjectP(m) => JJson(m)
  }

  /** The tag the constructor chooses for a runtime class, or none for an unsupported class. */
  function TagOf(o: JavaObject): Option<ValueType> {
    match o
    case JNull => Some(NULL)
    case JString(_) => Some(STRING)
    case JInteger(_) => Some(INTEGER)
    case JDouble(_) => Some(DOUBLE)
    case JBoolean(_) => Some(BOOLEAN)
    case JObjectArray(_) => Some(ARRAY)
    case JList(_) => Some(LIST)
    case JJson(_) => Some(JSON_OBJECT)
    case JOther(_) => None
  }

  /**
   * The constructor `JsonValue(Object)`: an if-chain over the runtime class. A list is copied,
   * which for a value is the list itself.
   */
  function NewValue(o: JavaObject): (r: Result<JsonValue, Exception>)
    ensures r.Failure? <==> TagOf(o).None?
    ensures r.Success? ==> r.value.Plain? && Some(Type(r.value)) == TagOf(o) && GetValue(r.value) == o
    ensures r.Failure? ==> r.error == IllegalArgumentException("Unsupported value type: " + o.className)
  {
    match o
    case JNull => Success(Plain(NullP))
    case JString(s) => Success(Plain(StringP(s)))
    case JInteger(i) => Success(Plain(IntegerP(i)))
    case JDouble(d) => Success(Plain(DoubleP(d)))
    case JBoolean(b) => Success(Plain(BooleanP(b)))
    case JObjectArray(e) => Success(Plain(ArrayP(e)))
    case JList(e) => Success(Plain(ListP(e)))
    case JJson(m) => Success(Plain(ObjectP(m)))
    case JOther(c) => Failure(IllegalArgumentException("Unsupported value type: " + c))
  }

  /** The constructor `JsonArrayValue(key, value)`, which passes `value.getValue()` to `JsonValue(Object)`. */
  function NewArrayValue(key: JsonKey, v: JsonValue): (r: JsonValue)
    ensures r.ArrayElement? && r.key == key
    ensures Type(r) == Type(v) && r.payload == v.payload
  {
    var made := NewValue(GetValue(v));
    ArrayElement(key, made.value.payload)
  }

  function AsString(v: JsonValue): (r: Result<string, Exception>)
    ensures r.Success? <==> Type(v) == STRING
    ensures r.Success? ==> v.payload == StringP(r.value)
    ensures r.Failure? ==> r.error == IllegalStateException("Value is not of type String")
  {
    if v.payload.StringP? then Success(v.payload.s)
    else Failure(IllegalStateException("Value is not of type String"))
  }

  function AsInteger(v: JsonValue): (r: Result<int32, Exception>)
    ensures r.Success? <==> Type(v) == INTEGER
    ensures r.Success? ==> v.payload == IntegerP(r.value)
    ensures r.Failure? ==> r.error == IllegalStateException("Value is not of type Integer")
  {
    if v.payload.IntegerP? then Success(v.payload.i)
    else Failure(IllegalStateException("Value is not of type Integer"))
  }

  /** `asDouble()` also accepts an INTEGER, widened. */
  function AsDouble(v: JsonValue): (r: Result<Double, Exception>)
    ensures r.Success? <==> Type(v) in {DOUBLE, INTEGER}
    ensures r.Success? ==> v.payload == DoubleP(r.value) || (v.payload.IntegerP? && r.value == Widened(v.payload.i))
    ensures r.Failure? ==> r.error == IllegalStateException("Value is not of type Double")
  {
    match v.payload
    case DoubleP(d) => Success(d)
    case IntegerP(i) => Success(Widened(i))
    case _ => Failure(IllegalStateException("Value is not of type Double"))
  }

  function AsBoolean(v: JsonValue): (r: Result<bool, Exception>)
    ensures r.Success? <==> Type(v) == BOOLEAN
    ensures r.Success? ==> v.payload == BooleanP(r.value)
    ensures r.Failure? ==> r.error == IllegalStateException("Value is not of type Boolean")
  {
    if v.payload.BooleanP? then Success(v.payload.b)
    else Failure(IllegalStateException("Value is not of type Boolean"))
  }

  /** `asList()`: a LIST as it is, an ARRAY copied into a list. */
  function AsList(v: JsonValue): (r: Result<seq<JsonValue>, Exception>)
    ensures r.Success? <==> Type(v) in {LIST, ARRAY}
    ensures r.Success? ==> v.payload == ListP(r.value) || v.payload == ArrayP(r.value)
    ensures r.Failure? ==> r.error == IllegalStateException("Value is not a list")
  {
    match v.payload
    case ListP(e) => Success(e)
    case ArrayP(e) => Success(e)
    case _ => Failure(IllegalStateException("Value is not a list"))
  }

  /** `asArray()`: an ARRAY as it is, a LIST copied into an array. */
  function AsArray(v: JsonValue): (r: Result<seq<JsonValue>, Exception>)
    ensures r.Success? <==> Type(v) in {ARRAY, LIST}
    ensures r.Success? ==> v.payload == ArrayP(r.value) || v.payload == ListP(r.value)
    ensures r.Failure? ==> r.error == IllegalStateException("Value is not an array")
  {
    match v.payload
    case ArrayP(e) => Success(e)
    case ListP(e) => Success(e)
    case _ => Failure(IllegalStateException("Value is not an array"))
  }

  function AsJson(v: JsonValue): (r: Result<Object, Exception>)
    ensures r.Success? <==> Type(v) == JSON_OBJECT
    ensures r.Success? ==> v.payload == ObjectP(r.value)
    ensures r.Failure? ==> r.error == IllegalStateException("Value is not a JSON object")
  {
    if v.payload.ObjectP? then Success(v.payload.fields)
    else Failure(IllegalStateException("Value is not a JSON object"))
  }

  predicate IsNull(v: JsonValue) {
    v.payload.NullP?
  }

  /** `asList()` and `asArray()` are two views of the same elements, in the same order. */
  lemma ListAndArrayViewsAgree(v: JsonValue)
    ensures AsList(v).Success? <==> AsArray(v).Success?
    ensures AsList(v).Success? ==> AsList(v).value == AsArray(v).value
  {
  }

  /** `isNull()` is the NULL tag test. */
  lemma IsNullIsNullTag(v: JsonValue)
    ensures IsNull(v) <==> Type(v) == NULL
  {
  }

  /**
   * `equals`: the same runtime class (plain value or array element), the same tag and equal
   * payloads; lists compare element by element with `equals`, the key of an array element is ignored.
   */
  predicate ValueEquals(a: JsonValue, b: JsonValue)
    decreases a
  {
    a.Plain? == b.Plain? && PayloadEquals(a.payload, b.payload)
  }

  predicate PayloadEquals(p: Payload, q: Payload)
    decreases p
  {
    match (p, q)
    case (ListP(x), ListP(y)) => ElementsEqual(p, x, y)
    case (ArrayP(x), ArrayP(y)) => ElementsEqual(p, x, y)
    case _ => p == q
  }

  /** Element-wise `equals` of the elements `x` of payload `owner` with `y`. */
  predicate ElementsEqual(ghost owner: Payload, x: seq<JsonValue>, y: seq<JsonValue>)
    requires (owner.ListP? || owner.ArrayP?) && x == owner.elems
    decreases owner, 0
  {
    |x| == |y| && forall i :: 0 <= i < |x| ==> ValueEquals(x[i], y[i])
  }

  lemma {:induction false} ValueEqualsReflexive(v: JsonValue)
    ensures ValueEquals(v, v)
    decreases v
  {
    PayloadEqualsReflexive(v.payload);
  }

  lemma {:induction false} PayloadEqualsReflexive(p: Payload)
    ensures PayloadEquals(p, p)
    decreases p
  {
    if p.ListP? || p.ArrayP? {
      forall i | 0 <= i < |p.elems|
        ensures ValueEquals(p.elems[i], p.elems[i])
      {
        ValueEqualsReflexive(p.elems[i]);
      }
    }
  }

  lemma {:induction false} ValueEqualsSymmetric(a: JsonValue, b: JsonValue)
    requires ValueEquals(a, b)
    ensures ValueEquals(b, a)
    decreases a
  {
    PayloadEqualsSymmetric(a.payload, b.payload);
  }

  lemma {:induction false} PayloadEqualsSymmetric(p: Payload, q: Payload)
    requires PayloadEquals(p, q)
    ensures PayloadEquals(q, p)
    decreases p
  {
    if (p.ListP? && q.ListP?) || (p.ArrayP? && q.ArrayP?) {
      forall i | 0 <= i < |q.elems|
        ensures ValueEquals(q.elems[i], p.elems[i])
      {
        ValueEqualsSymmetric(p.elems[i], q.elems[i]);
      }
    }
  }

  /** A `JsonArrayValue` is never equal to a plain `JsonValue`, whatever the payloads. */
  lemma ArrayElementNeverEqualsPlain(k: JsonKey, p: Payload, q: Payload)
    ensures !ValueEquals(ArrayElement(k, p), Plain(q))
    ensures !ValueEquals(Plain(q), ArrayElement(k, p))
  {
  }

  /** Two `JsonArrayValue`s that differ only in their key are equal. */
  lemma ArrayElementKeyIgnored(k1: JsonKey, k2: JsonKey, v: JsonValue)
    ensures ValueEquals(NewArrayValue(k1, v), NewArrayValue(k2, v))
  {
    PayloadEqualsReflexive(v.payload);
  }

  /** How the constructor's tag is read back by the accessors: each payload kind returns itself. */
  lemma {:induction false} ConstructedValueRoundTrips(o: JavaObject)
    requires !o.JOther?
    ensures NewValue(o).Success?
    ensures o.JString? ==> AsString(NewValue(o).value) == Success(o.s)
    ensures o.JInteger? ==> AsInteger(NewValue(o).value) == Success(o.i)
    ensures o.JBoolean? ==> AsBoolean(NewValue(o).value) == Success(o.b)
    ensures o.JDouble? ==> AsDouble(NewValue(o).value) == Success(o.d)
    ensures (o.JList? || o.JObjectArray?) ==> AsList(NewValue(o).value) == Success(o.elems)
    ensures o.JJson? ==> AsJson(NewValue(o).value) == Success(o.fields)
    ensures IsNull(NewValue(o).value) <==> o.JNull?
  {
  }
}
