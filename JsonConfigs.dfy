/**
 * `JsonConfig`: a read-only facade over a parsed `Json`. Each lookup turns a missing key or a
 * value of the wrong type into a `ConfigException`, a default value or an empty `Optional`.
 * A blank key is refused by `JsonKey` with an `IllegalArgumentException`, which no lookup
 * catches, so it reaches the caller as it is.
 */
module JsonConfigs {
  import opened Wrappers
  import opened JsonKeys
  import opened JsonValues
  import opened JsonObjects
  import G = JsonGrammar
  import P = JsonParsers
  import JM = JsonMergers

  /** The cause a `ConfigException` is built with. */
  datatype Cause = ParseFailure(error: G.ParseError) | WrongType(exception: Exception)

  /** What a lookup throws: a `ConfigException`, or an exception it does not catch. */
  datatype ConfigError =
    | ConfigException(message: string, cause: Option<Cause>)
    | Uncaught(exception: Exception)

  /** The exception `JsonKey` throws for a blank key, passed through unchanged. */
  const BLANK_KEY := Uncaught(IllegalArgumentException(EMPTY_KEY_MESSAGE))

  const PARSE_ERROR_MESSAGE := "Error parsing content string"

  function Missing(key: string): ConfigError {
    ConfigException("Key does not exist: " + key, None)
  }

  /** The `ConfigException` of a getter whose value is not `description`. */
  function NotA(key: string, description: string, e: Exception): ConfigError {
    ConfigException("Value under key '" + key + "' is not " + description, Some(WrongType(e)))
  }

  /** The `ConfigException` of a list getter one of whose elements is not `description`. */
  function ElementNotA(key: string, description: string, e: Exception): ConfigError {
    ConfigException("Array element under key '" + key + "' is not " + description, Some(WrongType(e)))
  }

  /** Turns the `IllegalStateException` of an accessor into the getter's `ConfigException`. */
  function Catch<T>(key: string, description: string, r: Result<T, Exception>): (c: Result<T, ConfigError>)
    ensures c.Success? <==> r.Success?
    ensures c.Success? ==> c.value == r.value
    ensures c.Failure? ==> c.error == NotA(key, description, r.error)
  {
    match r
    case Success(v) => Success(v)
    case Failure(e) => Failure(NotA(key, description, e))
  }

  /** A configuration holds the contents of its `Json`. */
  datatype JsonConfig = JsonConfig(json: Object) {

    // ----- what the lookups are specified by -----

    /** The key is present and its value has one of the types `types`. */
    predicate Holds(key: string, types: set<ValueType>) {
      !IsBlank(key) && KeyText(key) in json && Type(json[KeyText(key)]) in types
    }

    /** The error of a getter without a default: blank key, missing key or wrong type, in that order. */
    function Refusal(key: string, description: string, e: Exception): ConfigError {
      if IsBlank(key) then BLANK_KEY
      else if KeyText(key) !in json then Missing(key)
      else NotA(key, description, e)
    }

    /** `json.get(key)` after `has(key)`: `None` for a missing key. */
    function Lookup(key: string): (r: Result<Option<JsonValue>, ConfigError>)
      ensures r.Failure? <==> IsBlank(key)
      ensures r.Failure? ==> r.error == BLANK_KEY
      ensures r.Success? ==> (r.value.Some? <==> KeyText(key) in json)
      ensures r.Success? && r.value.Some? ==> r.value.value == json[KeyText(key)]
    {
      match NewKey(Some(key))
      case Failure(_) => Failure(BLANK_KEY)
      case Success(k) => Success(if k in json then Some(json[k]) else None)
    }

    /** The opening of every getter without a default: the key must be there. */
    function Require(key: string): (r: Result<JsonValue, ConfigError>)
      ensures r.Success? <==> !IsBlank(key) && KeyText(key) in json
      ensures r.Success? ==> r.value == json[KeyText(key)]
      ensures r.Failure? ==> r.error == Refusal(key, "", IllegalStateException(""))
    {
      var found :- Lookup(key);
      if found.None? then Failure(Missing(key)) else Success(found.value)
    }

    // ----- presence -----

    /** `has(key)`: the key is present, even with a `null` value. */
    function Has(key: string): (r: Result<bool, ConfigError>)
      ensures r.Failure? <==> IsBlank(key)
      ensures r.Failure? ==> r.error == BLANK_KEY
      ensures r.Success? ==> (r.value <==> KeyText(key) in json)
    {
      var found :- Lookup(key);
      Success(found.Some?)
    }

    /** `hasValue(key)`: the key is present and its value is not `null`. */
    function HasValue(key: string): (r: Result<bool, ConfigError>)
      ensures r.Failure? <==> IsBlank(key)
      ensures r.Failure? ==> r.error == BLANK_KEY
      ensures r.Success? ==> (r.value <==> KeyText(key) in json && !IsNull(json[KeyText(key)]))
    {
      var present :- Has(key);
      Success(present && !IsNull(json[KeyText(key)]))
    }

    /** `isNull(key)`: false for a missing key. */
    function IsNullAt(key: string): (r: Result<bool, ConfigError>)
      ensures r.Failure? <==> IsBlank(key)
      ensures r.Failure? ==> r.error == BLANK_KEY
      ensures r.Success? ==> (r.value <==> Holds(key, {NULL}))
    {
      var found :- Lookup(key);
      Success(found.Some? && IsNull(found.value))
    }

    /** `size()`. */
    function Size(): (n: nat)
      ensures n == |json.Keys|
    {
      |json|
    }

    /** `isEmpty()`. */
    predicate IsEmpty()
      ensures IsEmpty() <==> Size() == 0
    {
      json == map[]
    }

    // ----- nested configurations -----

    /** `json(key)`: the configuration of a nested object. */
    function Json(key: string): (r: Result<JsonConfig, ConfigError>)
      ensures r.Success? <==> Holds(key, {JSON_OBJECT})
      ensures r.Success? ==> json[KeyText(key)].payload == ObjectP(r.value.json)
      ensures r.Failure? ==> r.error == Refusal(key, "a JSON object", IllegalStateException("Value is not a JSON object"))
    {
      var v :- Require(key);
      var fields :- Catch(key, "a JSON object", AsJson(v));
      Success(JsonConfig(fields))
    }

    /** `jsonOpt(key)`. */
    function JsonOpt(key: string): (r: Result<Option<JsonConfig>, ConfigError>)
      ensures r.Failure? <==> IsBlank(key)
      ensures r.Failure? ==> r.error == BLANK_KEY
      ensures r.Success? ==> (r.value.Some? <==> Holds(key, {JSON_OBJECT}))
      ensures r.Success? && r.value.Some? ==> json[KeyText(key)].payload == ObjectP(r.value.value.json)
    {
      var found :- Lookup(key);
      if found.None? then Success(None)
      else match AsJson(found.value)
        case Success(fields) => Success(Some(JsonConfig(fields)))
        case Failure(_) => Success(None)
    }

    // ----- text -----

    /** `text(key)`. */
    function Text(key: string): (r: Result<string, ConfigError>)
      ensures r.Success? <==> Holds(key, {STRING})
      ensures r.Success? ==> json[KeyText(key)].payload == StringP(r.value)
      ensures r.Failure? ==> r.error == Refusal(key, "a string", IllegalStateException("Value is not of type String"))
    {
      var v :- Require(key);
      Catch(key, "a string", AsString(v))
    }

    /** `text(key, defaultValue)`: the default for a missing key and for a value that is not a string. */
    function TextOr(key: string, defaultValue: string): (r: Result<string, ConfigError>)
      ensures r.Failure? <==> IsBlank(key)
      ensures r.Failure? ==> r.error == BLANK_KEY
      ensures r.Success? ==> r.value == if Holds(key, {STRING}) then json[KeyText(key)].payload.s else defaultValue
    {
      var found :- Lookup(key);
      if found.None? then Success(defaultValue)
      else match AsString(found.value)
        case Success(s) => Success(s)
        case Failure(_) => Success(defaultValue)
    }

    /** `textOpt(key)`. */
    function TextOpt(key: string): (r: Result<Option<string>, ConfigError>)
      ensures r.Failure? <==> IsBlank(key)
      ensures r.Failure? ==> r.error == BLANK_KEY
      ensures r.Success? ==> (r.value.Some? <==> Holds(key, {STRING}))
      ensures r.Success? && r.value.Some? ==> json[KeyText(key)].payload == StringP(r.value.value)
    {
      var found :- Lookup(key);
      if found.None? then Success(None)
      else match AsString(found.value)
        case Success(s) => Success(Some(s))
        case Failure(_) => Success(None)
    }

    // ----- integers -----

    /** `integer(key)`. */
    function Integer(key: string): (r: Result<int32, ConfigError>)
      ensures r.Success? <==> Holds(key, {INTEGER})
      ensures r.Success? ==> json[KeyText(key)].payload == IntegerP(r.value)
      ensures r.Failure? ==> r.error == Refusal(key, "an integer", IllegalStateException("Value is not of type Integer"))
    {
      var v :- Require(key);
      Catch(key, "an integer", AsInteger(v))
    }

    /** `integer(key, defaultValue)`. */
    function IntegerOr(key: string, defaultValue: int32): (r: Result<int32, ConfigError>)
      ensures r.Failure? <==> IsBlank(key)
      ensures r.Failure? ==> r.error == BLANK_KEY
      ensures r.Success? ==> r.value == if Holds(key, {INTEGER}) then json[KeyText(key)].payload.i else defaultValue
    {
      var found :- Lookup(key);
      if found.None? then Success(defaultValue)
      else match AsInteger(found.value)
        case Success(i) => Success(i)
        case Failure(_) => Success(defaultValue)
    }

    /** `integerOpt(key)`. */
    function IntegerOpt(key: string): (r: Result<Option<int32>, ConfigError>)
      ensures r.Failure? <==> IsBlank(key)
      ensures r.Failure? ==> r.error == BLANK_KEY
      ensures r.Success? ==> (r.value.Some? <==> Holds(key, {INTEGER}))
      ensures r.Success? && r.value.Some? ==> json[KeyText(key)].payload == IntegerP(r.value.value)
    {
      var found :- Lookup(key);
      if found.None? then Success(None)
      else match AsInteger(found.value)
        case Success(i) => Success(Some(i))
        case Failure(_) => Success(None)
    }

    // ----- floating point -----

    /** The `double` a DOUBLE or INTEGER value reads as. */
    function Widen(p: Payload): Double
      requires p.DoubleP? || p.IntegerP?
    {
      if p.DoubleP? then p.d else Widened(p.i)
    }

    /** `decimal(key)`: an INTEGER value is accepted and widened. */
    function Decimal(key: string): (r: Result<Double, ConfigError>)
      ensures r.Success? <==> Holds(key, {DOUBLE, INTEGER})
      ensures r.Success? ==> r.value == Widen(json[KeyText(key)].payload)
      ensures r.Failure? ==> r.error == Refusal(key, "a floating-point number", IllegalStateException("Value is not of type Double"))
    {
      var v :- Require(key);
      Catch(key, "a floating-point number", AsDouble(v))
    }

    /** `decimal(key, defaultValue)`. */
    function DecimalOr(key: string, defaultValue: Double): (r: Result<Double, ConfigError>)
      ensures r.Failure? <==> IsBlank(key)
      ensures r.Failure? ==> r.error == BLANK_KEY
      ensures r.Success? ==> r.value == if Holds(key, {DOUBLE, INTEGER}) then Widen(json[KeyText(key)].payload) else defaultValue
    {
      var found :- Lookup(key);
      if found.None? then Success(defaultValue)
      else match AsDouble(found.value)
        case Success(d) => Success(d)
        case Failure(_) => Success(defaultValue)
    }

    /** `decimalOpt(key)`. */
    function DecimalOpt(key: string): (r: Result<Option<Double>, ConfigError>)
      ensures r.Failure? <==> IsBlank(key)
      ensures r.Failure? ==> r.error == BLANK_KEY
      ensures r.Success? ==> (r.value.Some? <==> Holds(key, {DOUBLE, INTEGER}))
      ensures r.Success? && r.value.Some? ==> r.value.value == Widen(json[KeyText(key)].payload)
    {
      var found :- Lookup(key);
      if found.None? then Success(None)
      else match AsDouble(found.value)
        case Success(d) => Success(Some(d))
        case Failure(_) => Success(None)
    }

    // ----- booleans -----

    /** `bool(key)`. */
    function Bool(key: string): (r: Result<bool, ConfigError>)
      ensures r.Success? <==> Holds(key, {BOOLEAN})
      ensures r.Success? ==> json[KeyText(key)].payload == BooleanP(r.value)
      ensures r.Failure? ==> r.error == Refusal(key, "a boolean value", IllegalStateException("Value is not of type Boolean"))
    {
      var v :- Require(key);
      Catch(key, "a boolean value", AsBoolean(v))
    }

    /** `bool(key, defaultValue)`. */
    function BoolOr(key: string, defaultValue: bool): (r: Result<bool, ConfigError>)
      ensures r.Failure? <==> IsBlank(key)
      ensures r.Failure? ==> r.error == BLANK_KEY
      ensures r.Success? ==> r.value == if Holds(key, {BOOLEAN}) then json[KeyText(key)].payload.b else defaultValue
    {
      var found :- Lookup(key);
      if found.None? then Success(defaultValue)
      else match AsBoolean(found.value)
        case Success(b) => Success(b)
        case Failure(_) => Success(defaultValue)
    }

    /** `boolOpt(key)`. */
    function BoolOpt(key: string): (r: Result<Option<bool>, ConfigError>)
      ensures r.Failure? <==> IsBlank(key)
      ensures r.Failure? ==> r.error == BLANK_KEY
      ensures r.Success? ==> (r.value.Some? <==> Holds(key, {BOOLEAN}))
      ensures r.Success? && r.value.Some? ==> json[KeyText(key)].payload == BooleanP(r.value.value)
    {
      var found :- Lookup(key);
      if found.None? then Success(None)
      else match AsBoolean(found.value)
        case Success(b) => Success(Some(b))
        case Failure(_) => Success(None)
    }

    // ----- arrays and lists -----

    /** The elements of an ARRAY or LIST payload. */
    function Elements(p: Payload): seq<JsonValue>
      requires p.ArrayP? || p.ListP?
    {
      p.elems
    }

    /** `array(key)`: a LIST is accepted too. */
    function Array(key: string): (r: Result<seq<JsonValue>, ConfigError>)
      ensures r.Success? <==> Holds(key, {ARRAY, LIST})
      ensures r.Success? ==> r.value == Elements(json[KeyText(key)].payload)
      ensures r.Failure? ==> r.error == Refusal(key, "an array", IllegalStateException("Value is not an array"))
    {
      var v :- Require(key);
      Catch(key, "an array", AsArray(v))
    }

    /** `list(key)`: an ARRAY is accepted too. */
    function List(key: string): (r: Result<seq<JsonValue>, ConfigError>)
      ensures r.Success? <==> Holds(key, {ARRAY, LIST})
      ensures r.Success? ==> r.value == Elements(json[KeyText(key)].payload)
      ensures r.Failure? ==> r.error == Refusal(key, "a list", IllegalStateException("Value is not a list"))
    {
      var v :- Require(key);
      Catch(key, "a list", AsList(v))
    }

    /** `textList(key)`: every element must be a string; the first one that is not throws. */
    method TextList(key: string) returns (r: Result<seq<string>, ConfigError>)
      ensures List(key).Failure? ==> r == Failure(List(key).error)
      ensures List(key).Success? ==> var values := List(key).value;
        && (r.Success? <==> forall i :: 0 <= i < |values| ==> Type(values[i]) == STRING)
        && (r.Success? ==> |r.value| == |values| && forall i :: 0 <= i < |values| ==> values[i].payload == StringP(r.value[i]))
        && (r.Failure? ==> r.error == ElementNotA(key, "a string", IllegalStateException("Value is not of type String")))
    {
      var values :- List(key);
      var result: seq<string> := [];
      for i := 0 to |values|
        invariant |result| == i
        invariant forall j :: 0 <= j < i ==> values[j].payload == StringP(result[j])
      {
        var text := AsString(values[i]);
        if text.Failure? {
          return Failure(ElementNotA(key, "a string", text.error));
        }
        result := result + [text.value];
      }
      return Success(result);
    }

    /** `integerList(key)`. */
    method IntegerList(key: string) returns (r: Result<seq<int32>, ConfigError>)
      ensures List(key).Failure? ==> r == Failure(List(key).error)
      ensures List(key).Success? ==> var values := List(key).value;
        && (r.Success? <==> forall i :: 0 <= i < |values| ==> Type(values[i]) == INTEGER)
        && (r.Success? ==> |r.value| == |values| && forall i :: 0 <= i < |values| ==> values[i].payload == IntegerP(r.value[i]))
        && (r.Failure? ==> r.error == ElementNotA(key, "an integer", IllegalStateException("Value is not of type Integer")))
    {
      var values :- List(key);
      var result: seq<int32> := [];
      for i := 0 to |values|
        invariant |result| == i
        invariant forall j :: 0 <= j < i ==> values[j].payload == IntegerP(result[j])
      {
        var number := AsInteger(values[i]);
        if number.Failure? {
          return Failure(ElementNotA(key, "an integer", number.error));
        }
        result := result + [number.value];
      }
      return Success(result);
    }

    /** `jsonList(key)`: a configuration per element, each of which must be a JSON object. */
    method JsonList(key: string) returns (r: Result<seq<JsonConfig>, ConfigError>)
      ensures List(key).Failure? ==> r == Failure(List(key).error)
      ensures List(key).Success? ==> var values := List(key).value;
        && (r.Success? <==> forall i :: 0 <= i < |values| ==> Type(values[i]) == JSON_OBJECT)
        && (r.Success? ==> |r.value| == |values| && forall i :: 0 <= i < |values| ==> values[i].payload == ObjectP(r.value[i].json))
        && (r.Failure? ==> r.error == ElementNotA(key, "a JSON object", IllegalStateException("Value is not a JSON object")))
    {
      var values :- List(key);
      var result: seq<JsonConfig> := [];
      for i := 0 to |values|
        invariant |result| == i
        invariant forall j :: 0 <= j < i ==> values[j].payload == ObjectP(result[j].json)
      {
        var fields := AsJson(values[i]);
        if fields.Failure? {
          return Failure(ElementNotA(key, "a JSON object", fields.error));
        }
        result := result + [JsonConfig(fields.value)];
      }
      return Success(result);
    }
  }

  // ----- how the lookups relate -----

  /** The three forms of each getter agree: the Opt form is present exactly when the plain form succeeds, and the default form falls back exactly when it is empty. */
  lemma GetterFormsAgree(c: JsonConfig, key: string, text: string, number: int32, decimal: Double, flag: bool)
    requires !IsBlank(key)
    ensures c.Text(key).Success? <==> c.TextOpt(key).value.Some?
    ensures c.Text(key).Success? ==> c.TextOpt(key).value == Some(c.Text(key).value) && c.TextOr(key, text).value == c.Text(key).value
    ensures c.Text(key).Failure? ==> c.TextOr(key, text).value == text
    ensures c.Integer(key).Success? <==> c.IntegerOpt(key).value.Some?
    ensures c.Integer(key).Success? ==> c.IntegerOpt(key).value == Some(c.Integer(key).value) && c.IntegerOr(key, number).value == c.Integer(key).value
    ensures c.Integer(key).Failure? ==> c.IntegerOr(key, number).value == number
    ensures c.Decimal(key).Success? <==> c.DecimalOpt(key).value.Some?
    ensures c.Decimal(key).Success? ==> c.DecimalOpt(key).value == Some(c.Decimal(key).value) && c.DecimalOr(key, decimal).value == c.Decimal(key).value
    ensures c.Decimal(key).Failure? ==> c.DecimalOr(key, decimal).value == decimal
    ensures c.Bool(key).Success? <==> c.BoolOpt(key).value.Some?
    ensures c.Bool(key).Success? ==> c.BoolOpt(key).value == Some(c.Bool(key).value) && c.BoolOr(key, flag).value == c.Bool(key).value
    ensures c.Bool(key).Failure? ==> c.BoolOr(key, flag).value == flag
    ensures c.Json(key).Success? <==> c.JsonOpt(key).value.Some?
    ensures c.Json(key).Success? ==> c.JsonOpt(key).value == Some(c.Json(key).value)
  {
  }

  /** A missing key is reported as missing by every getter without a default, whatever type it asks for. */
  lemma MissingKeyIsMissing(c: JsonConfig, key: string)
    requires !IsBlank(key) && KeyText(key) !in c.json
    ensures c.Has(key) == Success(false) && c.HasValue(key) == Success(false) && c.IsNullAt(key) == Success(false)
    ensures c.Text(key) == Failure(Missing(key)) && c.Integer(key) == Failure(Missing(key))
    ensures c.Decimal(key) == Failure(Missing(key)) && c.Bool(key) == Failure(Missing(key))
    ensures c.Array(key) == Failure(Missing(key)) && c.List(key) == Failure(Missing(key)) && c.Json(key) == Failure(Missing(key))
  {
  }

  /** A present key holding `null` is there but has no value, and no typed getter accepts it. */
  lemma NullIsPresentButNoValue(c: JsonConfig, key: string)
    requires c.Holds(key, {NULL})
    ensures c.Has(key) == Success(true) && c.HasValue(key) == Success(false) && c.IsNullAt(key) == Success(true)
    ensures c.Text(key).Failure? && c.Integer(key).Failure? && c.Decimal(key).Failure? && c.Bool(key).Failure?
    ensures c.Array(key).Failure? && c.List(key).Failure? && c.Json(key).Failure?
  {
  }

  /** A nested configuration answers for the nested object: its getters read the nested map. */
  lemma NestedConfigReadsNestedObject(c: JsonConfig, key: string, inner: string)
    requires c.Json(key).Success?
    ensures c.Json(key).value.json == c.json[KeyText(key)].payload.fields
    ensures c.Json(key).value.Has(inner).Success? ==>
      (c.Json(key).value.Has(inner).value <==> KeyText(inner) in c.json[KeyText(key)].payload.fields)
  {
  }

  /** Configurations from several documents merge with later ones winning: a key the later document has reads from it, unless both hold objects. */
  lemma MergedConfigPrefersLater(earlier: Object, later: Object, key: string)
    requires !IsBlank(key)
    ensures var merged := JsonConfig(JM.MergeMaps(earlier, later));
      && (KeyText(key) !in later ==> merged.Lookup(key) == JsonConfig(earlier).Lookup(key))
      && (KeyText(key) in later && !JsonConfig(later).Holds(key, {JSON_OBJECT}) ==> merged.Lookup(key) == JsonConfig(later).Lookup(key))
      && (merged.Has(key).value <==> JsonConfig(earlier).Has(key).value || JsonConfig(later).Has(key).value)
  {
    JM.MergeByKey(earlier, later, KeyText(key));
  }

  /** `JsonConfig(String)`: a parse error becomes a `ConfigException` carrying it as its cause. */
  method FromString(content: string) returns (r: Result<JsonConfig, ConfigError>)
    ensures var s := G.Parse(content);
      && (s.Parsed? ==> r == Success(JsonConfig(s.value)))
      && (s.Failed? ==> r == Failure(ConfigException(PARSE_ERROR_MESSAGE, Some(ParseFailure(s.error)))))
  {
    var parser := new P.JsonParser();
    var parsed := parser.Parse(content);
    if parsed.Failure? {
      return Failure(ConfigException(PARSE_ERROR_MESSAGE, Some(ParseFailure(parsed.error))));
    }
    return Success(JsonConfig(parsed.value.data));
  }
}
