/** `Json`: a mutable map from keys to values, wrapping the `HashMap` field `data`. */
module JsonObjects {
  import opened Wrappers
  import opened JsonKeys
  import opened JsonValues

  class Json {
    var data: Object

    constructor ()
      ensures data == map[]
    {
      data := map[];
    }

    /** `put(JsonKey, JsonValue)`; `None` is Java's `null`, which is refused before anything changes. */
    method Put(key: Option<JsonKey>, value: Option<JsonValue>) returns (r: Outcome<Exception>)
      modifies this
      ensures key.None? ==> r == Fail(IllegalArgumentException("Key cannot be null"))
      ensures key.Some? && value.None? ==> r == Fail(IllegalArgumentException("Value cannot be null"))
      ensures r.Fail? ==> data == old(data)
      ensures r.Pass? <==> key.Some? && value.Some?
      ensures r.Pass? ==> data == old(data)[key.value := value.value]
    {
      if key.None? {
        return Fail(IllegalArgumentException("Key cannot be null"));
      }
      if value.None? {
        return Fail(IllegalArgumentException("Value cannot be null"));
      }
      data := data[key.value := value.value];
      r := Pass;
    }

    /** `put(String, JsonValue)`: the text is made a key first, so a blank text throws. */
    method PutText(key: string, value: Option<JsonValue>) returns (r: Outcome<Exception>)
      modifies this
      ensures IsBlank(key) ==> r == Fail(IllegalArgumentException(EMPTY_KEY_MESSAGE)) && data == old(data)
      ensures !IsBlank(key) ==> r.Pass? == value.Some?
      ensures !IsBlank(key) && value.None? ==> r == Fail(IllegalArgumentException("Value cannot be null"))
      ensures !IsBlank(key) && value.Some? ==> data == old(data)[KeyText(key) := value.value]
      ensures r.Fail? ==> data == old(data)
    {
      var k := NewKey(Some(key));
      if k.Failure? {
        return Fail(k.error);
      }
      r := Put(Some(k.value), value);
    }

    /** `get(JsonKey)`: `None` (Java's `null`) for an absent key. */
    function Get(key: JsonKey): (r: Option<JsonValue>)
      reads this
      ensures r.Some? <==> key in data
      ensures r.Some? ==> r.value == data[key]
    {
      if key in data then Some(data[key]) else None
    }

    /** `get(String)`. */
    function GetText(key: string): (r: Result<Option<JsonValue>, Exception>)
      reads this
      ensures r.Failure? <==> IsBlank(key)
      ensures r.Success? ==> r.value == Get(KeyText(key))
    {
      var k :- NewKey(Some(key));
      Success(Get(k))
    }

    /** `containsKey(JsonKey)`. */
    predicate ContainsKey(key: JsonKey)
      reads this
      ensures ContainsKey(key) <==> Get(key).Some?
    {
      key in data
    }

    /** `containsKey(String)`. */
    function ContainsKeyText(key: string): (r: Result<bool, Exception>)
      reads this
      ensures r.Failure? <==> IsBlank(key)
      ensures r.Success? ==> (r.value <==> KeyText(key) in data)
    {
      var k :- NewKey(Some(key));
      Success(ContainsKey(k))
    }

    /** `keySet()`. */
    function KeySet(): (r: set<JsonKey>)
      reads this
      ensures forall k :: k in r <==> ContainsKey(k)
    {
      data.Keys
    }

    /** `size()`. */
    function Size(): (r: nat)
      reads this
      ensures r == |KeySet()|
    {
      |data|
    }

    /** `isEmpty()`. */
    predicate IsEmpty()
      reads this
      ensures IsEmpty() <==> Size() == 0
    {
      data == map[]
    }

    /** `clear()`. */
    method Clear()
      modifies this
      ensures data == map[] && IsEmpty() && Size() == 0
      ensures forall k :: !ContainsKey(k)
    {
      data := map[];
    }
  }

  /** What a successful `put` leaves behind: the key reads back its value, every other key is untouched, and a key
      that was already present does not grow the map. */
  lemma PutReadsBack(data: Object, k: JsonKey, v: JsonValue)
    ensures k in data[k := v] && data[k := v][k] == v
    ensures forall j :: j in data && j != k ==> j in data[k := v] && data[k := v][j] == data[j]
    ensures |data[k := v]| == if k in data then |data| else |data| + 1
  {
    if k in data {
      assert data[k := v].Keys == data.Keys;
    } else {
      assert data[k := v].Keys == data.Keys + {k};
    }
  }
}
