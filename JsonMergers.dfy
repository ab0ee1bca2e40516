/**
 * `JsonMerger`: deep merge, where later objects win and two JSON objects under the same key
 * are merged recursively, and shallow merge, where later values simply replace earlier ones.
 */
module JsonMergers {
  import opened Wrappers
  import opened JsonKeys
  import opened JsonValues
  import opened JsonObjects

  // ----- what a merge computes -----

  /** Both values are JSON objects, so the merge goes into them. */
  predicate BothObjects(t: JsonValue, s: JsonValue) {
    Type(t) == JSON_OBJECT && Type(s) == JSON_OBJECT
  }

  /** `mergeInto(target, source)` on the contents of the two objects. */
  function MergeMaps(t: Object, s: Object): (r: Object)
    ensures r.Keys == t.Keys + s.Keys
    decreases ObjectP(s), 1
  {
    map k | k in t.Keys + s.Keys :: if k in s then MergeEntry(t, s, k) else t[k]
  }

  /** The value the merge puts under a key of the source. */
  function MergeEntry(t: Object, s: Object, k: JsonKey): JsonValue
    requires k in s
    decreases ObjectP(s), 0
  {
    if k in t && BothObjects(t[k], s[k]) then Plain(ObjectP(MergeMaps(t[k].payload.fields, s[k].payload.fields)))
    else s[k]
  }

  /** Merging a sequence of objects from left to right into an empty one. */
  function MergeAll(objects: seq<Object>): Object {
    if objects == [] then map[] else MergeMaps(MergeAll(objects[..|objects| - 1]), objects[|objects| - 1])
  }

  /** Shallow merging from left to right: each later value replaces the earlier one. */
  function ShallowAll(objects: seq<Object>): Object {
    if objects == [] then map[] else ShallowAll(objects[..|objects| - 1]) + objects[|objects| - 1]
  }

  /** The contents of the objects of an argument list that are not `null`, in order. */
  function Present(jsons: seq<Json?>): seq<Object>
    reads set i | 0 <= i < |jsons| && jsons[i] != null :: jsons[i]
  {
    if jsons == [] then []
    else Present(jsons[..|jsons| - 1]) + (if jsons[|jsons| - 1] == null then [] else [jsons[|jsons| - 1].data])
  }

  // ----- nesting depth, which bounds the recursion of `mergeInto` -----

  /** How deeply JSON objects nest inside `m`. */
  ghost function Depth(m: Object): nat
    decreases ObjectP(m), 1
  {
    DepthOver(m, m.Keys)
  }

  ghost function DepthOver(m: Object, keys: set<JsonKey>): nat
    requires keys <= m.Keys
    decreases ObjectP(m), 0, keys
  {
    if keys == {} then 0
    else
      var k :| k in keys;
      var here := if m[k].payload.ObjectP? then 1 + Depth(m[k].payload.fields) else 0;
      var rest := DepthOver(m, keys - {k});
      if here > rest then here else rest
  }

  lemma {:induction false} DepthOverBounds(m: Object, keys: set<JsonKey>, k: JsonKey)
    requires keys <= m.Keys && k in keys && m[k].payload.ObjectP?
    ensures Depth(m[k].payload.fields) < DepthOver(m, keys)
    decreases keys
  {
    var j :| j in keys && DepthOver(m, keys) == (
      var here := if m[j].payload.ObjectP? then 1 + Depth(m[j].payload.fields) else 0;
      var rest := DepthOver(m, keys - {j});
      if here > rest then here else rest);
    if j != k {
      DepthOverBounds(m, keys - {j}, k);
    }
  }

  /** A nested object is less deep than the object holding it. */
  lemma NestedIsShallower(m: Object, k: JsonKey)
    requires k in m && m[k].payload.ObjectP?
    ensures Depth(m[k].payload.fields) < Depth(m)
  {
    DepthOverBounds(m, m.Keys, k);
  }

  // ----- the merger -----

  /** `mergeInto(target, source)`: `source` is read only, so its contents stand for it. */
  method MergeInto(target: Json, source: Object)
    modifies target
    ensures target.data == MergeMaps(old(target.data), source)
    decreases Depth(target.data) + Depth(source), 1
  {
    ghost var original := target.data;
    var keys := source.Keys;
    while keys != {}
      invariant keys <= source.Keys
      invariant target.data.Keys == original.Keys + (source.Keys - keys)
      invariant forall k :: k in target.data ==> target.data[k] == if k in source && k !in keys then MergeEntry(original, source, k) else original[k]
      decreases keys
    {
      var key :| key in keys;
      var sourceValue := source[key];
      var targetValue := target.Get(key);
      assert targetValue.Some? ==> targetValue.value == original[key];
      var merged := sourceValue;
      if targetValue.Some? && Type(sourceValue) == JSON_OBJECT && Type(targetValue.value) == JSON_OBJECT {
        NestedIsShallower(original, key);
        NestedIsShallower(source, key);
        merged := MergeNested(targetValue.value, sourceValue);
      }
      assert merged == MergeEntry(original, source, key);
      var _ := target.Put(Some(key), Some(merged));
      keys := keys - {key};
    }
    MergedPointwise(target.data, original, source);
  }

  /** The branch of `mergeInto` for two JSON objects: both are merged, in order, into a new one. */
  method MergeNested(targetValue: JsonValue, sourceValue: JsonValue) returns (merged: JsonValue)
    requires BothObjects(targetValue, sourceValue)
    ensures merged == Plain(ObjectP(MergeMaps(targetValue.payload.fields, sourceValue.payload.fields)))
    decreases Depth(targetValue.payload.fields) + Depth(sourceValue.payload.fields), 2
  {
    var mergedNested := new Json();
    var targetJson := AsJson(targetValue);
    var sourceJson := AsJson(sourceValue);
    assert Depth(mergedNested.data) == 0;
    MergeInto(mergedNested, targetJson.value);
    MergeIntoEmpty(targetJson.value);
    MergeInto(mergedNested, sourceJson.value);
    var boxed := NewValue(JJson(mergedNested.data));
    merged := boxed.value;
  }

  /** `merge(Json...)`: a new object, into which every argument that is not `null` is merged in turn. */
  method Merge(jsons: Option<seq<Json?>>) returns (result: Json)
    ensures fresh(result)
    ensures jsons.None? ==> result.data == map[]
    ensures jsons.Some? ==> result.data == MergeAll(Present(jsons.value))
  {
    if jsons.None? || |jsons.value| == 0 {
      result := new Json();
      return;
    }
    result := new Json();
    var all := jsons.value;
    for i := 0 to |all|
      invariant fresh(result)
      invariant result.data == MergeAll(Present(all[..i]))
    {
      assert all[..i + 1][..i] == all[..i];
      assert result !in set j | 0 <= j < |all| && all[j] != null :: all[j];
      ghost var merged := Present(all[..i]);
      if all[i] != null {
        assert Present(all[..i + 1]) == merged + [all[i].data];
        MergeInto(result, all[i].data);
      } else {
        assert Present(all[..i + 1]) == merged;
      }
    }
    assert all[..|all|] == all;
  }

  /** `merge(List<Json>)`. */
  method MergeList(jsons: Option<seq<Json?>>) returns (result: Json)
    ensures fresh(result)
    ensures jsons.None? ==> result.data == map[]
    ensures jsons.Some? ==> result.data == MergeAll(Present(jsons.value))
  {
    if jsons.None? || |jsons.value| == 0 {
      result := new Json();
      return;
    }
    result := Merge(jsons);
  }

  /** `shallowMerge(Json...)`. */
  method ShallowMerge(jsons: Option<seq<Json?>>) returns (result: Json)
    ensures fresh(result)
    ensures jsons.None? ==> result.data == map[]
    ensures jsons.Some? ==> result.data == ShallowAll(Present(jsons.value))
  {
    if jsons.None? || |jsons.value| == 0 {
      result := new Json();
      return;
    }
    result := new Json();
    var all := jsons.value;
    for i := 0 to |all|
      invariant fresh(result)
      invariant result.data == ShallowAll(Present(all[..i]))
    {
      assert all[..i + 1][..i] == all[..i];
      assert result !in set j | 0 <= j < |all| && all[j] != null :: all[j];
      ghost var merged := Present(all[..i]);
      var json := all[i];
      if json != null {
        PutAll(result, json.data);
        assert Present(all[..i + 1]) == merged + [json.data];
      } else {
        assert Present(all[..i + 1]) == merged;
      }
    }
    assert all[..|all|] == all;
  }

  /** A map that agrees with the merge at every key is the merge. */
  lemma MergedPointwise(m: Object, t: Object, s: Object)
    requires m.Keys == t.Keys + s.Keys
    requires forall k :: k in m ==> m[k] == if k in s then MergeEntry(t, s, k) else t[k]
    ensures m == MergeMaps(t, s)
  {
  }

  /** The inner loop of `shallowMerge`: every entry of `source` is put into `target`. */
  method PutAll(target: Json, source: Object)
    modifies target
    ensures target.data == old(target.data) + source
  {
    ghost var before := target.data;
    var keys := source.Keys;
    while keys != {}
      invariant keys <= source.Keys
      invariant target.data.Keys == before.Keys + (source.Keys - keys)
      invariant forall k :: k in target.data ==> target.data[k] == if k in source && k !in keys then source[k] else before[k]
      decreases keys
    {
      var key :| key in keys;
      var _ := target.Put(Some(key), Some(source[key]));
      keys := keys - {key};
    }
    assert target.data == before + source;
  }

  // ----- properties -----

  /** Merging into an empty object copies the source. */
  lemma MergeIntoEmpty(s: Object)
    ensures MergeMaps(map[], s) == s
  {
    assert MergeMaps(map[], s).Keys == s.Keys;
  }

  /** Merging an empty source leaves the target as it was. */
  lemma MergeEmptySource(t: Object)
    ensures MergeMaps(t, map[]) == t
  {
    assert MergeMaps(t, map[]).Keys == t.Keys;
  }

  /** For every key: the source's value wins unless both are objects, which are merged; keys only in the target keep their value. */
  lemma MergeByKey(t: Object, s: Object, k: JsonKey)
    ensures k in MergeMaps(t, s) <==> k in t || k in s
    ensures k in t && k !in s ==> MergeMaps(t, s)[k] == t[k]
    ensures k in s && !(k in t && BothObjects(t[k], s[k])) ==> MergeMaps(t, s)[k] == s[k]
    ensures k in s && k in t && BothObjects(t[k], s[k]) ==>
      MergeMaps(t, s)[k] == Plain(ObjectP(MergeMaps(t[k].payload.fields, s[k].payload.fields)))
  {
  }

  /** Objects whose nested objects are all plain values (not array elements). */
  predicate PlainObjects(m: Object)
    decreases ObjectP(m)
  {
    forall k :: k in m && m[k].payload.ObjectP? ==> m[k].Plain? && PlainObjects(m[k].payload.fields)
  }

  /** Merging an object with itself gives it back, when its nested objects are plain values. */
  lemma {:induction false} MergeSelf(m: Object)
    requires PlainObjects(m)
    ensures MergeMaps(m, m) == m
    decreases ObjectP(m)
  {
    forall k | k in m && m[k].payload.ObjectP?
      ensures MergeMaps(m, m)[k] == m[k]
    {
      MergeSelf(m[k].payload.fields);
    }
    assert MergeMaps(m, m).Keys == m.Keys;
  }

  /** Where no key holds an object on both sides, deep and shallow merge agree. */
  lemma DeepIsShallowWithoutNestedConflicts(t: Object, s: Object)
    requires forall k :: k in t && k in s ==> !BothObjects(t[k], s[k])
    ensures MergeMaps(t, s) == t + s
  {
    assert MergeMaps(t, s).Keys == (t + s).Keys;
  }

  const K: JsonKey := var w := KeyText("k"); assert w.key[0] == 'k'; w
  const X: JsonKey := var w := KeyText("x"); assert w.key[0] == 'x'; w
  const Y: JsonKey := var w := KeyText("y"); assert w.key[0] == 'y'; w

  lemma MergeOneKey(k: JsonKey, t: JsonValue, s: JsonValue)
    ensures MergeMaps(map[k := t], map[k := s]) == map[k := MergeEntry(map[k := t], map[k := s], k)]
  {
    MergedPointwise(map[k := MergeEntry(map[k := t], map[k := s], k)], map[k := t], map[k := s]);
  }

  lemma MergeTwoKeys(x: JsonKey, v: JsonValue, y: JsonKey, w: JsonValue)
    requires x != y
    ensures MergeMaps(map[x := v], map[y := w]) == map[x := v, y := w]
  {
    MergedPointwise(map[x := v, y := w], map[x := v], map[y := w]);
  }

  /** Merging `{"k": {"x": 1}}`, then `{"k": 5}`, then `{"k": {"y": 2}}` from the left: the number drops the first object. */
  lemma MergeLeftGrouping()
    ensures var a: Object := map[K := Plain(ObjectP(map[X := Plain(IntegerP(1))]))];
      var b: Object := map[K := Plain(IntegerP(5))];
      var c: Object := map[K := Plain(ObjectP(map[Y := Plain(IntegerP(2))]))];
      MergeMaps(MergeMaps(a, b), c) == c
  {
    var one := Plain(ObjectP(map[X := Plain(IntegerP(1))]));
    var five := Plain(IntegerP(5));
    var two := Plain(ObjectP(map[Y := Plain(IntegerP(2))]));
    MergeOneKey(K, one, five);
    MergeOneKey(K, five, two);
  }

  /** The same three objects grouped from the right: the two objects meet and are merged. */
  lemma MergeRightGrouping()
    ensures var a: Object := map[K := Plain(ObjectP(map[X := Plain(IntegerP(1))]))];
      var b: Object := map[K := Plain(IntegerP(5))];
      var c: Object := map[K := Plain(ObjectP(map[Y := Plain(IntegerP(2))]))];
      MergeMaps(a, MergeMaps(b, c)) == map[K := Plain(ObjectP(map[X := Plain(IntegerP(1)), Y := Plain(IntegerP(2))]))]
  {
    var one := Plain(ObjectP(map[X := Plain(IntegerP(1))]));
    var five := Plain(IntegerP(5));
    var two := Plain(ObjectP(map[Y := Plain(IntegerP(2))]));
    assert X != Y by { assert X.key[0] != Y.key[0]; }
    MergeOneKey(K, five, two);
    MergeOneKey(K, one, two);
    MergeTwoKeys(X, Plain(IntegerP(1)), Y, Plain(IntegerP(2)));
  }

  /** The order of merging matters: merging is not associative. */
  lemma MergeIsNotAssociative()
    ensures exists a: Object, b: Object, c: Object :: MergeMaps(MergeMaps(a, b), c) != MergeMaps(a, MergeMaps(b, c))
  {
    var a: Object := map[K := Plain(ObjectP(map[X := Plain(IntegerP(1))]))];
    var b: Object := map[K := Plain(IntegerP(5))];
    var c: Object := map[K := Plain(ObjectP(map[Y := Plain(IntegerP(2))]))];
    MergeLeftGrouping();
    MergeRightGrouping();
    assert X != Y by { assert X.key[0] != Y.key[0]; }
    assert X !in c[K].payload.fields;
    assert X in MergeMaps(a, MergeMaps(b, c))[K].payload.fields;
  }

  /** Every key any argument has is in the merge, and the keys are exactly those. */
  lemma {:induction false} MergeAllKeys(objects: seq<Object>)
    ensures MergeAll(objects).Keys == set i, k | 0 <= i < |objects| && k in objects[i] :: k
  {
    if objects != [] {
      MergeAllKeys(objects[..|objects| - 1]);
    }
  }
}
