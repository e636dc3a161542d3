/** `flattenValue`: a depth-first walk of a JSON tree that appends one
    (path, value) pair per scalar leaf and per empty array. Go visits an
    object's keys in the map's randomized iteration order; the model takes that
    order as a parameter, `order(prefix, object)`, so every statement below
    holds for every order Go might pick. */
module Flattener {
  import opened JsonValue
  import opened PathGrammar

  /** The key order in which `for key, val := range v` visits the object
      found at `prefix`. */
  type KeyOrder = (string, map<string, Json>) -> seq<string>

  /** `keys` lists every key of `m` exactly once. */
  ghost predicate Enumerates(keys: seq<string>, m: map<string, Json>)
  {
    && (forall i :: 0 <= i < |keys| ==> keys[i] in m)
    && (forall i, j :: 0 <= i < j < |keys| ==> keys[i] != keys[j])
    && (forall k :: k in m ==> k in keys)
  }

  /** An iteration order Go's `range` could produce: each object is visited
      once per key. */
  ghost predicate ValidOrder(order: KeyOrder)
  {
    forall prefix, m {:trigger Enumerates(order(prefix, m), m)} :: Enumerates(order(prefix, m), m)
  }

  /** The path of an object member: the bare key at the root, otherwise
      `prefix.key`. */
  function ChildPath(prefix: string, key: string): string
  {
    if prefix == "" then key else prefix + "." + key
  }

  /** The path of array element `i`: `prefix[i]`. */
  function ElementPath(prefix: string, i: nat): string
  {
    prefix + "[" + Itoa(i) + "]"
  }

  /** What `flattenValue(v, prefix, &result)` appends to `result`. */
  function Flatten(v: Json, prefix: string, order: KeyOrder): (pvs: seq<PathValue>)
    requires ValidOrder(order)
    ensures IsScalar(v) ==> pvs == [PathValue(prefix, v)]
    ensures v == Arr([]) ==> pvs == [PathValue(prefix + "[]", Null)]
    ensures v == Obj(map[]) ==> pvs == []
    decreases v, 1
  {
    match v
    case Obj(m) =>
      assert Enumerates(order(prefix, m), m);
      FlattenFields(m, order(prefix, m), prefix, order)
    case Arr(items) =>
      if |items| == 0 then [PathValue(prefix + "[]", Null)]
      else FlattenItems(items, |items|, prefix, order)
    case _ => [PathValue(prefix, v)]
  }

  /** The pairs of the members `keys` of an object at `prefix`, in that order. */
  function FlattenFields(m: map<string, Json>, keys: seq<string>, prefix: string, order: KeyOrder)
    : seq<PathValue>
    requires ValidOrder(order)
    requires forall i :: 0 <= i < |keys| ==> keys[i] in m
    decreases Obj(m), 0, |keys|
  {
    if keys == [] then []
    else
      var key := keys[|keys| - 1];
      var path := ChildPath(prefix, key);
      FlattenFields(m, keys[..|keys| - 1], prefix, order) + Flatten(m[key], path, order)
  }

  /** The pairs of the first `n` elements of an array at `prefix`. */
  function FlattenItems(items: seq<Json>, n: nat, prefix: string, order: KeyOrder)
    : seq<PathValue>
    requires ValidOrder(order)
    requires n <= |items|
    decreases Arr(items), 0, n
  {
    if n == 0 then []
    else
      var path := ElementPath(prefix, n - 1);
      FlattenItems(items, n - 1, prefix, order) + Flatten(items[n - 1], path, order)
  }

  /** `flattenValue`: appends the pairs of `data` to the accumulator. It has
      no failing case (Go's error result is always nil). The two loops of the
      Go function, over an object's keys and over an array's elements, are the
      methods FlattenObject and FlattenArray. */
  method FlattenValue(data: Json, prefix: string, order: KeyOrder, acc: seq<PathValue>)
    returns (result: seq<PathValue>)
    requires ValidOrder(order)
    ensures result == acc + Flatten(data, prefix, order)
    decreases data, 1
  {
    match data
    case Obj(m) =>
      result := FlattenObject(m, prefix, order, acc);
    case Arr(items) =>
      if |items| == 0 {
        result := acc + [PathValue(prefix + "[]", Null)];
      } else {
        result := FlattenArray(items, prefix, order, acc);
      }
    case _ =>
      result := acc + [PathValue(prefix, data)];
  }

  /** The `case map[string]any` loop of flattenValue. */
  method FlattenObject(m: map<string, Json>, prefix: string, order: KeyOrder, acc: seq<PathValue>)
    returns (result: seq<PathValue>)
    requires ValidOrder(order)
    ensures result == acc + Flatten(Obj(m), prefix, order)
    decreases Obj(m), 0
  {
    var keys := order(prefix, m);
    assert Enumerates(keys, m);
    result := acc;
    for j := 0 to |keys|
      invariant result == acc + FlattenFields(m, keys[..j], prefix, order)
    {
      var key := keys[j];
      var path := key;
      if prefix != "" {
        path := prefix + "." + key;
      }
      FlattenFieldsStep(m, keys, j, prefix, order);
      AppendAssoc(acc, FlattenFields(m, keys[..j], prefix, order), Flatten(m[key], ChildPath(prefix, key), order));
      result := FlattenValue(m[key], path, order, result);
    }
    assert keys[..|keys|] == keys;
  }

  /** The `case []any` loop of flattenValue, for a non-empty array. */
  method FlattenArray(items: seq<Json>, prefix: string, order: KeyOrder, acc: seq<PathValue>)
    returns (result: seq<PathValue>)
    requires ValidOrder(order)
    requires |items| > 0
    ensures result == acc + Flatten(Arr(items), prefix, order)
    decreases Arr(items), 0
  {
    result := acc;
    for i := 0 to |items|
      invariant result == acc + FlattenItems(items, i, prefix, order)
    {
      AppendAssoc(acc, FlattenItems(items, i, prefix, order), Flatten(items[i], ElementPath(prefix, i), order));
      result := FlattenValue(items[i], prefix + "[" + Itoa(i) + "]", order, result);
    }
  }

  lemma AppendAssoc(a: seq<PathValue>, b: seq<PathValue>, c: seq<PathValue>)
    ensures a + (b + c) == (a + b) + c
  {
  }

  /** One more key of the loop in FlattenValue. */
  lemma FlattenFieldsStep(m: map<string, Json>, keys: seq<string>, j: nat, prefix: string, order: KeyOrder)
    requires ValidOrder(order)
    requires j < |keys|
    requires forall i :: 0 <= i < |keys| ==> keys[i] in m
    ensures FlattenFields(m, keys[..j + 1], prefix, order)
         == FlattenFields(m, keys[..j], prefix, order) + Flatten(m[keys[j]], ChildPath(prefix, keys[j]), order)
  {
    assert keys[..j + 1][..j] == keys[..j];
  }

  /** `FlattenJSON` once its argument is a decoded tree: flatten from the
      empty prefix into an empty list. */
  method FlattenJSON(data: Json, order: KeyOrder) returns (result: seq<PathValue>)
    requires ValidOrder(order)
    ensures result == Flatten(data, "", order)
  {
    result := FlattenValue(data, "", order, []);
  }

  /** Every pair holds a scalar (an object or array is never emitted as a
      value) and every path extends the prefix it was flattened under. */
  lemma {:induction false} FlattenPairs(v: Json, prefix: string, order: KeyOrder)
    requires ValidOrder(order)
    ensures forall pv :: pv in Flatten(v, prefix, order) ==> IsScalar(pv.value) && prefix <= pv.path
    decreases v, 1
  {
    match v
    case Obj(m) =>
      assert Enumerates(order(prefix, m), m);
      FlattenFieldsPairs(m, order(prefix, m), prefix, order);
    case Arr(items) =>
      if |items| > 0 {
        FlattenItemsPairs(items, |items|, prefix, order);
      }
    case _ =>
  }

  lemma {:induction false} FlattenFieldsPairs(m: map<string, Json>, keys: seq<string>, prefix: string,
                                              order: KeyOrder)
    requires ValidOrder(order)
    requires forall i :: 0 <= i < |keys| ==> keys[i] in m
    ensures forall pv :: pv in FlattenFields(m, keys, prefix, order) ==> IsScalar(pv.value) && prefix <= pv.path
    decreases Obj(m), 0, |keys|
  {
    if keys != [] {
      var key := keys[|keys| - 1];
      FlattenFieldsPairs(m, keys[..|keys| - 1], prefix, order);
      FlattenPairs(m[key], ChildPath(prefix, key), order);
      assert prefix <= ChildPath(prefix, key);
    }
  }

  lemma {:induction false} FlattenItemsPairs(items: seq<Json>, n: nat, prefix: string, order: KeyOrder)
    requires ValidOrder(order)
    requires n <= |items|
    ensures forall pv :: pv in FlattenItems(items, n, prefix, order) ==> IsScalar(pv.value) && prefix <= pv.path
    decreases Arr(items), 0, n
  {
    if n > 0 {
      FlattenItemsPairs(items, n - 1, prefix, order);
      FlattenPairs(items[n - 1], ElementPath(prefix, n - 1), order);
      assert prefix <= ElementPath(prefix, n - 1);
    }
  }

  // ---------------------------------------------------------------------------
  // How many pairs: one per scalar leaf and one per empty array, whatever the
  // key order.
  // ---------------------------------------------------------------------------

  ghost function Pick(ks: set<string>): string
    requires ks != {}
  {
    var k :| k in ks; k
  }

  /** Scalar leaves plus empty arrays; an empty object counts nothing. Defined
      without any key order. */
  ghost function LeafCount(v: Json): nat
    decreases v, 1
  {
    match v
    case Obj(m) => FieldsLeafCount(m, m.Keys)
    case Arr(items) => if |items| == 0 then 1 else ItemsLeafCount(items, |items|)
    case _ => 1
  }

  ghost function FieldsLeafCount(m: map<string, Json>, ks: set<string>): nat
    requires ks <= m.Keys
    decreases Obj(m), 0, ks
  {
    if ks == {} then 0
    else
      var k := Pick(ks);
      LeafCount(m[k]) + FieldsLeafCount(m, ks - {k})
  }

  ghost function ItemsLeafCount(items: seq<Json>, n: nat): nat
    requires n <= |items|
    decreases Arr(items), 0, n
  {
    if n == 0 then 0 else ItemsLeafCount(items, n - 1) + LeafCount(items[n - 1])
  }

  /** The sum over a key set does not depend on which key is taken first. */
  lemma {:induction false} FieldsLeafCountRemove(m: map<string, Json>, ks: set<string>, k: string)
    requires ks <= m.Keys && k in ks
    ensures FieldsLeafCount(m, ks) == LeafCount(m[k]) + FieldsLeafCount(m, ks - {k})
    decreases ks
  {
    var p := Pick(ks);
    if p != k {
      FieldsLeafCountRemove(m, ks - {p}, k);
      FieldsLeafCountRemove(m, ks - {k}, p);
      assert ks - {p} - {k} == ks - {k} - {p};
    }
  }

  function KeySet(keys: seq<string>): set<string>
  {
    set k | k in keys
  }

  /** Pair count of a flattened tree: its scalar leaves plus its empty arrays,
      for every key order. */
  lemma {:induction false} FlattenLength(v: Json, prefix: string, order: KeyOrder)
    requires ValidOrder(order)
    ensures |Flatten(v, prefix, order)| == LeafCount(v)
    decreases v, 1
  {
    match v
    case Obj(m) =>
      var keys := order(prefix, m);
      assert Enumerates(keys, m);
      FlattenFieldsLength(m, keys, prefix, order);
      assert KeySet(keys) == m.Keys;
    case Arr(items) =>
      if |items| > 0 {
        FlattenItemsLength(items, |items|, prefix, order);
      }
    case _ =>
  }

  lemma {:induction false} FlattenFieldsLength(m: map<string, Json>, keys: seq<string>, prefix: string,
                                               order: KeyOrder)
    requires ValidOrder(order)
    requires forall i :: 0 <= i < |keys| ==> keys[i] in m
    requires forall i, j :: 0 <= i < j < |keys| ==> keys[i] != keys[j]
    ensures |FlattenFields(m, keys, prefix, order)| == FieldsLeafCount(m, KeySet(keys))
    decreases Obj(m), 0, |keys|
  {
    if keys != [] {
      var init, key := keys[..|keys| - 1], keys[|keys| - 1];
      FlattenFieldsLength(m, init, prefix, order);
      FlattenLength(m[key], ChildPath(prefix, key), order);
      assert KeySet(keys) - {key} == KeySet(init) by {
        assert keys == init + [key];
      }
      FieldsLeafCountRemove(m, KeySet(keys), key);
    }
  }

  lemma {:induction false} FlattenItemsLength(items: seq<Json>, n: nat, prefix: string, order: KeyOrder)
    requires ValidOrder(order)
    requires n <= |items|
    ensures |FlattenItems(items, n, prefix, order)| == ItemsLeafCount(items, n)
    decreases Arr(items), 0, n
  {
    if n > 0 {
      FlattenItemsLength(items, n - 1, prefix, order);
      FlattenLength(items[n - 1], ElementPath(prefix, n - 1), order);
    }
  }

  /** `{"a": []}` flattens to the single sentinel pair `("a[]", null)`. */
  lemma FlattenEmptyArraySentinel(order: KeyOrder)
    requires ValidOrder(order)
    ensures Flatten(Obj(map["a" := Arr([])]), "", order) == [PathValue("a[]", Null)]
  {
    var m := map["a" := Arr([])];
    var keys := order("", m);
    assert Enumerates(keys, m);
    assert "a" in keys;
    assert keys[0] == "a" && keys[|keys| - 1] in m;
    assert keys == ["a"];
    assert keys[..0] == [];
    assert FlattenFields(m, keys, "", order) == Flatten(Arr([]), "a", order);
    assert Flatten(Obj(m), "", order) == FlattenFields(m, keys, "", order);
    assert "a" + "[]" == "a[]";
  }

  // ---------------------------------------------------------------------------
  // Relocating a flattened subtree: the pairs of a node under `base` are the
  // pairs of the same node flattened at the root, with `base.` in front.
  // ---------------------------------------------------------------------------

  /** Each path with `p` in front. */
  function Prefixed(p: string, pvs: seq<PathValue>): (r: seq<PathValue>)
    ensures |r| == |pvs|
    ensures forall i :: 0 <= i < |r| ==> r[i] == PathValue(p + pvs[i].path, pvs[i].value)
  {
    seq(|pvs|, i requires 0 <= i < |pvs| => PathValue(p + pvs[i].path, pvs[i].value))
  }

  lemma PrefixedAppend(p: string, a: seq<PathValue>, b: seq<PathValue>)
    ensures Prefixed(p, a + b) == Prefixed(p, a) + Prefixed(p, b)
  {
  }

  /** The key order as seen by a subtree that sits under `base`. */
  function Under(order: KeyOrder, base: string): KeyOrder
  {
    (q, m) => order(if q == "" then base else base + "." + q, m)
  }

  lemma UnderValid(order: KeyOrder, base: string)
    requires ValidOrder(order)
    ensures ValidOrder(Under(order, base))
  {
    forall q, m ensures Enumerates(Under(order, base)(q, m), m) {
      assert Enumerates(order(if q == "" then base else base + "." + q, m), m);
    }
  }

  /** Flattening at `base.q` is flattening at `q` with `base.` in front. */
  lemma {:induction false} FlattenRelocate(v: Json, base: string, q: string, order: KeyOrder)
    requires ValidOrder(order)
    requires q != ""
    requires ValidOrder(Under(order, base))
    ensures Flatten(v, base + "." + q, order) == Prefixed(base + ".", Flatten(v, q, Under(order, base)))
    decreases v, 1
  {
    UnderValid(order, base);
    var under := Under(order, base);
    match v
    case Obj(m) =>
      assert under(q, m) == order(base + "." + q, m);
      assert Enumerates(order(base + "." + q, m), m);
      FlattenFieldsRelocate(m, order(base + "." + q, m), base, q, order);
    case Arr(items) =>
      if |items| > 0 {
        FlattenItemsRelocate(items, |items|, base, q, order);
      } else {
        assert base + "." + q + "[]" == base + "." + (q + "[]");
      }
    case _ =>
  }

  lemma {:induction false} FlattenFieldsRelocate(m: map<string, Json>, keys: seq<string>, base: string, q: string,
                                                 order: KeyOrder)
    requires ValidOrder(order)
    requires q != ""
    requires forall i :: 0 <= i < |keys| ==> keys[i] in m
    requires ValidOrder(Under(order, base))
    ensures FlattenFields(m, keys, base + "." + q, order)
         == Prefixed(base + ".", FlattenFields(m, keys, q, Under(order, base)))
    decreases Obj(m), 0, |keys|
  {
    UnderValid(order, base);
    if keys != [] {
      var key := keys[|keys| - 1];
      FlattenFieldsRelocate(m, keys[..|keys| - 1], base, q, order);
      assert ChildPath(base + "." + q, key) == base + "." + ChildPath(q, key);
      FlattenRelocate(m[key], base, ChildPath(q, key), order);
      PrefixedAppend(base + ".", FlattenFields(m, keys[..|keys| - 1], q, Under(order, base)),
                     Flatten(m[key], ChildPath(q, key), Under(order, base)));
    }
  }

  lemma {:induction false} FlattenItemsRelocate(items: seq<Json>, n: nat, base: string, q: string,
                                                order: KeyOrder)
    requires ValidOrder(order)
    requires q != ""
    requires n <= |items|
    requires ValidOrder(Under(order, base))
    ensures FlattenItems(items, n, base + "." + q, order)
         == Prefixed(base + ".", FlattenItems(items, n, q, Under(order, base)))
    decreases Arr(items), 0, n
  {
    UnderValid(order, base);
    if n > 0 {
      FlattenItemsRelocate(items, n - 1, base, q, order);
      assert ElementPath(base + "." + q, n - 1) == base + "." + ElementPath(q, n - 1);
      FlattenRelocate(items[n - 1], base, ElementPath(q, n - 1), order);
      PrefixedAppend(base + ".", FlattenItems(items, n - 1, q, Under(order, base)),
                     Flatten(items[n - 1], ElementPath(q, n - 1), Under(order, base)));
    }
  }

  /** An object flattened under a non-empty `base` gives the pairs it gives at
      the root, each path prefixed with `base.`, provided no key is empty. */
  lemma {:induction false} FlattenObjectUnder(m: map<string, Json>, base: string, order: KeyOrder)
    requires ValidOrder(order)
    requires base != ""
    requires forall k :: k in m ==> k != ""
    requires ValidOrder(Under(order, base))
    ensures Flatten(Obj(m), base, order) == Prefixed(base + ".", Flatten(Obj(m), "", Under(order, base)))
  {
    UnderValid(order, base);
    var keys := order(base, m);
    assert Under(order, base)("", m) == keys;
    assert Enumerates(keys, m);
    FlattenFieldsUnder(m, keys, base, order);
  }

  lemma {:induction false} FlattenFieldsUnder(m: map<string, Json>, keys: seq<string>, base: string,
                                              order: KeyOrder)
    requires ValidOrder(order)
    requires base != ""
    requires forall i :: 0 <= i < |keys| ==> keys[i] in m && keys[i] != ""
    requires ValidOrder(Under(order, base))
    ensures FlattenFields(m, keys, base, order)
         == Prefixed(base + ".", FlattenFields(m, keys, "", Under(order, base)))
    decreases |keys|
  {
    UnderValid(order, base);
    if keys != [] {
      var key := keys[|keys| - 1];
      FlattenFieldsUnder(m, keys[..|keys| - 1], base, order);
      FlattenRelocate(m[key], base, key, order);
      PrefixedAppend(base + ".", FlattenFields(m, keys[..|keys| - 1], "", Under(order, base)),
                     Flatten(m[key], key, Under(order, base)));
    }
  }
}
