/** UnflattenJSON inverts FlattenJSON on well-formed trees: an object root
    whose keys are non-empty and free of `.` and `[`, with no empty object,
    no empty array and no array directly inside an array below it. The
    statement holds for every key order the flattener may use. */
module RoundTrip {
  import opened JsonValue
  import opened PathGrammar
  import opened Flattener
  import opened Unflattener

  // ---------------------------------------------------------------------------
  // Well-formed trees
  // ---------------------------------------------------------------------------

  /** A key that parses back as itself: non-empty, so that a nested path is
      never mistaken for a root one, with no `.` to split it and no `[` to
      make it an array segment. */
  predicate GoodKey(k: string)
  {
    k != "" && '.' !in k && '[' !in k
  }

  /** A value whose flattened form determines it: objects and arrays are
      non-empty (an empty object emits nothing and an empty array comes back
      as `[null]`) and no array is an element of an array (the inner index
      would be lost). */
  ghost predicate WellFormed(v: Json)
    decreases v
  {
    match v
    case Obj(m) => m != map[] && WellFormedFields(m)
    case Arr(items) => |items| > 0 && WellFormedItems(items)
    case _ => true
  }

  /** The elements of a well-formed array: none is an array. */
  ghost predicate WellFormedItems(items: seq<Json>)
    decreases Arr(items), 0
  {
    forall i :: 0 <= i < |items| ==> !items[i].Arr? && WellFormed(items[i])
  }

  /** The members of a well-formed object (or of the root, which may be
      empty). */
  ghost predicate WellFormedFields(m: map<string, Json>)
    decreases Obj(m), 0
  {
    forall k :: k in m ==> GoodKey(k) && WellFormed(m[k])
  }

  // ---------------------------------------------------------------------------
  // Facts about the fold that the round trip uses
  // ---------------------------------------------------------------------------

  /** Writes that differ only in the path their errors would quote. */
  ghost predicate SameWrites(ws: seq<Write>, vs: seq<Write>)
  {
    |ws| == |vs| && forall j :: 0 <= j < |ws| ==> ws[j].segs == vs[j].segs && ws[j].value == vs[j].value
  }

  /** The path given to setValueByPath only appears in its errors. */
  lemma {:induction false} SetAtPathIrrelevant(current: Json, segs: seq<Segment>, p: string, q: string, value: Json)
    requires |segs| >= 1
    ensures SetAt(current, segs, p, value).Ok? == SetAt(current, segs, q, value).Ok?
    ensures SetAt(current, segs, p, value).Ok? ==> SetAt(current, segs, p, value).value == SetAt(current, segs, q, value).value
    decreases |segs|
  {
    var sp, sq := Step(current, segs[0], |segs| == 1, p, value), Step(current, segs[0], |segs| == 1, q, value);
    assert sp.Ok? == sq.Ok? && (sp.Ok? ==> sp.value == sq.value);
    if sp.Ok? && sp.value.Descended? {
      SetAtPathIrrelevant(sp.value.child, segs[1..], p, q, value);
    }
  }

  lemma {:induction false} ApplyWritesPathIrrelevant(current: Json, ws: seq<Write>, vs: seq<Write>)
    requires WritesOk(ws) && SameWrites(ws, vs)
    ensures WritesOk(vs)
    ensures ApplyWrites(current, ws).Ok? == ApplyWrites(current, vs).Ok?
    ensures ApplyWrites(current, ws).Ok? ==> ApplyWrites(current, ws).value == ApplyWrites(current, vs).value
    decreases |ws|
  {
    assert WritesOk(vs) by {
      forall j | 0 <= j < |vs| ensures |vs[j].segs| >= 1 { assert ws[j].segs == vs[j].segs; }
    }
    if ws != [] {
      SetAtPathIrrelevant(current, ws[0].segs, ws[0].path, vs[0].path, ws[0].value);
      assert vs[0].segs == ws[0].segs && vs[0].value == ws[0].value;
      var r := SetAt(current, ws[0].segs, ws[0].path, ws[0].value);
      if r.Ok? {
        assert SameWrites(ws[1..], vs[1..]) by {
          forall j | 0 <= j < |ws| - 1 ensures ws[1..][j].segs == vs[1..][j].segs && ws[1..][j].value == vs[1..][j].value {
            assert ws[1..][j] == ws[j + 1] && vs[1..][j] == vs[j + 1];
          }
        }
        ApplyWritesPathIrrelevant(r.value, ws[1..], vs[1..]);
      }
    }
  }

  /** The writes with their first segment taken off. */
  function Tails(ws: seq<Write>): (ts: seq<Write>)
    requires forall j :: 0 <= j < |ws| ==> |ws[j].segs| >= 2
    ensures |ts| == |ws| && WritesOk(ts)
  {
    seq(|ws|, j requires 0 <= j < |ws| => Write(ws[j].segs[1..], ws[j].path, ws[j].value))
  }

  /** Every write starts with segment `seg` and goes deeper. */
  ghost predicate AllBelow(ws: seq<Write>, seg: Segment)
  {
    forall j :: 0 <= j < |ws| ==> |ws[j].segs| >= 2 && ws[j].segs[0] == seg
  }

  lemma AllBelowTail(ws: seq<Write>, seg: Segment)
    requires AllBelow(ws, seg) && ws != []
    ensures AllBelow(ws[1..], seg) && WritesOk(ws) && WritesOk(ws[1..])
    ensures Tails(ws[1..]) == Tails(ws)[1..]
  {
  }

  /** The object `key` holds, or the fresh map a pass creates for it. */
  function MemberChild(fields: map<string, Json>, key: string): Json
  {
    if key in fields then fields[key] else Obj(map[])
  }

  function PlugMember(fields: map<string, Json>, key: string, r: Result<Json>): Result<Json>
  {
    match r
    case Err(e) => Err(e)
    case Ok(child) => Ok(Obj(fields[key := child]))
  }

  /** A write below a plain key is a write into the member, stored back. */
  lemma MemberDescend(fields: map<string, Json>, key: string, w: Write)
    requires |w.segs| >= 2 && w.segs[0] == Segment(key, 0, false)
    ensures SetAt(Obj(fields), w.segs, w.path, w.value)
         == PlugMember(fields, key, SetAt(MemberChild(fields, key), w.segs[1..], w.path, w.value))
  {
    SetAtDescends(Obj(fields), w.segs, w.path, w.value);
  }

  /** Once the key is present, its member is what the next write starts from
      and storing back into the updated map is storing into the old one. */
  lemma MemberAgain(fields: map<string, Json>, key: string, c: Json, r: Result<Json>)
    ensures MemberChild(fields[key := c], key) == c
    ensures PlugMember(fields[key := c], key, r) == PlugMember(fields, key, r)
  {
    if r.Ok? {
      assert fields[key := c][key := r.value] == fields[key := r.value];
    }
  }

  /** Writes that all go below a plain key act on the member alone: they
      run on the member (a fresh map if the key is absent) and the result is
      stored back under the key. */
  lemma {:induction false} MemberLift(fields: map<string, Json>, key: string, ws: seq<Write>)
    requires AllBelow(ws, Segment(key, 0, false))
    requires ws != [] || key in fields
    ensures WritesOk(ws)
    ensures ApplyWrites(Obj(fields), ws) == PlugMember(fields, key, ApplyWrites(MemberChild(fields, key), Tails(ws)))
    decreases |ws|
  {
    if ws == [] {
      assert fields[key := fields[key]] == fields;
    } else {
      AllBelowTail(ws, Segment(key, 0, false));
      var w, ts := ws[0], Tails(ws);
      MemberDescend(fields, key, w);
      assert ts[0] == Write(w.segs[1..], w.path, w.value);
      var first := SetAt(MemberChild(fields, key), w.segs[1..], w.path, w.value);
      if first.Ok? {
        var c := first.value;
        MemberAgain(fields, key, c, ApplyWrites(c, ts[1..]));
        MemberLift(fields[key := c], key, ws[1..]);
      }
    }
  }

  /** The padded array a pass at `key[index]` works on. */
  function SlotArray(fields: map<string, Json>, key: string, index: nat): (arr: seq<Json>)
    ensures |arr| > index
  {
    Pad(ArrayAt(fields, key), index + 1)
  }

  /** The element a pass descends into: a null slot becomes a fresh map. */
  function SlotChild(fields: map<string, Json>, key: string, index: nat): Json
  {
    var arr := SlotArray(fields, key, index);
    if arr[index] == Null then Obj(map[]) else arr[index]
  }

  function PlugSlot(fields: map<string, Json>, key: string, index: nat, r: Result<Json>): Result<Json>
  {
    match r
    case Err(e) => Err(e)
    case Ok(child) => Ok(Obj(fields[key := Arr(SlotArray(fields, key, index)[index := child])]))
  }

  /** A write below `key[index]` is a write into that element, stored back
      into the padded array. */
  lemma SlotDescend(fields: map<string, Json>, key: string, index: nat, w: Write)
    requires |w.segs| >= 2 && w.segs[0] == Segment(key, index, true)
    ensures SetAt(Obj(fields), w.segs, w.path, w.value)
         == PlugSlot(fields, key, index, SetAt(SlotChild(fields, key, index), w.segs[1..], w.path, w.value))
  {
    SetAtDescends(Obj(fields), w.segs, w.path, w.value);
    var arr := SlotArray(fields, key, index);
    assert Step(Obj(fields), w.segs[0], false, w.path, w.value)
        == Ok(Descended(SlotFrame(fields, key, arr, index), SlotChild(fields, key, index)));
  }

  /** Once the slot holds a container, it is what the next write starts from
      and storing back into the updated array is storing into the old one. */
  lemma SlotAgain(fields: map<string, Json>, key: string, index: nat, c: Json, r: Result<Json>)
    requires c != Null
    ensures var next := fields[key := Arr(SlotArray(fields, key, index)[index := c])];
      SlotChild(next, key, index) == c && PlugSlot(next, key, index, r) == PlugSlot(fields, key, index, r)
  {
    var arr := SlotArray(fields, key, index);
    var next := fields[key := Arr(arr[index := c])];
    assert SlotArray(next, key, index) == arr[index := c];
    if r.Ok? {
      assert arr[index := c][index := r.value] == arr[index := r.value];
      assert next[key := Arr(arr[index := r.value])] == fields[key := Arr(arr[index := r.value])];
    }
  }

  /** Storing an element back where it was changes nothing. */
  lemma SlotStay(fields: map<string, Json>, key: string, index: nat)
    requires key in fields && fields[key].Arr? && index < |fields[key].items| && fields[key].items[index] != Null
    ensures PlugSlot(fields, key, index, Ok(SlotChild(fields, key, index))) == Ok(Obj(fields))
  {
    var items := fields[key].items;
    assert SlotArray(fields, key, index) == items;
    assert items[index := items[index]] == items;
    assert fields[key := Arr(items)] == fields;
  }

  /** Writes that all go below `key[index]` act on that element alone: they
      run on the element (a fresh map in place of a null or missing one) and
      the result is stored back in the padded array. */
  lemma {:induction false} SlotLift(fields: map<string, Json>, key: string, index: nat, ws: seq<Write>)
    requires AllBelow(ws, Segment(key, index, true))
    requires ws != [] || (key in fields && fields[key].Arr? && index < |fields[key].items| && fields[key].items[index] != Null)
    ensures WritesOk(ws)
    ensures ApplyWrites(Obj(fields), ws) == PlugSlot(fields, key, index, ApplyWrites(SlotChild(fields, key, index), Tails(ws)))
    decreases |ws|
  {
    if ws == [] {
      SlotStay(fields, key, index);
    } else {
      AllBelowTail(ws, Segment(key, index, true));
      var w, ts := ws[0], Tails(ws);
      SlotDescend(fields, key, index, w);
      assert ts[0] == Write(w.segs[1..], w.path, w.value);
      var first := SetAt(SlotChild(fields, key, index), w.segs[1..], w.path, w.value);
      if first.Ok? {
        var c := first.value;
        SlotAgain(fields, key, index, c, ApplyWrites(c, ts[1..]));
        SlotLift(fields[key := Arr(SlotArray(fields, key, index)[index := c])], key, index, ws[1..]);
      }
    }
  }

  // ---------------------------------------------------------------------------
  // The segments of the flattened paths
  // ---------------------------------------------------------------------------

  /** The writes of pairs relocated under `base.`: each starts with the
      segments of `base` and goes on with those of its own path. */
  lemma PrefixedWrites(base: string, baseSegs: seq<Segment>, pvs: seq<PathValue>)
    requires Segments(base) == baseSegs
    ensures var ws := Writes(Prefixed(base + ".", pvs));
      forall j :: 0 <= j < |ws| ==> ws[j].segs == baseSegs + Segments(pvs[j].path) && ws[j].value == pvs[j].value
  {
    var ws := Writes(Prefixed(base + ".", pvs));
    forall j | 0 <= j < |ws| ensures ws[j].segs == baseSegs + Segments(pvs[j].path) && ws[j].value == pvs[j].value {
      SegmentsAppend(base, pvs[j].path);
      assert Prefixed(base + ".", pvs)[j].path == base + "." + pvs[j].path;
    }
  }

  /** Under a plain key the relocated writes are writes below that key whose
      remaining segments are those of the pairs at the root. */
  lemma MemberWrites(key: string, pvs: seq<PathValue>)
    requires GoodKey(key)
    ensures AllBelow(Writes(Prefixed(key + ".", pvs)), Segment(key, 0, false))
    ensures SameWrites(Tails(Writes(Prefixed(key + ".", pvs))), Writes(pvs))
  {
    SegmentsOfKey(key);
    PrefixedWrites(key, [Segment(key, 0, false)], pvs);
  }

  /** Under `key[index]` the relocated writes are writes below that slot whose
      remaining segments are those of the pairs at the root. */
  lemma SlotWrites(key: string, index: nat, pvs: seq<PathValue>)
    requires GoodKey(key)
    ensures AllBelow(Writes(Prefixed(ElementPath(key, index) + ".", pvs)), Segment(key, index, true))
    ensures SameWrites(Tails(Writes(Prefixed(ElementPath(key, index) + ".", pvs))), Writes(pvs))
  {
    SegmentsOfIndexed(key, index);
    PrefixedWrites(ElementPath(key, index), [Segment(key, index, true)], pvs);
  }

  /** A well-formed value emits at least one pair. */
  lemma {:induction false} FlattenNonEmpty(v: Json, prefix: string, order: KeyOrder)
    requires ValidOrder(order) && WellFormed(v)
    ensures Flatten(v, prefix, order) != []
    decreases v
  {
    match v
    case Obj(m) =>
      var keys := order(prefix, m);
      assert Enumerates(keys, m);
      var k :| k in m;
      assert k in keys;
      var last := keys[|keys| - 1];
      FlattenNonEmpty(m[last], ChildPath(prefix, last), order);
    case Arr(items) =>
      FlattenNonEmpty(items[|items| - 1], ElementPath(prefix, |items| - 1), order);
    case _ =>
  }

  // ---------------------------------------------------------------------------
  // Writing back a flattened tree
  // ---------------------------------------------------------------------------

  /** The pairs of a well-formed object, written into an empty map, rebuild
      the object. */
  lemma {:induction false} RootWrites(m: map<string, Json>, order: KeyOrder)
    requires ValidOrder(order) && WellFormedFields(m)
    ensures Produces(Obj(map[]), Flatten(Obj(m), "", order), Obj(m))
    decreases Obj(m), 2, 0
  {
    var keys := order("", m);
    assert Enumerates(keys, m);
    FieldsWrites(m, keys, order);
    assert (map k | k in keys :: m[k]) == m;
  }

  /** Writing the pairs `pvs` into `current`, in order, succeeds with
      `result`. */
  ghost predicate Produces(current: Json, pvs: seq<PathValue>, result: Json)
  {
    ApplyWrites(current, Writes(pvs)) == Ok(result)
  }

  /** Writing the pairs of `a + b` is writing those of `a`, then those of
      `b`. */
  lemma WritesThen(current: Json, a: seq<PathValue>, b: seq<PathValue>, mid: Json, final: Json)
    requires Produces(current, a, mid) && Produces(mid, b, final)
    ensures Produces(current, a + b, final)
  {
    WritesAppend(a, b);
    ApplyWritesAppend(current, Writes(a), Writes(b));
  }

  /** A single pair is a single setValueByPath. */
  lemma WriteOne(current: Json, pv: PathValue, next: Json)
    requires SetAt(current, Segments(pv.path), pv.path, pv.value) == Ok(next)
    ensures Produces(current, [pv], next)
  {
    var ws := Writes([pv]);
    assert ws[0] == Write(Segments(pv.path), pv.path, pv.value);
    assert ApplyWrites(next, ws[1..]) == Ok(next);
  }

  lemma RestrictSnoc(m: map<string, Json>, init: seq<string>, key: string)
    requires key in m && forall i :: 0 <= i < |init| ==> init[i] in m
    ensures (map k | k in init :: m[k])[key := m[key]] == map k | k in init + [key] :: m[k]
  {
  }

  /** The members `keys` of the object, written in that order into an empty
      map, give the object restricted to those keys. */
  lemma {:induction false} FieldsWrites(m: map<string, Json>, keys: seq<string>, order: KeyOrder)
    requires ValidOrder(order) && WellFormedFields(m)
    requires forall i :: 0 <= i < |keys| ==> keys[i] in m
    requires forall i, j :: 0 <= i < j < |keys| ==> keys[i] != keys[j]
    ensures Produces(Obj(map[]), FlattenFields(m, keys, "", order), Obj(map k | k in keys :: m[k]))
    decreases Obj(m), 1, |keys|
  {
    if keys != [] {
      var init, key := keys[..|keys| - 1], keys[|keys| - 1];
      FieldsWrites(m, init, order);
      var before := map k | k in init :: m[k];
      assert key !in before;
      KeyWrites(m[key], key, before, order);
      assert FlattenFields(m, keys, "", order) == FlattenFields(m, init, "", order) + Flatten(m[key], key, order);
      WritesThen(Obj(map[]), FlattenFields(m, init, "", order), Flatten(m[key], key, order), Obj(before), Obj(before[key := m[key]]));
      RestrictSnoc(m, init, key);
      assert init + [key] == keys;
    }
  }

  /** The pairs of a well-formed member, written into a map without its key,
      add the key with the member. */
  lemma {:induction false} KeyWrites(v: Json, key: string, fields: map<string, Json>, order: KeyOrder)
    requires ValidOrder(order) && GoodKey(key) && key !in fields && WellFormed(v)
    ensures Produces(Obj(fields), Flatten(v, key, order), Obj(fields[key := v]))
    decreases v, 3, 0
  {
    match v
    case Obj(m) =>
      var under := Under(order, key);
      UnderValid(order, key);
      FlattenObjectUnder(m, key, order);
      var pvs := Flatten(Obj(m), "", under);
      var ws := Writes(Prefixed(key + ".", pvs));
      MemberWrites(key, pvs);
      FlattenNonEmpty(Obj(m), "", under);
      MemberLift(fields, key, ws);
      RootWrites(m, under);
      ApplyWritesPathIrrelevant(Obj(map[]), Writes(pvs), Tails(ws));
    case Arr(items) =>
      ItemsWrites(items, |items|, key, fields, order);
      assert items[..|items|] == items;
    case _ =>
      SegmentsOfKey(key);
      WriteKey(fields, Segment(key, 0, false), key, v);
      WriteOne(Obj(fields), PathValue(key, v), Obj(fields[key := v]));
  }

  /** The first `n` elements of a well-formed array, written into a map
      without its key, add the key with those elements. */
  lemma {:induction false} ItemsWrites(items: seq<Json>, n: nat, key: string, fields: map<string, Json>, order: KeyOrder)
    requires ValidOrder(order) && GoodKey(key) && key !in fields
    requires 1 <= n <= |items| && WellFormedItems(items)
    ensures Produces(Obj(fields), FlattenItems(items, n, key, order), Obj(fields[key := Arr(items[..n])]))
    decreases Arr(items), 2, 2 * n
  {
    if n == 1 {
      ItemsFirst(items, key, fields, order);
    } else {
      ItemsStep(items, n, key, fields, order);
    }
  }

  /** The first element of the array: its pairs create the key with it. */
  lemma {:induction false} ItemsFirst(items: seq<Json>, key: string, fields: map<string, Json>, order: KeyOrder)
    requires ValidOrder(order) && GoodKey(key) && key !in fields
    requires 1 <= |items| && WellFormedItems(items)
    ensures Produces(Obj(fields), FlattenItems(items, 1, key, order), Obj(fields[key := Arr(items[..1])]))
    decreases Arr(items), 1, 0
  {
    var x := items[0];
    TakeSnoc(items, 1);
    ElementWrites(x, key, fields, [], 0, fields[key := Arr(items[..1])], order);
    assert FlattenItems(items, 1, key, order) == Flatten(x, ElementPath(key, 0), order) by {
      assert FlattenItems(items, 0, key, order) == [];
    }
  }

  lemma Overwrite(fields: map<string, Json>, key: string, a: Json, b: Json)
    ensures fields[key := a][key := b] == fields[key := b]
  {
  }

  lemma TakeSnoc(items: seq<Json>, n: nat)
    requires 1 <= n <= |items|
    ensures items[..n - 1] + [items[n - 1]] == items[..n]
    ensures |items[..n - 1]| == n - 1
  {
  }

  /** One more element of the array: its pairs append it. */
  lemma {:induction false} ItemsStep(items: seq<Json>, n: nat, key: string, fields: map<string, Json>, order: KeyOrder)
    requires ValidOrder(order) && GoodKey(key) && key !in fields
    requires 2 <= n <= |items| && WellFormedItems(items)
    ensures Produces(Obj(fields), FlattenItems(items, n, key, order), Obj(fields[key := Arr(items[..n])]))
    decreases Arr(items), 2, 2 * n - 1
  {
    ItemsWrites(items, n - 1, key, fields, order);
    var x := items[n - 1];
    var pvs := Flatten(x, ElementPath(key, n - 1), order);
    var done := FlattenItems(items, n - 1, key, order);
    var before := fields[key := Arr(items[..n - 1])];
    var after := fields[key := Arr(items[..n])];
    TakeSnoc(items, n);
    Overwrite(fields, key, Arr(items[..n - 1]), Arr(items[..n]));
    ElementWrites(x, key, before, items[..n - 1], n - 1, after, order);
    assert FlattenItems(items, n, key, order) == done + pvs;
    WritesThen(Obj(fields), done, pvs, Obj(before), Obj(after));
  }

  /** The pairs of a well-formed element that is not an array, flattened at
      the next index of the array `arr` under `key`, append it to that
      array. */
  lemma {:induction false} ElementWrites(x: Json, key: string, fields: map<string, Json>, arr: seq<Json>, index: nat,
                                         final: map<string, Json>, order: KeyOrder)
    requires ValidOrder(order) && GoodKey(key) && WellFormed(x) && !x.Arr?
    requires arr == ArrayAt(fields, key) && index == |arr| && final == fields[key := Arr(arr + [x])]
    ensures Produces(Obj(fields), Flatten(x, ElementPath(key, index), order), Obj(final))
    decreases x, 3, 0
  {
    assert SlotArray(fields, key, index) == arr + [Null];
    assert (arr + [Null])[index := x] == arr + [x];
    if x.Obj? {
      ObjectElementWrites(x.fields, key, fields, order);
    } else {
      var path := ElementPath(key, index);
      SegmentsOfIndexed(key, index);
      WriteSlot(fields, Segment(key, index, true), path, x);
      WriteOne(Obj(fields), PathValue(path, x), Obj(final));
    }
  }

  /** ElementWrites for an object element: its pairs all go below the new
      slot, which starts as a fresh map. */
  lemma {:induction false} ObjectElementWrites(m: map<string, Json>, key: string, fields: map<string, Json>, order: KeyOrder)
    requires ValidOrder(order) && GoodKey(key) && WellFormed(Obj(m))
    ensures var before := ArrayAt(fields, key);
      Produces(Obj(fields), Flatten(Obj(m), ElementPath(key, |before|), order),
               Obj(fields[key := Arr(SlotArray(fields, key, |before|)[|before| := Obj(m)])]))
    decreases Obj(m), 2, 1
  {
    var index := |ArrayAt(fields, key)|;
    var path := ElementPath(key, index);
    var under := Under(order, path);
    UnderValid(order, path);
    FlattenObjectUnder(m, path, order);
    var pvs := Flatten(Obj(m), "", under);
    var ws := Writes(Prefixed(path + ".", pvs));
    SlotWrites(key, index, pvs);
    FlattenNonEmpty(Obj(m), "", under);
    SlotLift(fields, key, index, ws);
    assert SlotChild(fields, key, index) == Obj(map[]);
    RootWrites(m, under);
    ApplyWritesPathIrrelevant(Obj(map[]), Writes(pvs), Tails(ws));
  }

  /** FlattenJSON then UnflattenJSON gives back every well-formed object, for
      every key order the flattener may use. */
  lemma UnflattenFlatten(m: map<string, Json>, order: KeyOrder)
    requires ValidOrder(order) && WellFormedFields(m)
    ensures Unflatten(Flatten(Obj(m), "", order)) == Ok(m)
  {
    RootWrites(m, order);
  }
}
