/** Worked examples: what UnflattenJSON returns on fixed inputs that pin down
    its quirks (the empty marker, padding, the missing type-conflict check,
    null keys and the array branch). */
module UnflattenExamples {
  import opened JsonValue
  import opened PathGrammar
  import opened Unflattener

  // The parsed segments of the paths used below.

  lemma SegmentsOfMarker()
    ensures Segments("a[]") == [Segment("a", 0, true)]
  {
    ParsePathOfSegment("a[]");
    ParseArrayKeyMarker();
  }

  lemma SegmentsOfElement(key: string, i: nat, path: string)
    requires '.' !in key && '[' !in key
    requires path == key + "[" + Itoa(i) + "]"
    ensures Segments(path) == [Segment(key, i, true)]
  {
    SegmentsOfIndexed(key, i);
  }

  lemma SegmentsOfDotted(a: string, b: string, path: string)
    requires '.' !in a && '[' !in a && '.' !in b && '[' !in b
    requires path == a + "." + b
    ensures Segments(path) == [Segment(a, 0, false), Segment(b, 0, false)]
  {
    SegmentsOfKey(a);
    SegmentsOfKey(b);
    SegmentsAppend(a, b);
  }

  lemma SegmentsOfA()
    ensures Segments("a") == [Segment("a", 0, false)]
  {
    SegmentsOfKey("a");
  }

  lemma SegmentsOfSlotPath()
    ensures Segments("a[1].b") == [Segment("a", 1, true), Segment("b", 0, false)]
  {
    assert Itoa(1) == "1";
    SegmentsOfElement("a", 1, "a[1]");
    SegmentsOfKey("b");
    SegmentsAppend("a[1]", "b");
    assert "a[1]" + "." + "b" == "a[1].b";
  }

  // What UnflattenJSON returns on each input.

  /** The empty-array marker reads as index 0, so it comes back as a
      one-element array holding null, not as an empty array. */
  lemma EmptyMarkerGivesNullElement()
    ensures Unflatten([PathValue("a[]", Null)]) == Ok(map["a" := Arr([Null])])
  {
    SegmentsOfMarker();
    UnflattenOne(PathValue("a[]", Null));
    IndexedWriteIntoEmpty("a", 0, "a[]", Null);
    assert seq(0, _ => Null) + [Null] == [Null];
  }

  /** `key[i]` alone: an array of i nulls and then the value. */
  lemma IndexPadsWithNulls(key: string, i: nat, value: Json)
    requires '.' !in key && '[' !in key
    ensures Unflatten([PathValue(key + "[" + Itoa(i) + "]", value)]) == Ok(map[key := Arr(seq(i, _ => Null) + [value])])
  {
    var path := key + "[" + Itoa(i) + "]";
    SegmentsOfElement(key, i, path);
    UnflattenOne(PathValue(path, value));
    IndexedWriteIntoEmpty(key, i, path, value);
  }

  lemma ReplaceValueWrites(key: string, previous: Json, value: Json)
    requires '.' !in key && '[' !in key
    ensures Writes([PathValue(key, previous), PathValue(key + "[0]", value)]) ==
      [Write([Segment(key, 0, false)], key, previous), Write([Segment(key, 0, true)], key + "[0]", value)]
  {
    assert Itoa(0) == "0";
    SegmentsOfKey(key);
    SegmentsOfElement(key, 0, key + "[0]");
  }

  lemma ReplaceValueRun(key: string, previous: Json, value: Json)
    requires !previous.Arr?
    ensures ApplyWrites(Obj(map[]), [Write([Segment(key, 0, false)], key, previous), Write([Segment(key, 0, true)], key + "[0]", value)])
      == Ok(Obj(map[key := Arr([value])]))
  {
    var ws := [Write([Segment(key, 0, false)], key, previous), Write([Segment(key, 0, true)], key + "[0]", value)];
    WriteKey(map[], ws[0].segs[0], key, previous);
    var root := map[key := previous];
    WriteSlot(root, ws[1].segs[0], key + "[0]", value);
    assert Pad(ArrayAt(root, key), 1)[0 := value] == [value];
    assert ws[1..] == [ws[1]] && ws[1..][1..] == [];
    var final := Obj(root[key := Arr([value])]);
    assert ApplyWrites(final, ws[1..][1..]) == Ok(final);
    assert ApplyWrites(Obj(root), ws[1..]) == Ok(final);
    assert ApplyWrites(Obj(map[]), ws) == ApplyWrites(Obj(root), ws[1..]);
    assert root[key := Arr([value])] == map[key := Arr([value])];
  }

  /** A value that is not an array under a key is silently replaced by a new
      array when an array segment names the key afterwards. */
  lemma ArraySegmentReplacesValue(key: string, previous: Json, value: Json)
    requires '.' !in key && '[' !in key && !previous.Arr?
    ensures Unflatten([PathValue(key, previous), PathValue(key + "[0]", value)]) == Ok(map[key := Arr([value])])
  {
    ReplaceValueWrites(key, previous, value);
    ReplaceValueRun(key, previous, value);
  }

  lemma IgnoreKeyWrites(key: string, other: string, first: Json, second: Json)
    requires '.' !in key && '[' !in key && '.' !in other && '[' !in other
    ensures Writes([PathValue(key + "[0]", first), PathValue(key + "." + other, second)]) ==
      [Write([Segment(key, 0, true)], key + "[0]", first), Write([Segment(key, 0, false), Segment(other, 0, false)], key + "." + other, second)]
  {
    assert Itoa(0) == "0";
    SegmentsOfElement(key, 0, key + "[0]");
    SegmentsOfDotted(key, other, key + "." + other);
  }

  lemma IgnoreKeyRun(key: string, other: string, path: string, first: Json, second: Json)
    ensures ApplyWrites(Obj(map[]), [Write([Segment(key, 0, true)], key + "[0]", first), Write([Segment(key, 0, false), Segment(other, 0, false)], path, second)])
      == Ok(Obj(map[key := Arr([second])]))
  {
    var ws := [Write([Segment(key, 0, true)], key + "[0]", first), Write([Segment(key, 0, false), Segment(other, 0, false)], path, second)];
    IndexedWriteIntoEmpty(key, 0, key + "[0]", first);
    var items := [first];
    assert seq(0, _ => Null) + [first] == items;
    var root := map[key := Arr(items)];
    var segs := ws[1].segs;
    assert Step(Obj(root), segs[0], false, path, second) == Ok(Descended(MemberFrame(root, key), Arr(items)));
    assert segs[1..] == [Segment(other, 0, false)];
    assert items[0 := second] == [second];
    assert SetAt(Arr(items), segs[1..], path, second) == Ok(Arr([second]));
    SetAtDescends(Obj(root), segs, path, second);
    assert ws[1..] == [ws[1]] && ws[1..][1..] == [];
    var final := Obj(root[key := Arr([second])]);
    assert ApplyWrites(final, ws[1..][1..]) == Ok(final);
    assert ApplyWrites(Obj(root), ws[1..]) == Ok(final);
    assert ApplyWrites(Obj(map[]), ws) == ApplyWrites(Obj(root), ws[1..]);
    assert root[key := Arr([second])] == map[key := Arr([second])];
  }

  /** Reaching an existing array through a plain segment uses index 0 and
      ignores that segment's key. */
  lemma ArrayBranchIgnoresKey(key: string, other: string, first: Json, second: Json)
    requires '.' !in key && '[' !in key && '.' !in other && '[' !in other
    ensures Unflatten([PathValue(key + "[0]", first), PathValue(key + "." + other, second)]) == Ok(map[key := Arr([second])])
  {
    IgnoreKeyWrites(key, other, first, second);
    IgnoreKeyRun(key, other, key + "." + other, first, second);
  }

  /** A key holding null is not replaced by a map on the way down. */
  lemma NullKeyIsNotAContainer()
    ensures Unflatten([PathValue("a", Null), PathValue("a.b", Num("1"))]) == Err(InvalidContainer("a.b"))
  {
    SegmentsOfA();
    SegmentsOfDotted("a", "b", "a.b");
    UnflattenTwo(PathValue("a", Null), PathValue("a.b", Num("1")));
    var root := map["a" := Null];
    assert SetPath(map[], "a", Null) == Ok(root);
    ScalarUnderKeyFails(root, [Segment("a", 0, false), Segment("b", 0, false)], "a.b", Num("1"));
  }

  /** A null array slot is replaced by a fresh map on the way down. */
  lemma NullSlotBecomesMap()
    ensures Unflatten([PathValue("a[1].b", Bool(true))]) == Ok(map["a" := Arr([Null, Obj(map["b" := Bool(true)])])])
  {
    SegmentsOfSlotPath();
    var segs := [Segment("a", 1, true), Segment("b", 0, false)];
    UnflattenOne(PathValue("a[1].b", Bool(true)));
    var arr := Pad(ArrayAt(map[], "a"), 2);
    assert arr == [Null, Null];
    var frame := SlotFrame(map[], "a", arr, 1);
    assert Step(Obj(map[]), segs[0], false, "a[1].b", Bool(true)) == Ok(Descended(frame, Obj(map[])));
    assert segs[1..] == [Segment("b", 0, false)];
    assert SetAt(Obj(map[]), segs[1..], "a[1].b", Bool(true)) == Ok(Obj(map["b" := Bool(true)]));
    SetAtDescends(Obj(map[]), segs, "a[1].b", Bool(true));
    assert arr[1 := Obj(map["b" := Bool(true)])] == [Null, Obj(map["b" := Bool(true)])];
  }

  /** An index the existing array does not have is out of range there; the
      array branch never grows an array. */
  lemma ArrayBranchOutOfRange()
    ensures Unflatten([PathValue("a", Arr([])), PathValue("a.x", Num("2"))]) == Err(OutOfRange(0, "a.x"))
  {
    SegmentsOfA();
    SegmentsOfDotted("a", "x", "a.x");
    UnflattenTwo(PathValue("a", Arr([])), PathValue("a.x", Num("2")));
    var root := map["a" := Arr([])];
    assert SetPath(map[], "a", Arr([])) == Ok(root);
    IndexPastArrayFails(root, [Segment("a", 0, false), Segment("x", 0, false)], "a.x", Num("2"));
  }
}
