/** `setValueByPath` and `UnflattenJSON`: rebuild a tree from (path, value)
    pairs by walking each parsed path from the root map, creating maps and
    arrays on the way, padding arrays with nulls and writing the value at the
    last segment.

    Go walks with a `current` cursor that aliases the maps and slices inside
    the root, so a write through the cursor is a write into the root. The
    specification `SetAt` says the same on values: it returns the rewritten
    tree. The method `SetValueByPath` keeps Go's cursor loop and records each
    container it descends through in a frame; plugging the rewritten node back
    into those frames is what the aliasing does in Go. */
module Unflattener {
  import opened JsonValue
  import opened PathGrammar

  // ---------------------------------------------------------------------------
  // The specification of one write
  // ---------------------------------------------------------------------------

  /** `for len(arr) <= idx { arr = append(arr, nil) }`: `arr` grown with
      nulls to length `n` if it is shorter. */
  function Pad(arr: seq<Json>, n: nat): (r: seq<Json>)
    ensures |r| == if |arr| >= n then |arr| else n
    ensures forall j :: 0 <= j < |arr| ==> r[j] == arr[j]
    ensures forall j :: |arr| <= j < |r| ==> r[j] == Null
  {
    if |arr| >= n then arr else arr + seq(n - |arr|, _ => Null)
  }

  /** `arr, ok := container[key].([]any); if !ok { arr = []any{} }`: the
      array stored under `key`, or a fresh empty one when the key is absent
      or holds anything else (the old value is then silently replaced). */
  function ArrayAt(fields: map<string, Json>, key: string): seq<Json>
  {
    if key in fields && fields[key].Arr? then fields[key].items else []
  }

  /** A container the cursor has descended through, with the place it left. */
  datatype Frame =
    | MemberFrame(fields: map<string, Json>, key: string)
    | SlotFrame(fields: map<string, Json>, key: string, items: seq<Json>, index: nat)
    | ElementFrame(items: seq<Json>, index: nat)

  /** The place a frame records lies inside its container. */
  ghost predicate FrameOk(frame: Frame)
  {
    match frame
    case MemberFrame(_, _) => true
    case SlotFrame(_, _, items, index) => index < |items|
    case ElementFrame(items, index) => index < |items|
  }

  ghost predicate FramesOk(frames: seq<Frame>)
  {
    forall j :: 0 <= j < |frames| ==> FrameOk(frames[j])
  }

  /** The container with `child` put back where the cursor left it. */
  function Plug(frame: Frame, child: Json): (r: Json)
    requires FrameOk(frame)
    ensures r.Obj? || r.Arr?
    ensures r.Arr? <==> frame.ElementFrame?
  {
    match frame
    case MemberFrame(fields, key) => Obj(fields[key := child])
    case SlotFrame(fields, key, items, index) => Obj(fields[key := Arr(items[index := child])])
    case ElementFrame(items, index) => Arr(items[index := child])
  }

  /** The root with `node` put back through every frame, innermost first. */
  function PlugAll(frames: seq<Frame>, node: Json): Json
    requires FramesOk(frames)
    decreases |frames|
  {
    if frames == [] then node
    else
      var last := frames[|frames| - 1];
      PlugAll(frames[..|frames| - 1], Plug(last, node))
  }

  /** A result with its node put back through the frames; errors pass through. */
  function Rebuild(frames: seq<Frame>, r: Result<Json>): Result<Json>
    requires FramesOk(frames)
  {
    match r
    case Err(e) => Err(e)
    case Ok(node) => Ok(PlugAll(frames, node))
  }

  /** A result with its node put back into one frame. */
  function PlugResult(frame: Frame, r: Result<Json>): Result<Json>
    requires FrameOk(frame)
  {
    match r
    case Err(e) => Err(e)
    case Ok(node) => Ok(Plug(frame, node))
  }

  /** What one pass of setValueByPath's loop body does: on the last segment
      it writes the value into the container, otherwise it moves the cursor
      into a child, leaving a frame behind. */
  datatype Move = Written(node: Json) | Descended(frame: Frame, child: Json)

  /** One pass of the loop body at `current` for segment `seg`. In a map, an
      array segment takes the array under the key (or a fresh one when the
      key is absent or holds anything else), pads it with nulls up to the
      index and writes or descends there, turning a null slot into a fresh
      map first; a plain segment writes the key or descends into it, creating
      a fresh map only when the key is absent (a key holding null is kept, and
      the next pass then fails on it). In an array the segment's key is
      ignored, the index must already exist and nothing is padded. Anything
      else is not a container. A negative index is where Go panics. */
  function Step(current: Json, seg: Segment, isLast: bool, path: string, value: Json): (r: Result<Move>)
    ensures r.Ok? ==> (current.Obj? || current.Arr?) && (r.value.Written? <==> isLast)
    ensures r.Ok? && r.value.Written? ==> SameKind(r.value.node, current)
    ensures r.Ok? && r.value.Descended? ==>
      FrameOk(r.value.frame) && (r.value.frame.ElementFrame? <==> current.Arr?)
  {
    match current
    case Obj(fields) =>
      if seg.isArray then
        if seg.index < 0 then Err(NegativeIndex(seg.index, path))
        else
          var arr := Pad(ArrayAt(fields, seg.key), seg.index + 1);
          if isLast then Ok(Written(Obj(fields[seg.key := Arr(arr[seg.index := value])])))
          else
            var slot := if arr[seg.index] == Null then Obj(map[]) else arr[seg.index];
            Ok(Descended(SlotFrame(fields, seg.key, arr, seg.index), slot))
      else if isLast then Ok(Written(Obj(fields[seg.key := value])))
      else Ok(Descended(MemberFrame(fields, seg.key), if seg.key in fields then fields[seg.key] else Obj(map[])))
    case Arr(items) =>
      if seg.index >= |items| then Err(OutOfRange(seg.index, path))
      else if seg.index < 0 then Err(NegativeIndex(seg.index, path))
      else if isLast then Ok(Written(Arr(items[seg.index := value])))
      else Ok(Descended(ElementFrame(items, seg.index), items[seg.index]))
    case _ => Err(InvalidContainer(path))
  }

  /** The tree after writing `value` at `segs` below `current`, or the error
      setValueByPath returns. `path` is the text the errors quote. */
  function SetAt(current: Json, segs: seq<Segment>, path: string, value: Json): (r: Result<Json>)
    requires |segs| >= 1
    ensures r.Ok? ==> SameKind(r.value, current) && (current.Obj? || current.Arr?)
    decreases |segs|
  {
    match Step(current, segs[0], |segs| == 1, path, value)
    case Err(e) => Err(e)
    case Ok(Written(node)) => Ok(node)
    case Ok(Descended(frame, child)) => PlugResult(frame, SetAt(child, segs[1..], path, value))
  }

  /** `setValueByPath(root, path, value)` on the root map. */
  function SetPath(root: map<string, Json>, path: string, value: Json): (r: Result<map<string, Json>>)
    ensures r.Ok? ==> r.value.Keys == root.Keys + {Segments(path)[0].key}
    ensures r.Ok? ==> forall k :: k in root && k != Segments(path)[0].key ==> r.value[k] == root[k]
  {
    match SetAt(Obj(root), Segments(path), path, value)
    case Err(e) => Err(e)
    case Ok(v) =>
      WriteTouchesOneKey(root, Segments(path), path, value);
      Ok(v.fields)
  }

  // ---------------------------------------------------------------------------
  // setValueByPath as Go writes it: a cursor loop
  // ---------------------------------------------------------------------------

  lemma RebuildPush(frames: seq<Frame>, frame: Frame, r: Result<Json>)
    requires FramesOk(frames) && FrameOk(frame)
    ensures FramesOk(frames + [frame])
    ensures Rebuild(frames + [frame], r) == Rebuild(frames, PlugResult(frame, r))
  {
    assert (frames + [frame])[..|frames|] == frames;
  }

  /** One pass of the loop, seen from the root: an error is the whole
      result, a write finishes the path, a descent pushes one frame. */
  lemma StepRebuilds(frames: seq<Frame>, current: Json, segs: seq<Segment>, path: string, value: Json)
    requires FramesOk(frames) && |segs| >= 1
    ensures var step, r := Step(current, segs[0], |segs| == 1, path, value), Rebuild(frames, SetAt(current, segs, path, value));
      && (step.Err? ==> r == Err(step.error))
      && (step.Ok? && step.value.Written? ==> |segs| == 1 && r == Ok(PlugAll(frames, step.value.node)))
      && (step.Ok? && step.value.Descended? ==>
            && |segs| >= 2
            && FramesOk(frames + [step.value.frame])
            && r == Rebuild(frames + [step.value.frame], SetAt(step.value.child, segs[1..], path, value)))
  {
    match Step(current, segs[0], |segs| == 1, path, value)
    case Err(e) =>
    case Ok(Written(node)) =>
    case Ok(Descended(frame, child)) =>
      RebuildPush(frames, frame, SetAt(child, segs[1..], path, value));
  }

  /** The padding loop leaves `orig` followed by nulls. */
  lemma PadStep(orig: seq<Json>, n: nat)
    requires |orig| <= n
    ensures Pad(orig, n) + [Null] == Pad(orig, n + 1)
  {
  }

  /** `for len(arr) <= idx { arr = append(arr, nil) }` */
  method PadWithNulls(arr: seq<Json>, index: nat) returns (r: seq<Json>)
    ensures r == Pad(arr, index + 1)
  {
    r := arr;
    while |r| <= index
      invariant |arr| <= |r| <= if |arr| > index then |arr| else index + 1
      invariant r == Pad(arr, |r|)
    {
      PadStep(arr, |r|);
      r := r + [Null];
    }
  }

  /** The `map[string]any` arm of setValueByPath's type switch. */
  method StepInObject(fields: map<string, Json>, seg: Segment, isLast: bool, path: string, value: Json)
    returns (r: Result<Move>)
    ensures r == Step(Obj(fields), seg, isLast, path, value)
  {
    if seg.isArray {
      var arr := if seg.key in fields && fields[seg.key].Arr? then fields[seg.key].items else [];
      if seg.index < 0 {
        return Err(NegativeIndex(seg.index, path));
      }
      assert arr == ArrayAt(fields, seg.key);
      arr := PadWithNulls(arr, seg.index);
      if isLast {
        r := Ok(Written(Obj(fields[seg.key := Arr(arr[seg.index := value])])));
      } else {
        var slot := arr[seg.index];
        if slot == Null {
          slot := Obj(map[]);
        }
        r := Ok(Descended(SlotFrame(fields, seg.key, arr, seg.index), slot));
      }
    } else if isLast {
      r := Ok(Written(Obj(fields[seg.key := value])));
    } else {
      var child := if seg.key in fields then fields[seg.key] else Obj(map[]);
      r := Ok(Descended(MemberFrame(fields, seg.key), child));
    }
  }

  /** The `[]any` arm of setValueByPath's type switch. */
  method StepInArray(items: seq<Json>, seg: Segment, isLast: bool, path: string, value: Json)
    returns (r: Result<Move>)
    ensures r == Step(Arr(items), seg, isLast, path, value)
  {
    if seg.index >= |items| {
      return Err(OutOfRange(seg.index, path));
    }
    if seg.index < 0 {
      return Err(NegativeIndex(seg.index, path));
    }
    if isLast {
      r := Ok(Written(Arr(items[seg.index := value])));
    } else {
      r := Ok(Descended(ElementFrame(items, seg.index), items[seg.index]));
    }
  }

  /** One pass of setValueByPath's loop body: the type switch on the cursor. */
  method StepIn(current: Json, seg: Segment, isLast: bool, path: string, value: Json)
    returns (r: Result<Move>)
    ensures r == Step(current, seg, isLast, path, value)
  {
    match current {
      case Obj(fields) =>
        r := StepInObject(fields, seg, isLast, path, value);
      case Arr(items) =>
        r := StepInArray(items, seg, isLast, path, value);
      case _ =>
        r := Err(InvalidContainer(path));
    }
  }

  /** `setValueByPath`: walks the parsed segments with a cursor, creating
      containers, padding arrays and writing the value at the last segment. */
  method SetValueByPath(root: map<string, Json>, path: string, value: Json)
    returns (r: Result<map<string, Json>>)
    ensures r == SetPath(root, path, value)
  {
    var parts := ParsePath(path);
    ghost var segs := Segments(path);
    ghost var spec := SetAt(Obj(root), segs, path, value);
    var current := Obj(root);
    var frames: seq<Frame> := [];
    var i := 0;
    while i < |parts|
      invariant 0 <= i <= |parts|
      invariant FramesOk(frames)
      invariant i < |parts| ==> spec == Rebuild(frames, SetAt(current, segs[i..], path, value))
      invariant i == |parts| ==> spec == Ok(PlugAll(frames, current))
    {
      var isLast := i == |parts| - 1;
      var seg := ParseArrayKey(parts[i]);
      assert seg == segs[i..][0];
      assert segs[i..][1..] == segs[i + 1..];
      StepRebuilds(frames, current, segs[i..], path, value);
      var move := StepIn(current, seg, isLast, path, value);
      match move {
        case Err(e) =>
          return Err(e);
        case Ok(Written(node)) =>
          current := node;
        case Ok(Descended(frame, child)) =>
          frames := frames + [frame];
          current := child;
      }
      i := i + 1;
    }
    r := Ok(PlugAll(frames, current).fields);
  }

  // ---------------------------------------------------------------------------
  // UnflattenJSON: setValueByPath for each pair in turn
  // ---------------------------------------------------------------------------

  /** One write of the fold: the parsed segments, the path the errors quote
      and the value. */
  datatype Write = Write(segs: seq<Segment>, path: string, value: Json)

  ghost predicate WritesOk(ws: seq<Write>)
  {
    forall j :: 0 <= j < |ws| ==> |ws[j].segs| >= 1
  }

  /** The writes in order, stopping at the first error. */
  function ApplyWrites(current: Json, ws: seq<Write>): (r: Result<Json>)
    requires WritesOk(ws)
    ensures r.Ok? ==> SameKind(r.value, current)
    decreases |ws|
  {
    if ws == [] then Ok(current)
    else
      match SetAt(current, ws[0].segs, ws[0].path, ws[0].value)
      case Err(e) => Err(e)
      case Ok(next) => ApplyWrites(next, ws[1..])
  }

  /** The write each pair asks for. */
  function Writes(pvs: seq<PathValue>): (ws: seq<Write>)
    ensures |ws| == |pvs| && WritesOk(ws)
  {
    seq(|pvs|, j requires 0 <= j < |pvs| => Write(Segments(pvs[j].path), pvs[j].path, pvs[j].value))
  }

  /** The root map of a result whose node is an object. */
  function RootOf(r: Result<Json>): Result<map<string, Json>>
    requires r.Ok? ==> r.value.Obj?
  {
    match r
    case Err(e) => Err(e)
    case Ok(v) => Ok(v.fields)
  }

  /** `UnflattenJSON(pvs)`: every pair written into an initially empty root,
      in order; the first error is the result. */
  function Unflatten(pvs: seq<PathValue>): (r: Result<map<string, Json>>)
    ensures r.Ok? ==> forall i :: 0 <= i < |pvs| ==> Segments(pvs[i].path)[0].key in r.value
  {
    ApplyWritesKeys(map[], Writes(pvs));
    assert forall i :: 0 <= i < |pvs| ==> Writes(pvs)[i].segs == Segments(pvs[i].path);
    RootOf(ApplyWrites(Obj(map[]), Writes(pvs)))
  }

  /** Writes into a map keep every key it had and add the first key of each
      write. */
  lemma {:induction false} ApplyWritesKeys(fields: map<string, Json>, ws: seq<Write>)
    requires WritesOk(ws)
    ensures var r := ApplyWrites(Obj(fields), ws);
      r.Ok? ==> && r.value.Obj?
                && fields.Keys <= r.value.fields.Keys
                && forall j :: 0 <= j < |ws| ==> ws[j].segs[0].key in r.value.fields
    decreases |ws|
  {
    if ws != [] {
      match SetAt(Obj(fields), ws[0].segs, ws[0].path, ws[0].value)
      case Err(_) =>
      case Ok(next) =>
        WriteTouchesOneKey(fields, ws[0].segs, ws[0].path, ws[0].value);
        ApplyWritesKeys(next.fields, ws[1..]);
        assert forall j :: 1 <= j < |ws| ==> ws[j] == ws[1..][j - 1];
    }
  }

  /** `UnflattenJSON`: a loop calling setValueByPath for each pair. */
  method UnflattenJSON(pvs: seq<PathValue>) returns (r: Result<map<string, Json>>)
    ensures r == Unflatten(pvs)
  {
    var root: map<string, Json> := map[];
    ghost var ws := Writes(pvs);
    for i := 0 to |pvs|
      invariant Unflatten(pvs) == RootOf(ApplyWrites(Obj(root), ws[i..]))
    {
      assert ws[i..][0] == ws[i] && ws[i..][1..] == ws[i + 1..];
      var step := SetValueByPath(root, pvs[i].path, pvs[i].value);
      match step {
        case Err(e) =>
          return Err(e);
        case Ok(next) =>
          root := next;
      }
    }
    assert ws[|pvs|..] == [];
    r := Ok(root);
  }

  // ---------------------------------------------------------------------------
  // Properties of the fold
  // ---------------------------------------------------------------------------

  /** Writing a concatenation is writing the first part, then the rest. */
  lemma {:induction false} ApplyWritesAppend(current: Json, a: seq<Write>, b: seq<Write>)
    requires WritesOk(a) && WritesOk(b)
    ensures WritesOk(a + b)
    ensures ApplyWrites(current, a + b) ==
      match ApplyWrites(current, a)
      case Err(e) => Err(e)
      case Ok(next) => ApplyWrites(next, b)
    decreases |a|
  {
    assert WritesOk(a + b) by {
      forall j | 0 <= j < |a + b| ensures |(a + b)[j].segs| >= 1 {
        if j >= |a| { assert (a + b)[j] == b[j - |a|]; }
      }
    }
    if a == [] {
      assert a + b == b;
    } else {
      assert (a + b)[0] == a[0] && (a + b)[1..] == a[1..] + b;
      match SetAt(current, a[0].segs, a[0].path, a[0].value)
      case Err(e) =>
      case Ok(next) =>
        ApplyWritesAppend(next, a[1..], b);
    }
  }

  lemma WritesAppend(pvs: seq<PathValue>, more: seq<PathValue>)
    ensures Writes(pvs + more) == Writes(pvs) + Writes(more)
  {
  }

  /** UnflattenJSON applies the pairs one at a time: the last pair is written
      into the map the others built, and an earlier error stays the result. */
  lemma UnflattenSnoc(pvs: seq<PathValue>, pv: PathValue)
    ensures Unflatten(pvs + [pv]) ==
      match Unflatten(pvs)
      case Err(e) => Err(e)
      case Ok(root) => SetPath(root, pv.path, pv.value)
  {
    WritesAppend(pvs, [pv]);
    ApplyWritesAppend(Obj(map[]), Writes(pvs), Writes([pv]));
    var w := Writes([pv]);
    assert w[1..] == [];
    match ApplyWrites(Obj(map[]), Writes(pvs))
    case Err(e) =>
    case Ok(v) =>
      assert Obj(v.fields) == v;
  }

  /** One pair: a single setValueByPath on an empty root. */
  lemma UnflattenOne(a: PathValue)
    ensures Unflatten([a]) == SetPath(map[], a.path, a.value)
  {
    UnflattenSnoc([], a);
    assert [] + [a] == [a];
  }

  /** Two pairs: the second is written into what the first built. */
  lemma UnflattenTwo(a: PathValue, b: PathValue)
    ensures Unflatten([a, b]) ==
      match SetPath(map[], a.path, a.value)
      case Err(e) => Err(e)
      case Ok(root) => SetPath(root, b.path, b.value)
  {
    UnflattenOne(a);
    UnflattenSnoc([a], b);
    assert [a] + [b] == [a, b];
  }

  /** The error of the first pair that fails is the result, whatever follows. */
  lemma UnflattenFirstError(pvs: seq<PathValue>, k: nat, e: PathError)
    requires k < |pvs| && Unflatten(pvs[..k]).Ok?
    requires SetPath(Unflatten(pvs[..k]).value, pvs[k].path, pvs[k].value) == Err(e)
    ensures Unflatten(pvs) == Err(e)
  {
    assert pvs == pvs[..k] + pvs[k..];
    WritesAppend(pvs[..k], pvs[k..]);
    ApplyWritesAppend(Obj(map[]), Writes(pvs[..k]), Writes(pvs[k..]));
    var root := Unflatten(pvs[..k]).value;
    assert ApplyWrites(Obj(map[]), Writes(pvs[..k])) == Ok(Obj(root));
    assert Writes(pvs[k..])[0] == Write(Segments(pvs[k].path), pvs[k].path, pvs[k].value);
  }

  // ---------------------------------------------------------------------------
  // Properties of one write
  // ---------------------------------------------------------------------------

  /** Reading a tree along parsed segments the way setValueByPath walks it
      (array segments under a key, then the index; in an array only the
      index). */
  function GetAt(current: Json, segs: seq<Segment>): Option<Json>
    decreases |segs|
  {
    if segs == [] then Some(current)
    else
      var seg := segs[0];
      match current
      case Obj(fields) =>
        if seg.key !in fields then None
        else if !seg.isArray then GetAt(fields[seg.key], segs[1..])
        else if fields[seg.key].Arr? && 0 <= seg.index < |fields[seg.key].items| then
          GetAt(fields[seg.key].items[seg.index], segs[1..])
        else None
      case Arr(items) =>
        if 0 <= seg.index < |items| then GetAt(items[seg.index], segs[1..]) else None
      case _ => None
  }

  /** A write that succeeds can be read back at its own path. */
  lemma {:induction false} SetThenGet(current: Json, segs: seq<Segment>, path: string, value: Json)
    requires |segs| >= 1 && SetAt(current, segs, path, value).Ok?
    ensures GetAt(SetAt(current, segs, path, value).value, segs) == Some(value)
    decreases |segs|
  {
    if |segs| > 1 {
      match Step(current, segs[0], false, path, value)
      case Ok(Descended(frame, child)) =>
        SetThenGet(child, segs[1..], path, value);
    }
  }

  /** SetAt one pass down: a pass that descends puts the rest of the write
      back into its frame. Which value is written does not change how a
      pass that is not the last descends. */
  lemma SetAtDescends(current: Json, segs: seq<Segment>, path: string, value: Json)
    requires |segs| >= 2
    ensures forall other :: Step(current, segs[0], false, path, value) == Step(current, segs[0], false, path, other)
    ensures var step := Step(current, segs[0], false, path, value);
      step.Ok? ==> SetAt(current, segs, path, value) == PlugResult(step.value.frame, SetAt(step.value.child, segs[1..], path, value))
  {
  }

  /** The last pass, twice at the same place: the second value replaces the
      first and the padding done by the first is already there. */
  lemma AssignTwice(current: Json, seg: Segment, path: string, first: Json, second: Json)
    requires Step(current, seg, true, path, first).Ok?
    ensures Step(Step(current, seg, true, path, first).value.node, seg, true, path, second) == Step(current, seg, true, path, second)
  {
    var mid := Step(current, seg, true, path, first).value.node;
    match current
    case Obj(fields) =>
      if seg.isArray {
        var arr := Pad(ArrayAt(fields, seg.key), seg.index + 1);
        var arr' := arr[seg.index := first];
        assert ArrayAt(mid.fields, seg.key) == arr';
        assert Pad(arr', seg.index + 1) == arr';
        assert arr'[seg.index := second] == arr[seg.index := second];
        assert mid.fields[seg.key := Arr(arr[seg.index := second])] == fields[seg.key := Arr(arr[seg.index := second])];
      } else {
        assert mid.fields[seg.key := second] == fields[seg.key := second];
      }
    case Arr(items) =>
      assert mid.items[seg.index := second] == items[seg.index := second];
  }

  /** A pass that descended, taken again after the child was rewritten into
      a container: it finds that child in the same place, and putting a
      node back there gives what the first pass would have given. */
  lemma DescendTwice(current: Json, seg: Segment, path: string, first: Json, second: Json, child': Json)
    requires Step(current, seg, false, path, first).Ok?
    requires child'.Obj? || child'.Arr?
    ensures var frame := Step(current, seg, false, path, first).value.frame;
      var again := Step(Plug(frame, child'), seg, false, path, second);
      && again.Ok? && again.value.child == child'
      && forall node :: Plug(again.value.frame, node) == Plug(frame, node)
  {
    var frame := Step(current, seg, false, path, first).value.frame;
    var mid := Plug(frame, child');
    match current
    case Obj(fields) =>
      if seg.isArray {
        var arr := Pad(ArrayAt(fields, seg.key), seg.index + 1);
        var arr' := arr[seg.index := child'];
        assert ArrayAt(mid.fields, seg.key) == arr';
        assert Pad(arr', seg.index + 1) == arr';
        assert Step(mid, seg, false, path, second) == Ok(Descended(SlotFrame(mid.fields, seg.key, arr', seg.index), child'));
        forall node ensures Plug(SlotFrame(mid.fields, seg.key, arr', seg.index), node) == Plug(frame, node) {
          assert arr'[seg.index := node] == arr[seg.index := node];
          assert mid.fields[seg.key := Arr(arr[seg.index := node])] == fields[seg.key := Arr(arr[seg.index := node])];
        }
      } else {
        assert Step(mid, seg, false, path, second) == Ok(Descended(MemberFrame(mid.fields, seg.key), child'));
        forall node ensures Plug(MemberFrame(mid.fields, seg.key), node) == Plug(frame, node) {
          assert mid.fields[seg.key := node] == fields[seg.key := node];
        }
      }
    case Arr(items) =>
      assert Step(mid, seg, false, path, second) == Ok(Descended(ElementFrame(mid.items, seg.index), child'));
      forall node ensures Plug(ElementFrame(mid.items, seg.index), node) == Plug(frame, node) {
        assert mid.items[seg.index := node] == items[seg.index := node];
      }
  }

  /** Writing the same path twice keeps only the second value: the first
      write leaves nothing behind that the second does not overwrite. */
  lemma {:induction false} LastWriteWins(current: Json, segs: seq<Segment>, path: string, first: Json, second: Json)
    requires |segs| >= 1 && SetAt(current, segs, path, first).Ok?
    ensures SetAt(SetAt(current, segs, path, first).value, segs, path, second) == SetAt(current, segs, path, second)
    decreases |segs|
  {
    if |segs| == 1 {
      AssignTwice(current, segs[0], path, first, second);
    } else {
      var frame := Step(current, segs[0], false, path, first).value.frame;
      var child := Step(current, segs[0], false, path, first).value.child;
      var child' := SetAt(child, segs[1..], path, first).value;
      LastWriteWins(child, segs[1..], path, first, second);
      DescendTwice(current, segs[0], path, first, second, child');
      var mid := Plug(frame, child');
      SetAtDescends(current, segs, path, first);
      SetAtDescends(mid, segs, path, second);
      SetAtDescends(current, segs, path, second);
    }
  }

  /** A write into a map changes at most the first segment's key. */
  lemma WriteTouchesOneKey(fields: map<string, Json>, segs: seq<Segment>, path: string, value: Json)
    requires |segs| >= 1 && SetAt(Obj(fields), segs, path, value).Ok?
    ensures var out := SetAt(Obj(fields), segs, path, value).value.fields;
      && out.Keys == fields.Keys + {segs[0].key}
      && forall k :: k in fields && k != segs[0].key ==> out[k] == fields[k]
  {
  }

  /** An array segment under a key grows the array there with nulls to reach
      the index, never shortens it, and leaves the other slots alone; a
      non-array value under the key is replaced by the new array. */
  lemma ArrayWriteGrows(fields: map<string, Json>, segs: seq<Segment>, path: string, value: Json)
    requires |segs| >= 1 && segs[0].isArray
    requires SetAt(Obj(fields), segs, path, value).Ok?
    ensures segs[0].index >= 0
    ensures var out := SetAt(Obj(fields), segs, path, value).value.fields;
      var key, i, before := segs[0].key, segs[0].index, ArrayAt(fields, segs[0].key);
      && key in out && out[key].Arr?
      && |out[key].items| == (if |before| > i then |before| else i + 1)
      && (forall j :: 0 <= j < |before| && j != i ==> out[key].items[j] == before[j])
      && (forall j :: |before| <= j < |out[key].items| && j != i ==> out[key].items[j] == Null)
      && (|segs| == 1 ==> out[key].items[i] == value)
  {
  }

  /** A one-segment plain write sets the key. */
  lemma WriteKey(fields: map<string, Json>, seg: Segment, path: string, value: Json)
    requires !seg.isArray
    ensures SetAt(Obj(fields), [seg], path, value) == Ok(Obj(fields[seg.key := value]))
  {
  }

  /** A one-segment array write pads the array under the key and sets the
      slot. */
  lemma WriteSlot(fields: map<string, Json>, seg: Segment, path: string, value: Json)
    requires seg.isArray && seg.index >= 0
    ensures SetAt(Obj(fields), [seg], path, value) ==
      Ok(Obj(fields[seg.key := Arr(Pad(ArrayAt(fields, seg.key), seg.index + 1)[seg.index := value])]))
  {
  }

  /** `key[i]` written into an empty root: an array of i nulls followed by
      the value. */
  lemma IndexedWriteIntoEmpty(key: string, i: nat, path: string, value: Json)
    ensures SetAt(Obj(map[]), [Segment(key, i, true)], path, value) == Ok(Obj(map[key := Arr(seq(i, _ => Null) + [value])]))
  {
    var arr := Pad(ArrayAt(map[], key), i + 1);
    assert arr[i := value] == seq(i, _ => Null) + [value];
  }

  // ---------------------------------------------------------------------------
  // The errors
  // ---------------------------------------------------------------------------

  /** One pass fails exactly at a scalar cursor, at a negative index the pass
      would use, or at an index past the end of an array the cursor is on. */
  lemma StepFails(current: Json, seg: Segment, isLast: bool, path: string, value: Json)
    ensures Step(current, seg, isLast, path, value).Err? <==>
      || IsScalar(current)
      || ((current.Arr? || seg.isArray) && seg.index < 0)
      || (current.Arr? && seg.index >= |current.items|)
    ensures IsScalar(current) ==> Step(current, seg, isLast, path, value) == Err(InvalidContainer(path))
    ensures current.Arr? && seg.index >= |current.items| ==> Step(current, seg, isLast, path, value) == Err(OutOfRange(seg.index, path))
  {
  }

  /** Descending through a key that holds a scalar, null included, fails:
      only a missing key is replaced by a fresh map. */
  lemma ScalarUnderKeyFails(fields: map<string, Json>, segs: seq<Segment>, path: string, value: Json)
    requires |segs| >= 2 && !segs[0].isArray
    requires segs[0].key in fields && IsScalar(fields[segs[0].key])
    ensures SetAt(Obj(fields), segs, path, value) == Err(InvalidContainer(path))
  {
    assert Step(Obj(fields), segs[0], false, path, value) == Ok(Descended(MemberFrame(fields, segs[0].key), fields[segs[0].key]));
  }

  /** Descending into an existing array through a plain segment uses that
      segment's index (0 for a plain key) and never grows the array. */
  lemma IndexPastArrayFails(fields: map<string, Json>, segs: seq<Segment>, path: string, value: Json)
    requires |segs| >= 2 && !segs[0].isArray
    requires segs[0].key in fields && fields[segs[0].key].Arr?
    requires segs[1].index >= |fields[segs[0].key].items|
    ensures SetAt(Obj(fields), segs, path, value) == Err(OutOfRange(segs[1].index, path))
  {
    var child := fields[segs[0].key];
    assert Step(Obj(fields), segs[0], false, path, value) == Ok(Descended(MemberFrame(fields, segs[0].key), child));
    assert segs[1..][0] == segs[1];
  }
}
