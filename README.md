# jsonpathmap in Dafny

jsonpathmap turns a JSON document into a flat list of `(path, value)`
pairs and back again. It also rewrites the paths between a data shape
(`data.items[0].x`) and a schema shape (`data.items[].x`).
This project models the core of `jsonpathmap.go` and proves properties of
that model.

The modules:

- `JsonValue`: the decoded JSON tree `Json`, the `PathValue` pair, the
  `Option` and `Result` wrappers, and the errors setValueByPath can produce.
  The errors are `OutOfRange`, `InvalidContainer` and `NegativeIndex`.
- `PathGrammar`: parsePath (`strings.Split(path, ".")`) and parseArrayKey.
  The index text is read as `strconv.Atoi` reads it, and a parse error is
  dropped, so the index becomes 0. It also has the `%d` printing that
  flattenValue uses.
- `Flattener`: flattenValue and FlattenJSON as methods with loops.
  - Each method is proved equal to the recursive specification `Flatten`.
  - Go's random map iteration order is a parameter `order`, which must list
    the keys of each map exactly once (`ValidOrder`).
  - The lemmas give the pair rules, the pair count and how paths relocate
    under a prefix.
- `Unflattener`: setValueByPath as the loop Go runs. A cursor walks down
  the path and keeps a stack of frames for the containers it passed.
  - Writing a frame back stands for Go's in-place update of shared maps and
    slices.
  - The method is proved equal to the recursive specification `SetAt`.
  - UnflattenJSON is a loop over the pairs, proved equal to `Unflatten`.
  - The lemmas cover the error cases, array growth and padding,
    last-write-wins and read-after-write.
- `PathTransformers`: the NormalizeArrayPath, IndexArrayPath and Unqueue
  loops.
  - Each is proved equal to a specification: the rewrites `NormalizePath`
    and `IndexPath`, and the back-recursive `Dedup`.
  - Normalizing is idempotent, and indexing is idempotent.
  - Indexing after normalizing sends every `[digits]` and every `[]` to
    `[0]`.
  - Unqueue keeps a subsequence with distinct paths, keeps the first pair
    for each path, and is idempotent.
- `RoundTrip`: UnflattenJSON(FlattenJSON(m)) gives back `m` for every
  well-formed object `m` and every iteration order. The root object itself
  may be empty. Below the root, well-formed means:
  - every object and array is non-empty;
  - no key is empty or contains `.` or `[`;
  - no array directly holds an array.
- `UnflattenExamples`: worked examples of what UnflattenJSON returns on
  fixed inputs that pin down the quirks of setValueByPath.

Behaviour of the code that the model keeps:

- The code does not detect type conflicts. `("a", 1), ("a[0]", 2)` gives
  `{"a": [2]}`: the scalar under `a` is replaced by a new array
  (`UnflattenExamples.ArraySegmentReplacesValue`).
- A malformed index is not an error; it reads as 0. This covers `a[x]` and
  `a[]`. It also covers `a[0][1]`, whose text `0][1` is not a number, so no
  index of it is read.
- `{"a": []}` flattens to the marker pair `("a[]", null)`. Since `a[]`
  reads as index 0, unflattening that pair gives `{"a": [null]}`
  (`UnflattenExamples.EmptyMarkerGivesNullElement`).
- A null array slot on the way down becomes a map
  (`UnflattenExamples.NullSlotBecomesMap`). A key holding null stays null,
  and the next step then fails with the invalid-container error
  (`UnflattenExamples.NullKeyIsNotAContainer`).
- Where a path reaches an existing array through a plain segment, the code
  ignores the segment's key. It writes or descends at index 0 and never
  grows that array (`UnflattenExamples.ArrayBranchIgnoresKey`,
  `UnflattenExamples.ArrayBranchOutOfRange`).

Two of these points shape the round trip's conditions:

- Empty arrays are excluded because the marker comes back as `[null]`.
- Arrays directly inside arrays are excluded because of the index parsing:
  `a[i][j]` reads as index 0 of `a`.

Because parsePath splits at every `.` and parseArrayKey looks for `[`, the
keys must contain neither of them. A `]` inside a key does no harm.

## Model

| member | source | states |
|---|---|---|
| PathGrammar.ParsePath | jsonpathmap.go:163-166 | strings.Split by `.`: at least one part, no part contains `.`, and joining the parts with `.` gives the path back |
| PathGrammar.ParsePathOfJoin | jsonpathmap.go:163-166 | the other direction: splitting the join of dot-free parts gives those parts back |
| PathGrammar.ParsePathAppend | jsonpathmap.go:164 | splitting `a.b` is splitting `a` and then `b` |
| PathGrammar.ParsePathOfSegment | jsonpathmap.go:164 | a path without `.` is a single part |
| PathGrammar.ParsePathEmpty | jsonpathmap.go:164 | the empty path is one empty part |
| PathGrammar.Atoi | jsonpathmap.go:173 | strconv.Atoi accepts only a non-empty text of an optional sign followed by digits, and a negative result needs a leading `-` |
| PathGrammar.IndexValue | jsonpathmap.go:172-173 | with Atoi's error dropped, empty text or text holding `[`, `]` or `.` gives index 0, and plain digits give their value |
| PathGrammar.FirstIndex | jsonpathmap.go:171 | strings.Index: the position of the first occurrence of the character |
| PathGrammar.ParseArrayKey | jsonpathmap.go:169-177 | isArray exactly when the part contains `[` and ends with `]`; then the key is the text before the first `[` and the index is the Atoi reading of the text between that `[` and the final `]` (0 on a parse error); otherwise the key is the whole part and the index 0 |
| PathGrammar.ParseArrayKeyOfIndexed | jsonpathmap.go:169-177 | parsing `key[i]`, as flattenValue prints it, gives back key, i and isArray |
| PathGrammar.Itoa | jsonpathmap.go:87 | `%d` printing: non-empty, all digits, no leading zero unless the number is 0, no `.`, `[` or `]` |
| PathGrammar.DigitsValueOfItoa | jsonpathmap.go:87 | reading back the digits `%d` printed gives the number |
| PathGrammar.AtoiOfItoa | jsonpathmap.go:173 | strconv.Atoi of a printed index gives the index |
| PathGrammar.ParseArrayKeyMarker | jsonpathmap.go:170-174 | `a[]` parses as key `a`, index 0, array |
| PathGrammar.ParseArrayKeySecondIndex | jsonpathmap.go:170-174 | `a[0][1]` parses as key `a`, index 0: the whole text `0][1` fails Atoi, so no index is read |
| PathGrammar.ParseArrayKeyNonNumeric | jsonpathmap.go:170-174 | `a[x]` parses as key `a`, index 0 |
| PathGrammar.ParseArrayKeyNegative | jsonpathmap.go:170-174 | `a[-1]` parses as key `a`, index -1 |
| PathGrammar.Segments | jsonpathmap.go:110-115 | one parsed segment per part of the path |
| PathGrammar.SegmentsAppend | jsonpathmap.go:110-115 | the segments of `a.b` are those of `a` followed by those of `b` |
| PathGrammar.SegmentsOfKey | jsonpathmap.go:110-115 | a key without `.` or `[` is one plain segment |
| PathGrammar.SegmentsOfIndexed | jsonpathmap.go:110-115 | `key[i]` is one array segment with index i |
| Flattener.Flatten | jsonpathmap.go:69-96 | the pairs flattenValue appends: one pair at the prefix for a scalar, the marker `prefix[]` with null for an empty array, none for an empty object; the recursive cases are pinned by FlattenPairs, FlattenLength and RoundTrip.UnflattenFlatten |
| Flattener.FlattenValue | jsonpathmap.go:69-96 | the recursive walk appends exactly `Flatten(data, prefix, order)` to the pairs so far |
| Flattener.FlattenObject | jsonpathmap.go:71-80 | the map loop appends the pairs of every member, in the iteration order, under `prefix.key` (or `key` at the root) |
| Flattener.FlattenArray | jsonpathmap.go:86-91 | the slice loop appends the pairs of every element in order under `prefix[i]` |
| Flattener.FlattenJSON | jsonpathmap.go:52-67 | the result is the flattening of the decoded value from the empty prefix |
| Flattener.FlattenPairs | jsonpathmap.go:69-96 | every pair holds a scalar (or the null of an empty-array marker) and its path extends the prefix |
| Flattener.FlattenLength | jsonpathmap.go:69-96 | the number of pairs is the leaf count: one per scalar, one per empty array, none for an empty object |
| Flattener.FlattenEmptyArraySentinel | jsonpathmap.go:82-85 | `{"a": []}` flattens to the single pair `("a[]", null)` |
| Flattener.FlattenRelocate | jsonpathmap.go:73-76 | flattening under `base.q` is flattening under `q` and putting `base.` in front of every path |
| Flattener.FlattenObjectUnder | jsonpathmap.go:73-76 | an object with non-empty keys flattened under `base` gives its root-level pairs with `base.` in front |
| Unflattener.Pad | jsonpathmap.go:124-126 | the array grows with nulls to at least the length asked for and keeps its elements |
| Unflattener.PadWithNulls | jsonpathmap.go:124-126 | the append loop yields `Pad(arr, index + 1)` |
| Unflattener.Step | jsonpathmap.go:117-157 | one pass of the loop succeeds only in a map or a slice; it writes exactly on the last segment, a write keeps the container's kind, and a descent into a slice is recorded as a slice frame |
| Unflattener.StepFails | jsonpathmap.go:146-157 | a pass fails exactly when the current node is a scalar (invalid container), when an index is negative where Go indexes with it (the panic), or when the index is past the end of an existing slice (out of range) |
| Unflattener.SetAt | jsonpathmap.go:109-160 | a successful write keeps the root's kind, and it succeeds only on a map or a slice |
| Unflattener.StepInObject | jsonpathmap.go:118-145 | the map branch of the loop computes `Step` on a map |
| Unflattener.StepInArray | jsonpathmap.go:146-154 | the slice branch computes `Step` on a slice |
| Unflattener.StepIn | jsonpathmap.go:117-157 | the type switch computes `Step` |
| Unflattener.StepRebuilds | jsonpathmap.go:113-158 | one pass of the cursor loop, with the frames written back, leaves the final result unchanged |
| Unflattener.SetPath | jsonpathmap.go:109-160 | setValueByPath on the root map: a successful write leaves the root's keys plus the first segment's key, and every other key unchanged |
| Unflattener.SetValueByPath | jsonpathmap.go:109-160 | the cursor loop over the parts returns what `SetAt` gives for the parsed segments |
| Unflattener.Unflatten | jsonpathmap.go:99-107 | the pairs written in order into an empty root, the first error being the result; on success the first key of every pair's path is in the root |
| Unflattener.ApplyWritesKeys | jsonpathmap.go:101-105 | a run of writes keeps every key of the root and adds the first key of each write |
| Unflattener.UnflattenJSON | jsonpathmap.go:99-107 | the loop returns `Unflatten(pvs)`: the pairs written in order into an empty map, stopping at the first error |
| Unflattener.ApplyWritesAppend | jsonpathmap.go:101-105 | writing `a + b` is writing `a` and then, unless that failed, writing `b` |
| Unflattener.UnflattenSnoc | jsonpathmap.go:101-105 | one more pair is one more setValueByPath on the map built so far |
| Unflattener.UnflattenFirstError | jsonpathmap.go:102-104 | the first failing pair's error is the result of the whole call |
| Unflattener.SetThenGet | jsonpathmap.go:109-160 | after a successful write, reading back along the same segments finds the value |
| Unflattener.LastWriteWins | jsonpathmap.go:109-160 | writing the same segments twice is the same as writing only the second value |
| Unflattener.AssignTwice | jsonpathmap.go:128 | a second assignment on the last segment replaces the first |
| Unflattener.DescendTwice | jsonpathmap.go:119-145 | descending again through the same segment reaches the slot the first descent left |
| Unflattener.WriteTouchesOneKey | jsonpathmap.go:118-145 | a write into a map adds or changes only the key of the first segment |
| Unflattener.ArrayWriteGrows | jsonpathmap.go:119-135 | an array segment leaves an array under its key, grown with nulls to index + 1 when it was shorter, keeps every other element, and holds the value at the index when it is the last segment |
| Unflattener.WriteKey | jsonpathmap.go:137-138 | a single plain segment sets the key to the value |
| Unflattener.WriteSlot | jsonpathmap.go:119-135 | a single array segment pads the array under the key and sets the slot |
| Unflattener.IndexedWriteIntoEmpty | jsonpathmap.go:119-135 | `key[i]` in an empty map gives i nulls followed by the value |
| Unflattener.ScalarUnderKeyFails | jsonpathmap.go:140-156 | descending through a key that holds a scalar or null fails as an invalid container |
| Unflattener.IndexPastArrayFails | jsonpathmap.go:146-148 | reaching an existing slice with an index it does not have fails as out of range |
| PathTransformers.NormalizePath | jsonpathmap.go:21-23 | the `\[\d+\]` to `[]` rewrite keeps the empty path empty and keeps the first character |
| PathTransformers.IndexPath | jsonpathmap.go:33 | the `[]` to `[0]` rewrite keeps the empty path empty and keeps the first character |
| PathTransformers.NormalizeIdempotent | jsonpathmap.go:21-23 | normalizing twice is normalizing once |
| PathTransformers.IndexAfterNormalize | jsonpathmap.go:21-33 | indexing a normalized path turns every `[digits]` and every `[]` into `[0]` (the reference `ZeroPath`) |
| PathTransformers.IndexLeavesNoEmptyBrackets | jsonpathmap.go:33 | no `[]` is left after indexing |
| PathTransformers.IndexWithoutEmptyBrackets | jsonpathmap.go:33 | a path without `[]` is left unchanged |
| PathTransformers.IndexIdempotent | jsonpathmap.go:33 | indexing twice is indexing once |
| PathTransformers.NormalizeArrayPath | jsonpathmap.go:19-27 | the loop rewrites each path in order and carries each value over |
| PathTransformers.IndexArrayPath | jsonpathmap.go:30-37 | the loop rewrites each path in order and carries each value over |
| PathTransformers.NormalizeAllProperties | jsonpathmap.go:19-27 | the same length, the same values in the same order, and normalizing the list again changes nothing |
| PathTransformers.IndexAllProperties | jsonpathmap.go:30-37 | the same length and values, idempotent, and indexing the normalized list gives `ZeroPath` of every path |
| PathTransformers.Dedup | jsonpathmap.go:39-49 | the pairs whose path has not occurred earlier: never longer than the input, and every kept pair comes from the input |
| PathTransformers.Unqueue | jsonpathmap.go:39-49 | the loop with the seen-set returns `Dedup(ps)` |
| PathTransformers.DedupPaths | jsonpathmap.go:39-49 | the same set of paths as the input |
| PathTransformers.DedupDistinct | jsonpathmap.go:39-49 | no path occurs twice in the result |
| PathTransformers.DedupSubsequence | jsonpathmap.go:39-49 | the result is a subsequence of the input |
| PathTransformers.DedupFirstOccurrence | jsonpathmap.go:43-46 | each kept pair is the first pair of the input with its path |
| PathTransformers.FirstWithAbsent | jsonpathmap.go:43 | a path that does not occur has no first pair |
| PathTransformers.DedupOfDistinct | jsonpathmap.go:39-49 | a list with distinct paths is returned unchanged |
| PathTransformers.DedupIdempotent | jsonpathmap.go:39-49 | applying Unqueue twice is applying it once |
| RoundTrip.ApplyWritesPathIrrelevant | jsonpathmap.go:148-156 | the path string only appears in error messages: writes that differ only in it succeed together, with the same tree |
| RoundTrip.MemberLift | jsonpathmap.go:136-145 | writes that all go below a plain key act on the member under that key and leave the rest of the map alone |
| RoundTrip.SlotLift | jsonpathmap.go:119-135 | writes that all go below `key[i]` act on that slot of the padded array |
| RoundTrip.FlattenNonEmpty | jsonpathmap.go:69-96 | a well-formed value emits at least one pair |
| RoundTrip.KeyWrites | jsonpathmap.go:52-160 | the pairs of a well-formed member, written into a map without that key, add the key with the member |
| RoundTrip.ItemsWrites | jsonpathmap.go:86-91 | the pairs of the first n elements of a well-formed array add the key with those n elements |
| RoundTrip.ElementWrites | jsonpathmap.go:86-91 | the pairs of one element, at the next index, append it to the array under the key |
| RoundTrip.FieldsWrites | jsonpathmap.go:71-80 | the pairs of the listed members, written into an empty map, give the object restricted to those keys |
| RoundTrip.RootWrites | jsonpathmap.go:52-160 | the pairs of a well-formed object, written into an empty map, rebuild the object |
| RoundTrip.UnflattenFlatten | jsonpathmap.go:52-160 | UnflattenJSON after FlattenJSON gives back every well-formed object, for every iteration order |
| UnflattenExamples.EmptyMarkerGivesNullElement | jsonpathmap.go:119-135 | `("a[]", null)` unflattens to `{"a": [null]}` |
| UnflattenExamples.IndexPadsWithNulls | jsonpathmap.go:119-135 | `key[i]` alone unflattens to an array of i nulls and then the value |
| UnflattenExamples.ArraySegmentReplacesValue | jsonpathmap.go:120-123 | a scalar under a key is silently replaced by a new array when `key[0]` is written next |
| UnflattenExamples.ArrayBranchIgnoresKey | jsonpathmap.go:146-153 | `key.other` over an existing array writes index 0 and ignores `other` |
| UnflattenExamples.NullKeyIsNotAContainer | jsonpathmap.go:140-156 | `("a", null), ("a.b", 1)` fails as an invalid container |
| UnflattenExamples.NullSlotBecomesMap | jsonpathmap.go:130-132 | `a[1].b` creates `[null, {"b": ...}]`: the null slot becomes a map |
| UnflattenExamples.ArrayBranchOutOfRange | jsonpathmap.go:147-148 | `a.x` over an empty array under `a` fails as out of range at index 0 |

## Left out

- The `encoding/json` marshal and unmarshal round trip in FlattenJSON (jsonpathmap.go:54-61) and its errors are not modelled. The model starts from the decoded tree `Json`.
- UnMarshalJSON and MarshalJSON (jsonpathmap.go:179-190) are thin codec wrappers and are not modelled.
- Numbers are kept as their literal text. float64 conversion and rounding are not modelled.
- The regular expression engine is replaced by a left-to-right scan (`NormalizePath`). `\d` is taken as ASCII digits, and the scan finds the same non-overlapping matches as `ReplaceAllString`.
- Paths are sequences of characters. Go indexes strings by byte, which can differ for keys outside ASCII.
- PathGrammar.Atoi: does not model Atoi's range error for indices beyond 64 bits. Go then returns a clamped value with an error that the code drops; the model reads the full number.
- Go's random map iteration order is a parameter `order` of the flattener. Every proved property holds for every order that lists each map's keys once.
- Unflattener.SetValueByPath: returns the new map instead of updating `root` in place. On an error Go leaves `root` partly changed, and UnflattenJSON then discards it, so the difference cannot be seen through UnflattenJSON.
- Aliasing is not modelled. Go stores a slice or map taken from a pair's value into the tree and later updates it in place, so the caller's value can change too. The model treats values as values.
- The index panic on a negative index is modelled as the error `NegativeIndex`.
- An empty result in Go is a nil slice. In the model it is the empty sequence.
- flattenValue's error return is never non-nil in the code: only the recursive calls return errors, and the leaves never do. The model has no error path there.
- PathTransformers.NormalizePath: its own contract states only emptiness and the first character. Its meaning is given by NormalizeIdempotent and IndexAfterNormalize.
- PathTransformers.IndexPath: its own contract states only emptiness and the first character. Its meaning is given by IndexLeavesNoEmptyBrackets, IndexWithoutEmptyBrackets, IndexIdempotent and IndexAfterNormalize.
