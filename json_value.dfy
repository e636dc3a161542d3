/** The generic JSON tree, path/value pairs and the error results shared by the
    flattener, the unflattener and the path transformers of jsonpathmap.go. */
module JsonValue {

  /** A decoded JSON value. Go's `nil` is `Null`; numbers are opaque (their
      decimal text), nothing in the library looks inside them. */
  datatype Json =
    | Obj(fields: map<string, Json>)
    | Arr(items: seq<Json>)
    | Str(text: string)
    | Num(literal: string)
    | Bool(flag: bool)
    | Null

  /** A value that is neither an object nor an array. */
  predicate IsScalar(v: Json)
  {
    !v.Obj? && !v.Arr?
  }

  /** Two values built with the same container constructor. */
  predicate SameKind(a: Json, b: Json)
  {
    (a.Obj? <==> b.Obj?) && (a.Arr? <==> b.Arr?)
  }

  /** `PathValue`: one flattened leaf. */
  datatype PathValue = PathValue(path: string, value: Json)

  datatype Option<+T> = None | Some(value: T)

  /** The two errors setValueByPath returns, plus the index panic that Go
      raises at `arr[idx]` for a negative index. Each carries the whole path. */
  datatype PathError =
    | OutOfRange(index: int, path: string)
    | InvalidContainer(path: string)
    | NegativeIndex(index: int, path: string)

  datatype Result<+T> = Ok(value: T) | Err(error: PathError)
}
