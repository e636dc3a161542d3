/** The dotted/bracketed path notation: `parsePath` splits a path on every
    dot, `parseArrayKey` splits one segment into its base key, its index and
    whether it carries brackets. Index text is read the way `strconv.Atoi`
    reads it, and a syntax error is ignored (the index becomes 0). */
module PathGrammar {
  import opened JsonValue

  // ---------------------------------------------------------------------------
  // parsePath: strings.Split(path, ".")
  // ---------------------------------------------------------------------------

  /** The inverse of splitting: the parts glued back with dots. */
  function Join(parts: seq<string>): string
    requires |parts| >= 1
  {
    if |parts| == 1 then parts[0] else parts[0] + "." + Join(parts[1..])
  }

  /** `parsePath`: the text between dots, left to right. An empty path gives
      one empty segment, as strings.Split does. */
  function ParsePath(path: string): (parts: seq<string>)
    ensures |parts| >= 1
    ensures forall i :: 0 <= i < |parts| ==> '.' !in parts[i]
    ensures Join(parts) == path
    decreases |path|
  {
    if path == [] then [""]
    else if path[0] == '.' then
      var rest := ParsePath(path[1..]);
      assert ([""] + rest)[1..] == rest;
      [""] + rest
    else
      var rest := ParsePath(path[1..]);
      var parts := [[path[0]] + rest[0]] + rest[1..];
      assert parts[1..] == rest[1..];
      assert path == [path[0]] + path[1..];
      parts
  }

  /** Splitting a text that starts with the character `c`. */
  lemma ParsePathCons(c: char, t: string)
    ensures ParsePath([c] + t) ==
      if c == '.' then [""] + ParsePath(t) else [[c] + ParsePath(t)[0]] + ParsePath(t)[1..]
  {
    assert ([c] + t)[0] == c && ([c] + t)[1..] == t;
  }

  /** Splitting a dotted concatenation splits each side. */
  lemma {:induction false} ParsePathAppend(a: string, b: string)
    ensures ParsePath(a + "." + b) == ParsePath(a) + ParsePath(b)
    decreases |a|
  {
    if a == [] {
      assert a + "." + b == ['.'] + b;
      ParsePathCons('.', b);
    } else {
      var c, t := a[0], a[1..];
      assert a == [c] + t;
      assert a + "." + b == [c] + (t + "." + b);
      ParsePathAppend(t, b);
      ParsePathCons(c, t);
      ParsePathCons(c, t + "." + b);
      GlueFirst(if c == '.' then None else Some([c]), ParsePath(t), ParsePath(b));
    }
  }

  /** Starting the first part with more text, or adding an empty part in
      front, commutes with appending more parts. */
  lemma GlueFirst(head: Option<string>, u: seq<string>, v: seq<string>)
    requires |u| >= 1
    ensures head.None? ==> [""] + (u + v) == ([""] + u) + v
    ensures head.Some? ==> [head.value + (u + v)[0]] + (u + v)[1..] == ([head.value + u[0]] + u[1..]) + v
  {
    assert (u + v)[0] == u[0] && (u + v)[1..] == u[1..] + v;
  }

  /** A dot-free text is a single segment. */
  lemma {:induction false} ParsePathOfSegment(a: string)
    requires '.' !in a
    ensures ParsePath(a) == [a]
    decreases |a|
  {
    if a != [] {
      ParsePathOfSegment(a[1..]);
      assert a == [a[0]] + a[1..];
    }
  }

  /** Round trip the other way: joining dot-free parts and splitting again
      gives the parts back. */
  lemma {:induction false} ParsePathOfJoin(parts: seq<string>)
    requires |parts| >= 1
    requires forall i :: 0 <= i < |parts| ==> '.' !in parts[i]
    ensures ParsePath(Join(parts)) == parts
    decreases |parts|
  {
    ParsePathOfSegment(parts[0]);
    if |parts| > 1 {
      ParsePathOfJoin(parts[1..]);
      ParsePathAppend(parts[0], Join(parts[1..]));
      assert [parts[0]] + parts[1..] == parts;
    }
  }

  // ---------------------------------------------------------------------------
  // strconv.Atoi and the %d formatting used by flattenValue
  // ---------------------------------------------------------------------------

  predicate IsDigit(c: char)
  {
    '0' <= c <= '9'
  }

  predicate AllDigits(s: string)
  {
    forall i :: 0 <= i < |s| ==> IsDigit(s[i])
  }

  /** The value of a run of decimal digits. */
  function DigitsValue(s: string): nat
    requires AllDigits(s)
    decreases |s|
  {
    if s == [] then 0
    else DigitsValue(s[..|s| - 1]) * 10 + (s[|s| - 1] as int - '0' as int)
  }

  /** `strconv.Atoi` within 64 bits: an optional sign followed by one or more
      decimal digits; anything else is a syntax error (`None`). */
  function Atoi(s: string): (r: Option<int>)
    ensures r.Some? ==> |s| > 0 && (IsDigit(s[0]) || s[0] == '+' || s[0] == '-')
    ensures r.Some? ==> forall i :: 0 < i < |s| ==> IsDigit(s[i])
    ensures r.Some? && r.value < 0 ==> s[0] == '-'
  {
    if |s| > 0 && (s[0] == '+' || s[0] == '-') then
      var digits := s[1..];
      if |digits| > 0 && AllDigits(digits) then
        Some(if s[0] == '-' then -(DigitsValue(digits) as int) else DigitsValue(digits))
      else None
    else if |s| > 0 && AllDigits(s) then Some(DigitsValue(s))
    else None
  }

  /** `index, _ := strconv.Atoi(indexStr)`: the error is dropped, so any text
      Atoi rejects reads as index 0. */
  function IndexValue(s: string): (index: int)
    ensures s == "" || '[' in s || ']' in s || '.' in s ==> index == 0
    ensures |s| > 0 && AllDigits(s) ==> index == DigitsValue(s)
  {
    match Atoi(s)
    case Some(n) => n
    case None => 0
  }

  function DigitChar(d: nat): char
    requires d < 10
  {
    ('0' as int + d) as char
  }

  /** `fmt.Sprintf("%d", n)` for a non-negative n: its decimal digits, with
      no leading zero except for 0 itself. */
  function Itoa(n: nat): (s: string)
    ensures |s| > 0 && AllDigits(s)
    ensures s[0] == '0' ==> n == 0
    ensures '.' !in s && '[' !in s && ']' !in s
    decreases n
  {
    (if n < 10 then "" else Itoa(n / 10)) + [DigitChar(n % 10)]
  }

  /** Reading back what %d wrote gives the number. */
  lemma {:induction false} DigitsValueOfItoa(n: nat)
    ensures DigitsValue(Itoa(n)) == n
    decreases n
  {
    var s := Itoa(n);
    if n < 10 {
      assert s[..|s| - 1] == "";
    } else {
      DigitsValueOfItoa(n / 10);
      assert s[..|s| - 1] == Itoa(n / 10);
    }
  }

  lemma AtoiOfItoa(n: nat)
    ensures Atoi(Itoa(n)) == Some(n)
    ensures IndexValue(Itoa(n)) == n
  {
    DigitsValueOfItoa(n);
    assert IsDigit(Itoa(n)[0]);
  }

  // ---------------------------------------------------------------------------
  // parseArrayKey
  // ---------------------------------------------------------------------------

  /** One parsed path segment: `parseArrayKey`'s (base, idx, isArray). */
  datatype Segment = Segment(key: string, index: int, isArray: bool)

  /** `strings.Index(s, string(c))` for a character that occurs. */
  function FirstIndex(s: string, c: char): (i: nat)
    requires c in s
    ensures i < |s| && s[i] == c && c !in s[..i]
  {
    if s[0] == c then 0
    else
      var i := 1 + FirstIndex(s[1..], c);
      assert s[..i] == [s[0]] + s[1..][..i - 1];
      i
  }

  /** `parseArrayKey`: a segment that contains `[` and ends in `]` is an array
      segment whose key is the text before the first `[` and whose index is
      the (error-ignoring) Atoi of the text from there to the last character;
      any other segment is a plain key with index 0. */
  function ParseArrayKey(part: string): (seg: Segment)
    ensures seg.isArray <==> '[' in part && part[|part| - 1] == ']'
    ensures seg.isArray ==>
      && '[' !in seg.key
      && |seg.key| + 2 <= |part|
      && part[..|seg.key| + 1] == seg.key + "["
      && seg.index == IndexValue(part[|seg.key| + 1 .. |part| - 1])
    ensures !seg.isArray ==> seg.key == part && seg.index == 0
  {
    if '[' in part && part[|part| - 1] == ']' then
      var open := FirstIndex(part, '[');
      assert part[..open + 1] == part[..open] + "[";
      Segment(part[..open], IndexValue(part[open + 1 .. |part| - 1]), true)
    else
      Segment(part, 0, false)
  }

  /** The segment text flattenValue writes for element `i` of the array under
      `key`, read back by parseArrayKey. */
  lemma ParseArrayKeyOfIndexed(key: string, i: nat)
    requires '[' !in key
    ensures ParseArrayKey(key + "[" + Itoa(i) + "]") == Segment(key, i, true)
  {
    var part := key + "[" + Itoa(i) + "]";
    assert part[|key|] == '[';
    var seg := ParseArrayKey(part);
    assert seg.isArray;
    assert part[..|seg.key| + 1] == seg.key + "[";
    assert seg.key == part[..|key|] == key;
    assert part[|key| + 1 .. |part| - 1] == Itoa(i);
    AtoiOfItoa(i);
  }

  /** The parsed segments of a whole path. */
  function Segments(path: string): (segs: seq<Segment>)
    ensures |segs| == |ParsePath(path)| >= 1
  {
    var parts := ParsePath(path);
    seq(|parts|, i requires 0 <= i < |parts| => ParseArrayKey(parts[i]))
  }

  /** Parsing `a.b` parses `a` and then `b`. */
  lemma SegmentsAppend(a: string, b: string)
    ensures Segments(a + "." + b) == Segments(a) + Segments(b)
  {
    ParsePathAppend(a, b);
  }

  /** A plain key with no dot and no bracket is one plain segment. */
  lemma SegmentsOfKey(key: string)
    requires '.' !in key && '[' !in key
    ensures Segments(key) == [Segment(key, 0, false)]
  {
    ParsePathOfSegment(key);
  }

  /** `key[i]` is one array segment. */
  lemma SegmentsOfIndexed(key: string, i: nat)
    requires '.' !in key && '[' !in key
    ensures Segments(key + "[" + Itoa(i) + "]") == [Segment(key, i, true)]
  {
    var part := key + "[" + Itoa(i) + "]";
    IndexedHasNoDot(key, i);
    SegmentsOfPart(part);
    ParseArrayKeyOfIndexed(key, i);
  }

  /** A dot-free part is one segment. */
  lemma SegmentsOfPart(part: string)
    requires '.' !in part
    ensures Segments(part) == [ParseArrayKey(part)]
  {
    ParsePathOfSegment(part);
  }

  lemma IndexedHasNoDot(key: string, i: nat)
    requires '.' !in key
    ensures '.' !in key + "[" + Itoa(i) + "]"
  {
    var part := key + "[" + Itoa(i) + "]";
    forall j | 0 <= j < |part| ensures part[j] != '.' {
      if j < |key| { assert part[j] == key[j]; }
      else if |key| < j < |part| - 1 { assert part[j] == Itoa(i)[j - |key| - 1]; }
    }
  }

  /** The empty path is one empty key, as strings.Split gives it. */
  lemma ParsePathEmpty()
    ensures ParsePath("") == [""]
  {
  }

  /** The empty-array marker reads as index 0. */
  lemma ParseArrayKeyMarker()
    ensures ParseArrayKey("a[]") == Segment("a", 0, true)
  {
    assert "a[]"[1] == '[';
  }

  /** No index of `a[0][1]` is read: the text `0][1` between the first `[`
      and the final `]` is not a number, so the index is 0 whatever the
      first index was. */
  lemma ParseArrayKeySecondIndex()
    ensures ParseArrayKey("a[0][1]") == Segment("a", 0, true)
  {
    assert "a[0][1]"[1] == '[';
    assert "a[0][1]"[2..6] == "0][1";
    assert !IsDigit("0][1"[1]);
  }

  /** Non-numeric text between the brackets reads as index 0. */
  lemma ParseArrayKeyNonNumeric()
    ensures ParseArrayKey("a[x]") == Segment("a", 0, true)
  {
    assert "a[x]"[1] == '[';
    assert "a[x]"[2..3] == "x";
  }

  /** A leading minus sign gives a negative index. */
  lemma ParseArrayKeyNegative()
    ensures ParseArrayKey("a[-1]") == Segment("a", -1, true)
  {
    assert "a[-1]"[1] == '[';
    assert "a[-1]"[2..4] == "-1";
    assert "-1"[1..] == "1";
    assert DigitsValue("1") == 1 by { assert "1"[..0] == ""; }
  }
}
