/** The three list transforms on PathValues: NormalizeArrayPath rewrites
    every `[digits]` to `[]`, IndexArrayPath rewrites every `[]` to `[0]`,
    and Unqueue keeps the first pair for each path. Each builds a fresh list
    in a loop and leaves its input alone. */
module PathTransformers {
  import opened JsonValue
  import opened PathGrammar

  // ---------------------------------------------------------------------------
  // The two rewrites of one path
  // ---------------------------------------------------------------------------

  /** The length of the run of digits that starts `s`. */
  function DigitRun(s: string): (n: nat)
    ensures n <= |s|
    ensures forall i :: 0 <= i < n ==> IsDigit(s[i])
    ensures n < |s| ==> !IsDigit(s[n])
  {
    if s != [] && IsDigit(s[0]) then 1 + DigitRun(s[1..]) else 0
  }

  /** Whether `s` starts with `[`, a run of `min` or more digits and `]`;
      the answer carries the length of the match. */
  function BracketedDigits(s: string, min: nat): (len: Option<nat>)
    ensures len.Some? ==> 2 <= len.value <= |s| && s[0] == '[' && s[len.value - 1] == ']'
  {
    if s != [] && s[0] == '[' then
      var n := DigitRun(s[1..]);
      if n >= min && 1 + n < |s| && s[1 + n] == ']' then Some(n + 2) else None
    else None
  }

  /** `regexp.MustCompile(`\[\d+\]`).ReplaceAllString(path, "[]")`: a left
      to right scan that replaces each `[`, one or more ASCII digits, `]` by
      `[]` and keeps every other character. */
  function NormalizePath(s: string): (r: string)
    ensures s == [] <==> r == []
    ensures s != [] ==> r[0] == s[0]
    decreases |s|
  {
    if s == [] then []
    else
      match BracketedDigits(s, 1)
      case Some(len) => "[]" + NormalizePath(s[len..])
      case None => [s[0]] + NormalizePath(s[1..])
  }

  /** `strings.ReplaceAll(path, "[]", "[0]")`: non-overlapping occurrences,
      left to right. */
  function IndexPath(s: string): (r: string)
    ensures s == [] <==> r == []
    ensures s != [] ==> r[0] == s[0]
    decreases |s|
  {
    if s == [] then []
    else if |s| >= 2 && s[0] == '[' && s[1] == ']' then "[0]" + IndexPath(s[2..])
    else [s[0]] + IndexPath(s[1..])
  }

  /** An independent reference: every `[`, zero or more digits, `]` replaced
      by `[0]`, the first index of every array. */
  function ZeroPath(s: string): string
    decreases |s|
  {
    if s == [] then []
    else
      match BracketedDigits(s, 0)
      case Some(len) => "[0]" + ZeroPath(s[len..])
      case None => [s[0]] + ZeroPath(s[1..])
  }

  /** A path with no `[]` in it. */
  ghost predicate NoEmptyBrackets(s: string)
  {
    forall i :: 0 <= i < |s| - 1 ==> !(s[i] == '[' && s[i + 1] == ']')
  }

  // ---------------------------------------------------------------------------
  // Properties of the rewrites
  // ---------------------------------------------------------------------------

  /** Normalizing leaves a leading run of digits, and the character after
      it, where they were. */
  lemma {:induction false} NormalizeKeepsDigitRun(t: string)
    ensures DigitRun(NormalizePath(t)) == DigitRun(t)
    ensures DigitRun(t) < |t| ==>
      DigitRun(t) < |NormalizePath(t)| && NormalizePath(t)[DigitRun(t)] == t[DigitRun(t)]
    ensures DigitRun(t) == |t| ==> NormalizePath(t) == t
    decreases |t|
  {
    if t != [] && IsDigit(t[0]) {
      assert BracketedDigits(t, 1).None?;
      NormalizeKeepsDigitRun(t[1..]);
      var r := NormalizePath(t);
      assert r == [t[0]] + NormalizePath(t[1..]);
      assert r[1..] == NormalizePath(t[1..]);
    }
  }

  /** The match at a `[` is decided by the digit run after it. */
  lemma OpenBracket(t: string, min: nat)
    ensures BracketedDigits("[" + t, min) ==
      (var n := DigitRun(t); if n >= min && n < |t| && t[n] == ']' then Some(n + 2) else None)
  {
    assert ("[" + t)[1..] == t;
  }

  /** A `[` that does not open a numeric index still does not after the
      rest of the path is normalized. */
  lemma NormalizeKeepsNonMatch(t: string)
    requires BracketedDigits("[" + t, 1).None?
    ensures BracketedDigits("[" + NormalizePath(t), 1).None?
  {
    NormalizeKeepsDigitRun(t);
    OpenBracket(t, 1);
    OpenBracket(NormalizePath(t), 1);
  }

  /** NormalizeArrayPath's rewrite is idempotent: a normalized path has no
      numeric index left to rewrite. */
  lemma {:induction false} NormalizeIdempotent(s: string)
    ensures NormalizePath(NormalizePath(s)) == NormalizePath(s)
    decreases |s|
  {
    if s != [] {
      match BracketedDigits(s, 1)
      case Some(len) =>
        var rest := NormalizePath(s[len..]);
        NormalizeIdempotent(s[len..]);
        var r := "[]" + rest;
        assert BracketedDigits(r, 1).None? by { assert r[1..][0] == ']'; }
        assert r[1..] == "]" + rest;
        assert ("]" + rest)[1..] == rest;
        assert BracketedDigits("]" + rest, 1).None?;
      case None =>
        var t := s[1..];
        NormalizeIdempotent(t);
        var r := [s[0]] + NormalizePath(t);
        assert r[1..] == NormalizePath(t);
        if s[0] == '[' {
          assert s == "[" + t;
          NormalizeKeepsNonMatch(t);
          assert r == "[" + NormalizePath(t);
        } else {
          assert BracketedDigits(r, 1).None?;
        }
    }
  }

  /** Normalizing then indexing turns every index, numeric or empty, into
      `[0]`: IndexArrayPath after NormalizeArrayPath points every path at
      the first element of each array. */
  lemma {:induction false} IndexAfterNormalize(s: string)
    ensures IndexPath(NormalizePath(s)) == ZeroPath(s)
    decreases |s|
  {
    if s != [] {
      match BracketedDigits(s, 1)
      case Some(len) =>
        IndexAfterNormalize(s[len..]);
        assert s == "[" + s[1..];
        OpenBracket(s[1..], 0);
        OpenBracket(s[1..], 1);
        var r := "[]" + NormalizePath(s[len..]);
        assert r[2..] == NormalizePath(s[len..]);
      case None =>
        var t := s[1..];
        var r := [s[0]] + NormalizePath(t);
        assert r[1..] == NormalizePath(t);
        if |s| >= 2 && s[0] == '[' && s[1] == ']' {
          // `[]`: Normalize keeps it and Index rewrites it.
          assert BracketedDigits(s, 0) == Some(2);
          var u := s[2..];
          assert t[1..] == u;
          assert BracketedDigits(t, 1).None?;
          assert NormalizePath(t) == "]" + NormalizePath(u);
          IndexAfterNormalize(u);
          assert r[2..] == NormalizePath(u);
        } else {
          IndexAfterNormalize(t);
          if s[0] == '[' {
            assert s == "[" + t;
            OpenBracket(t, 0);
            OpenBracket(t, 1);
            assert |r| >= 2 ==> r[1] == s[1];
          } else {
            assert BracketedDigits(s, 0).None?;
          }
        }
    }
  }

  /** IndexArrayPath's rewrite leaves no `[]` behind. */
  lemma {:induction false} IndexLeavesNoEmptyBrackets(s: string)
    ensures NoEmptyBrackets(IndexPath(s))
    decreases |s|
  {
    if s != [] {
      if |s| >= 2 && s[0] == '[' && s[1] == ']' {
        IndexLeavesNoEmptyBrackets(s[2..]);
        var r := IndexPath(s);
        var rest := IndexPath(s[2..]);
        assert r == "[0]" + rest;
        forall i | 0 <= i < |r| - 1 ensures !(r[i] == '[' && r[i + 1] == ']') {
          if i >= 3 { assert r[i] == rest[i - 3] && r[i + 1] == rest[i - 2]; }
        }
      } else {
        IndexLeavesNoEmptyBrackets(s[1..]);
        var r := IndexPath(s);
        var rest := IndexPath(s[1..]);
        assert r == [s[0]] + rest;
        forall i | 0 <= i < |r| - 1 ensures !(r[i] == '[' && r[i + 1] == ']') {
          if i >= 1 { assert r[i] == rest[i - 1] && r[i + 1] == rest[i]; }
          else { assert r[1] == rest[0] == s[1]; }
        }
      }
    }
  }

  /** A path with no `[]` is left unchanged by IndexArrayPath's rewrite. */
  lemma {:induction false} IndexWithoutEmptyBrackets(s: string)
    requires NoEmptyBrackets(s)
    ensures IndexPath(s) == s
    decreases |s|
  {
    if s != [] {
      assert !(|s| >= 2 && s[0] == '[' && s[1] == ']');
      assert NoEmptyBrackets(s[1..]) by {
        forall i | 0 <= i < |s[1..]| - 1 ensures !(s[1..][i] == '[' && s[1..][i + 1] == ']') {
          assert s[1..][i] == s[i + 1] && s[1..][i + 1] == s[i + 2];
        }
      }
      IndexWithoutEmptyBrackets(s[1..]);
      assert s == [s[0]] + s[1..];
    }
  }

  /** IndexArrayPath's rewrite is idempotent. */
  lemma IndexIdempotent(s: string)
    ensures IndexPath(IndexPath(s)) == IndexPath(s)
  {
    IndexLeavesNoEmptyBrackets(s);
    IndexWithoutEmptyBrackets(IndexPath(s));
  }

  // ---------------------------------------------------------------------------
  // NormalizeArrayPath and IndexArrayPath on lists
  // ---------------------------------------------------------------------------

  /** Every pair with its path normalized, in order, values untouched. */
  function NormalizeAll(ps: seq<PathValue>): seq<PathValue>
  {
    seq(|ps|, i requires 0 <= i < |ps| => PathValue(NormalizePath(ps[i].path), ps[i].value))
  }

  /** Every pair with its path indexed, in order, values untouched. */
  function IndexAll(ps: seq<PathValue>): seq<PathValue>
  {
    seq(|ps|, i requires 0 <= i < |ps| => PathValue(IndexPath(ps[i].path), ps[i].value))
  }

  /** `NormalizeArrayPath`: one rewritten pair appended per input pair. */
  method NormalizeArrayPath(ps: seq<PathValue>) returns (result: seq<PathValue>)
    ensures result == NormalizeAll(ps)
  {
    result := [];
    for i := 0 to |ps|
      invariant result == NormalizeAll(ps[..i])
    {
      var path := NormalizePath(ps[i].path);
      result := result + [PathValue(path, ps[i].value)];
    }
    assert ps[..|ps|] == ps;
  }

  /** `IndexArrayPath`: one rewritten pair appended per input pair. */
  method IndexArrayPath(ps: seq<PathValue>) returns (result: seq<PathValue>)
    ensures result == IndexAll(ps)
  {
    result := [];
    for i := 0 to |ps|
      invariant result == IndexAll(ps[..i])
    {
      var path := IndexPath(ps[i].path);
      result := result + [PathValue(path, ps[i].value)];
    }
    assert ps[..|ps|] == ps;
  }

  /** NormalizeArrayPath keeps the length, the order and every value, and
      applying it twice is applying it once. */
  lemma NormalizeAllProperties(ps: seq<PathValue>)
    ensures |NormalizeAll(ps)| == |ps|
    ensures forall i :: 0 <= i < |ps| ==> NormalizeAll(ps)[i].value == ps[i].value
    ensures NormalizeAll(NormalizeAll(ps)) == NormalizeAll(ps)
  {
    forall i | 0 <= i < |ps|
      ensures NormalizePath(NormalizePath(ps[i].path)) == NormalizePath(ps[i].path)
    {
      NormalizeIdempotent(ps[i].path);
    }
  }

  /** IndexArrayPath keeps the length, the order and every value, is
      idempotent, and after NormalizeArrayPath sends every index to `[0]`. */
  lemma IndexAllProperties(ps: seq<PathValue>)
    ensures |IndexAll(ps)| == |ps|
    ensures forall i :: 0 <= i < |ps| ==> IndexAll(ps)[i].value == ps[i].value
    ensures IndexAll(IndexAll(ps)) == IndexAll(ps)
    ensures forall i :: 0 <= i < |ps| ==> IndexAll(NormalizeAll(ps))[i] == PathValue(ZeroPath(ps[i].path), ps[i].value)
  {
    forall i | 0 <= i < |ps|
      ensures IndexPath(IndexPath(ps[i].path)) == IndexPath(ps[i].path)
      ensures IndexPath(NormalizePath(ps[i].path)) == ZeroPath(ps[i].path)
    {
      IndexIdempotent(ps[i].path);
      IndexAfterNormalize(ps[i].path);
    }
  }

  // ---------------------------------------------------------------------------
  // Unqueue
  // ---------------------------------------------------------------------------

  function PathsOf(ps: seq<PathValue>): set<string>
  {
    set i | 0 <= i < |ps| :: ps[i].path
  }

  /** `Unqueue`: the pairs whose path has not been seen earlier in the list. */
  function Dedup(ps: seq<PathValue>): (r: seq<PathValue>)
    ensures |r| <= |ps|
    ensures forall pv :: pv in r ==> pv in ps
    decreases |ps|
  {
    if ps == [] then []
    else
      var init, last := ps[..|ps| - 1], ps[|ps| - 1];
      if last.path in PathsOf(init) then Dedup(init) else Dedup(init) + [last]
  }

  /** The first pair with path `p`, if any. */
  function FirstWith(ps: seq<PathValue>, p: string): Option<PathValue>
    decreases |ps|
  {
    if ps == [] then None
    else
      var init, last := ps[..|ps| - 1], ps[|ps| - 1];
      var earlier := FirstWith(init, p);
      if earlier.Some? then earlier else if last.path == p then Some(last) else None
  }

  /** `a` is `b` with some elements left out, order kept. */
  predicate IsSubsequence(a: seq<PathValue>, b: seq<PathValue>)
    decreases |b|
  {
    if a == [] then true
    else if b == [] then false
    else if a[|a| - 1] == b[|b| - 1] then IsSubsequence(a[..|a| - 1], b[..|b| - 1])
    else IsSubsequence(a, b[..|b| - 1])
  }

  ghost predicate DistinctPaths(ps: seq<PathValue>)
  {
    forall i, j :: 0 <= i < j < |ps| ==> ps[i].path != ps[j].path
  }

  /** `Unqueue`: a loop with a seen-set, appending a pair the first time its
      path appears. */
  method Unqueue(ps: seq<PathValue>) returns (result: seq<PathValue>)
    ensures result == Dedup(ps)
  {
    result := [];
    var seen: set<string> := {};
    for i := 0 to |ps|
      invariant result == Dedup(ps[..i])
      invariant seen == PathsOf(ps[..i])
    {
      assert ps[..i + 1][..i] == ps[..i] && ps[..i + 1][i] == ps[i];
      if ps[i].path !in seen {
        result := result + [ps[i]];
        seen := seen + {ps[i].path};
      }
      assert PathsOf(ps[..i + 1]) == PathsOf(ps[..i]) + {ps[i].path};
    }
    assert ps[..|ps|] == ps;
  }

  lemma PathsOfSnoc(ps: seq<PathValue>, pv: PathValue)
    ensures PathsOf(ps + [pv]) == PathsOf(ps) + {pv.path}
  {
    assert (ps + [pv])[|ps|] == pv;
    forall p | p in PathsOf(ps) ensures p in PathsOf(ps + [pv]) {
      var i :| 0 <= i < |ps| && ps[i].path == p;
      assert (ps + [pv])[i] == ps[i];
    }
  }

  /** Unqueue keeps every path: the same set of paths comes out. */
  lemma {:induction false} DedupPaths(ps: seq<PathValue>)
    ensures PathsOf(Dedup(ps)) == PathsOf(ps)
    decreases |ps|
  {
    if ps != [] {
      var init, last := ps[..|ps| - 1], ps[|ps| - 1];
      assert ps == init + [last];
      DedupPaths(init);
      PathsOfSnoc(init, last);
      if last.path !in PathsOf(init) {
        PathsOfSnoc(Dedup(init), last);
      }
    }
  }

  /** Unqueue's result has pairwise distinct paths. */
  lemma {:induction false} DedupDistinct(ps: seq<PathValue>)
    ensures DistinctPaths(Dedup(ps))
    decreases |ps|
  {
    if ps != [] {
      var init, last := ps[..|ps| - 1], ps[|ps| - 1];
      DedupDistinct(init);
      if last.path !in PathsOf(init) {
        DedupPaths(init);
        var d := Dedup(init);
        var r := d + [last];
        forall i, j | 0 <= i < j < |r| ensures r[i].path != r[j].path {
          if j == |d| {
            assert r[i] == d[i];
            assert d[i].path in PathsOf(d);
          } else {
            assert r[i] == d[i] && r[j] == d[j];
          }
        }
      }
    }
  }

  /** Appending to the longer sequence keeps a subsequence one. */
  lemma {:induction false} SubsequenceWeaken(a: seq<PathValue>, b: seq<PathValue>, x: PathValue)
    requires IsSubsequence(a, b)
    ensures IsSubsequence(a, b + [x])
    decreases |b|, 1
  {
    assert (b + [x])[..|b|] == b;
    if a != [] && a[|a| - 1] == x {
      SubsequenceDropLast(a, b);
    }
  }

  /** Dropping the last element of the shorter sequence keeps it a
      subsequence. */
  lemma {:induction false} SubsequenceDropLast(a: seq<PathValue>, b: seq<PathValue>)
    requires IsSubsequence(a, b) && a != []
    ensures IsSubsequence(a[..|a| - 1], b)
    decreases |b|, 0
  {
    var a', b', y := a[..|a| - 1], b[..|b| - 1], b[|b| - 1];
    assert b == b' + [y];
    if a[|a| - 1] == y {
      SubsequenceWeaken(a', b', y);
    } else {
      SubsequenceDropLast(a, b');
      SubsequenceWeaken(a', b', y);
    }
  }

  /** Unqueue's result is a subsequence of its input. */
  lemma {:induction false} DedupSubsequence(ps: seq<PathValue>)
    ensures IsSubsequence(Dedup(ps), ps)
    decreases |ps|
  {
    if ps != [] {
      var init, last := ps[..|ps| - 1], ps[|ps| - 1];
      assert ps == init + [last];
      DedupSubsequence(init);
      SubsequenceWeaken(Dedup(init), init, last);
      assert (Dedup(init) + [last])[..|Dedup(init)|] == Dedup(init);
    }
  }

  /** Every pair Unqueue keeps is the first pair with its path. */
  lemma {:induction false} DedupFirstOccurrence(ps: seq<PathValue>)
    ensures forall j :: 0 <= j < |Dedup(ps)| ==> FirstWith(ps, Dedup(ps)[j].path) == Some(Dedup(ps)[j])
    decreases |ps|
  {
    if ps != [] {
      var init, last := ps[..|ps| - 1], ps[|ps| - 1];
      DedupFirstOccurrence(init);
      DedupPaths(init);
      var d := Dedup(init);
      forall j | 0 <= j < |Dedup(ps)| ensures FirstWith(ps, Dedup(ps)[j].path) == Some(Dedup(ps)[j]) {
        if j < |d| {
          assert Dedup(ps)[j] == d[j];
        } else {
          assert Dedup(ps)[j] == last;
          FirstWithAbsent(init, last.path);
        }
      }
    }
  }

  lemma {:induction false} FirstWithAbsent(ps: seq<PathValue>, p: string)
    requires p !in PathsOf(ps)
    ensures FirstWith(ps, p) == None
    decreases |ps|
  {
    if ps != [] {
      var init := ps[..|ps| - 1];
      assert PathsOf(init) <= PathsOf(ps) by {
        forall q | q in PathsOf(init) ensures q in PathsOf(ps) {
          var i :| 0 <= i < |init| && init[i].path == q;
          assert ps[i] == init[i];
        }
      }
      assert ps[|ps| - 1].path in PathsOf(ps);
      FirstWithAbsent(init, p);
    }
  }

  /** A list whose paths are already distinct is left as it is. */
  lemma {:induction false} DedupOfDistinct(ps: seq<PathValue>)
    requires DistinctPaths(ps)
    ensures Dedup(ps) == ps
    decreases |ps|
  {
    if ps != [] {
      var init, last := ps[..|ps| - 1], ps[|ps| - 1];
      assert DistinctPaths(init) by {
        forall i, j | 0 <= i < j < |init| ensures init[i].path != init[j].path {
          assert init[i] == ps[i] && init[j] == ps[j];
        }
      }
      DedupOfDistinct(init);
      assert last.path !in PathsOf(init) by {
        forall i | 0 <= i < |init| ensures init[i].path != last.path {
          assert init[i] == ps[i];
        }
      }
      assert init + [last] == ps;
    }
  }

  /** Unqueue is idempotent. */
  lemma DedupIdempotent(ps: seq<PathValue>)
    ensures Dedup(Dedup(ps)) == Dedup(ps)
  {
    DedupDistinct(ps);
    DedupOfDistinct(Dedup(ps));
  }
}
