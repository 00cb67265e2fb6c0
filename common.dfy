/** Small value types and the Python string operations the audit code relies on. */
module Common {

  /** A Python value that may be None. */
  datatype Option<T> = None | Some(value: T)

  /** The value of an optional argument, or `d` when it was left as None. */
  function Default<T>(o: Option<T>, d: T): T
  {
    if o.Some? then o.value else d
  }

  /** The outcome of a Python call: it returned a value, or an exception escaped it. */
  datatype Call<T> = Returned(value: T) | Raised

  /** `sep` occurs in `s` at index `i`. */
  predicate OccursAt(s: string, sep: string, i: nat)
  {
    i + |sep| <= |s| && s[i..i + |sep|] == sep
  }

  /** `sep` occurs somewhere in `s` (Python's `sep in s`). */
  predicate Contains(s: string, sep: string)
  {
    exists i: nat | i <= |s| :: OccursAt(s, sep, i)
  }

  /** A prefix of a string without `sep` has no `sep` either. */
  lemma PrefixKeepsAbsent(s: string, sep: string, n: nat)
    requires n <= |s| && !Contains(s, sep)
    ensures !Contains(s[..n], sep)
  {
    forall j: nat | j <= n && OccursAt(s[..n], sep, j) ensures false {
      assert s[..n][j..j + |sep|] == s[j..j + |sep|];
      assert OccursAt(s, sep, j);
    }
  }

  /** The first index at or after `k` at which `sep` occurs in `s`. */
  function IndexFrom(s: string, sep: string, k: nat): (r: Option<nat>)
    requires |sep| > 0 && k <= |s|
    ensures r.None? ==> forall j: nat | k <= j <= |s| :: !OccursAt(s, sep, j)
    ensures r.Some? ==> k <= r.value && OccursAt(s, sep, r.value)
    ensures r.Some? ==> forall j: nat | k <= j < r.value :: !OccursAt(s, sep, j)
    decreases |s| - k
  {
    if k + |sep| > |s| then None
    else if OccursAt(s, sep, k) then Some(k)
    else IndexFrom(s, sep, k + 1)
  }

  /** The first index at which `sep` occurs in `s` (Python's `s.find(sep)` when not -1). */
  function IndexOf(s: string, sep: string): (r: Option<nat>)
    requires |sep| > 0
    ensures r.None? <==> !Contains(s, sep)
    ensures r.Some? ==> OccursAt(s, sep, r.value)
    ensures r.Some? ==> forall j: nat | j < r.value :: !OccursAt(s, sep, j)
  {
    IndexFrom(s, sep, 0)
  }

  /** A slice of a suffix is a slice of the whole string. */
  lemma SliceOfSlice(s: string, a: nat, b: nat, c: nat)
    requires a <= |s| && b <= c <= |s| - a
    ensures s[a..][b..c] == s[a + b..a + c]
  {
    assert |s[a..][b..c]| == |s[a + b..a + c]|;
    forall k | 0 <= k < c - b
      ensures s[a..][b..c][k] == s[a + b..a + c][k]
    {
    }
  }

  /** The result of `split`: never an empty list. */
  type Pieces = p: seq<string> | |p| >= 1 witness [""]

  /** Python's `s.split(sep)` for a non-empty separator: the pieces between the
      non-overlapping occurrences of `sep`, scanning from the left. */
  function Split(s: string, sep: string): Pieces
    requires |sep| > 0
    decreases |s|
  {
    match IndexOf(s, sep)
    case None => [s]
    case Some(i) => [s[..i]] + Split(s[i + |sep|..], sep)
  }

  /** Python's `sep.join(pieces)`. */
  function Join(pieces: seq<string>, sep: string): string
    requires |pieces| >= 1
    decreases |pieces|
  {
    if |pieces| == 1 then pieces[0] else pieces[0] + sep + Join(pieces[1..], sep)
  }

  /** Python's `s.split(sep)[0]`. */
  function FirstPiece(s: string, sep: string): string
    requires |sep| > 0
  {
    Split(s, sep)[0]
  }

  /** Python's `s.split(sep)[-1]`. */
  function LastPiece(s: string, sep: string): string
    requires |sep| > 0
  {
    var p := Split(s, sep);
    p[|p| - 1]
  }

  /** Splitting and joining again gives back the original string. */
  lemma {:induction false} JoinSplit(s: string, sep: string)
    requires |sep| > 0
    ensures Join(Split(s, sep), sep) == s
    decreases |s|
  {
    match IndexOf(s, sep)
    case None =>
    case Some(i) =>
      var rest := s[i + |sep|..];
      JoinSplit(rest, sep);
      JoinAround(s, sep, i, Split(rest, sep));
  }

  /** One step of `JoinSplit`: the piece before the first occurrence, the separator and
      the rejoined remainder make up `s` again. */
  lemma JoinAround(s: string, sep: string, i: nat, tail: seq<string>)
    requires |sep| > 0 && OccursAt(s, sep, i) && |tail| >= 1
    requires Join(tail, sep) == s[i + |sep|..]
    ensures Join([s[..i]] + tail, sep) == s
  {
    JoinCons(s[..i], tail, sep);
    Reassemble(s, i, |sep|);
  }

  lemma Reassemble(s: string, i: nat, n: nat)
    requires i + n <= |s|
    ensures s[..i] + s[i..i + n] + s[i + n..] == s
  {
  }

  lemma JoinCons(head: string, tail: seq<string>, sep: string)
    requires |tail| >= 1
    ensures Join([head] + tail, sep) == head + sep + Join(tail, sep)
  {
    assert ([head] + tail)[1..] == tail;
  }

  /** The first piece is a prefix of `s` that does not contain `sep`; when `sep`
      occurs in `s`, `sep` follows that prefix immediately. */
  lemma FirstPieceProperties(s: string, sep: string)
    requires |sep| > 0
    ensures var f := FirstPiece(s, sep);
      && |f| <= |s| && f == s[..|f|]
      && !Contains(f, sep)
      && (Contains(s, sep) ==> OccursAt(s, sep, |f|))
      && (!Contains(s, sep) ==> f == s)
  {
    match IndexOf(s, sep)
    case None =>
    case Some(i) =>
      var f := s[..i];
      assert FirstPiece(s, sep) == f;
      forall j: nat | j <= |f| && OccursAt(f, sep, j)
        ensures false
      {
        assert s[j..j + |sep|] == f[j..j + |sep|];
        assert OccursAt(s, sep, j);
      }
  }

  /** `l` is what `split(sep)[-1]` must be: a suffix of `s` that does not contain `sep`,
      preceded immediately by `sep` when `sep` occurs in `s`, and all of `s` otherwise. */
  predicate IsLastPiece(s: string, sep: string, l: string)
  {
    && |l| <= |s| && l == s[|s| - |l|..]
    && !Contains(l, sep)
    && (Contains(s, sep) ==> |l| + |sep| <= |s| && OccursAt(s, sep, |s| - |l| - |sep|))
    && (!Contains(s, sep) ==> l == s)
  }

  /** The last piece is a suffix of `s` that does not contain `sep`; when `sep`
      occurs in `s`, `sep` precedes that suffix immediately. */
  lemma {:induction false} LastPieceProperties(s: string, sep: string)
    requires |sep| > 0
    ensures IsLastPiece(s, sep, LastPiece(s, sep))
    decreases |s|
  {
    match IndexOf(s, sep)
    case None =>
      LastPieceNone(s, sep);
    case Some(i) =>
      var rest := s[i + |sep|..];
      LastPieceProperties(rest, sep);
      LastPieceAfter(s, sep, i);
      LastPieceCombine(s, sep, i, LastPiece(rest, sep));
  }

  /** Without an occurrence the last piece is the whole string. */
  lemma LastPieceNone(s: string, sep: string)
    requires |sep| > 0 && IndexOf(s, sep).None?
    ensures LastPiece(s, sep) == s && IsLastPiece(s, sep, s)
  {
    SplitNone(s, sep);
  }

  /** After the first occurrence at `i`, the last piece is the last piece of the rest. */
  lemma LastPieceAfter(s: string, sep: string, i: nat)
    requires |sep| > 0 && IndexOf(s, sep) == Some(i)
    ensures LastPiece(s, sep) == LastPiece(s[i + |sep|..], sep)
  {
    IndexOfBound(s, sep, i);
    SplitSome(s, sep, i);
    LastOfCons(s[..i], Split(s[i + |sep|..], sep));
  }

  /** A found occurrence fits in the string. */
  lemma IndexOfBound(s: string, sep: string, i: nat)
    requires |sep| > 0 && IndexOf(s, sep) == Some(i)
    ensures i + |sep| <= |s|
  {
  }

  /** Without an occurrence `split` gives the string alone. */
  lemma SplitNone(s: string, sep: string)
    requires |sep| > 0 && IndexOf(s, sep).None?
    ensures Split(s, sep) == [s]
  {
  }

  /** One step of `Split` at the first occurrence. */
  lemma SplitSome(s: string, sep: string, i: nat)
    requires |sep| > 0 && IndexOf(s, sep) == Some(i)
    ensures Split(s, sep) == [s[..i]] + Split(s[i + |sep|..], sep)
  {
  }

  lemma LastOfCons<T>(head: T, tail: seq<T>)
    requires |tail| >= 1
    ensures ([head] + tail)[|[head] + tail| - 1] == tail[|tail| - 1]
  {
  }

  /** The last-piece facts about `s[i + |sep|..]` carry over to `s` when `sep` occurs at `i`. */
  lemma LastPieceCombine(s: string, sep: string, i: nat, l: string)
    requires |sep| > 0 && OccursAt(s, sep, i)
    requires IsLastPiece(s[i + |sep|..], sep, l)
    ensures IsLastPiece(s, sep, l)
  {
    var rest := s[i + |sep|..];
    SuffixOfSuffix(s, i + |sep|, l);
    if Contains(rest, sep) {
      OccursInSuffix(s, i + |sep|, |rest| - |l| - |sep|, sep);
    }
  }

  /** A suffix of `s[i..]` is a suffix of `s`. */
  lemma SuffixOfSuffix(s: string, i: nat, l: string)
    requires i <= |s| && |l| <= |s| - i && l == s[i..][|s| - i - |l|..]
    ensures l == s[|s| - |l|..]
  {
  }

  /** An occurrence in `s[i..]` is an occurrence in `s`, `i` positions later. */
  lemma OccursInSuffix(s: string, i: nat, k: nat, sep: string)
    requires i <= |s| && OccursAt(s[i..], sep, k)
    ensures OccursAt(s, sep, i + k)
  {
    SliceOfSlice(s, i, k, k + |sep|);
  }

  /** Python's `str.lower()` on the ASCII letters. */
  function LowerChar(c: char): char
  {
    if 'A' <= c <= 'Z' then (c as int + 32) as char else c
  }

  /** `s.lower()` on ASCII letters: no capital is left, and each position agrees with
      the input up to case. */
  function Lower(s: string): (r: string)
    ensures |r| == |s|
    ensures forall i | 0 <= i < |r| :: !('A' <= r[i] <= 'Z')
    ensures forall i | 0 <= i < |s| :: LowerChar(r[i]) == LowerChar(s[i])
  {
    seq(|s|, i requires 0 <= i < |s| => LowerChar(s[i]))
  }

  /** `pat` matches `s` at `k` when letters are compared without regard to case. */
  predicate OccursIgnoringCase(s: string, pat: string, k: nat)
  {
    k + |pat| <= |s| && forall m | 0 <= m < |pat| :: LowerChar(s[k + m]) == LowerChar(pat[m])
  }

  /** Lowering is idempotent, and `pat.lower() in s.lower()` holds exactly when `pat`
      occurs in `s` up to the case of its letters. */
  lemma LowerContains(s: string, pat: string)
    ensures Lower(Lower(s)) == Lower(s)
    ensures Contains(Lower(s), Lower(pat)) <==> exists k: nat | k <= |s| :: OccursIgnoringCase(s, pat, k)
  {
    var l, p := Lower(s), Lower(pat);
    forall k: nat | k <= |s| ensures OccursAt(l, p, k) <==> OccursIgnoringCase(s, pat, k) {
      if k + |p| <= |l| {
        var w := l[k..k + |p|];
        assert forall m | 0 <= m < |p| :: w[m] == l[k + m];
        if OccursIgnoringCase(s, pat, k) {
          assert w == p;
        }
      }
    }
  }

  /** The sum of the lengths of a list of lists (`sum(len(x) for x in xs)`). */
  function TotalLength<T>(xs: seq<seq<T>>): nat
  {
    if xs == [] then 0 else |xs[0]| + TotalLength(xs[1..])
  }
}
