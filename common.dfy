/** Vocabulary shared by the whole model: optional values, results, fields of
    a partial update, and the text operations (ASCII case folding, substring
    search, splitting on a separator) that the service layer relies on. */
module Common {

  /** Row identifiers are UUIDs; the model keeps their text form, which is
      also what the source writes into paths and token subjects. */
  type Uuid = string

  datatype Option<T> = None | Some(value: T)

  datatype Result<T, E> = Ok(value: T) | Err(error: E)

  /** One field of a partial update, as a Pydantic model dumped with
      `exclude_unset`: either not supplied, or supplied with a value. */
  datatype Patch<T> = Omitted | Given(value: T)

  function Patched<T>(current: T, p: Patch<T>): T
  {
    match p
    case Omitted => current
    case Given(v) => v
  }

  function Min(a: int, b: int): int { if a <= b then a else b }

  function Max(a: int, b: int): int { if a <= b then b else a }

  predicate IsAsciiDigit(c: char) { '0' <= c <= '9' }

  predicate IsAsciiUpper(c: char) { 'A' <= c <= 'Z' }

  predicate IsAsciiLower(c: char) { 'a' <= c <= 'z' }

  predicate AllDigits(s: string) { forall i :: 0 <= i < |s| ==> IsAsciiDigit(s[i]) }

  function LowerChar(c: char): char
  {
    if IsAsciiUpper(c) then (c as int + 32) as char else c
  }

  /** ASCII lower-casing, character by character. */
  function Lower(s: string): string
  {
    seq(|s|, i requires 0 <= i < |s| => LowerChar(s[i]))
  }

  /** `needle` occurs in `hay` as a contiguous run of characters. */
  predicate IsSubstring(needle: string, hay: string)
    decreases |hay|
  {
    needle <= hay || (|hay| > 0 && IsSubstring(needle, hay[1..]))
  }

  /** Case-insensitive substring test under ASCII case folding. */
  predicate ContainsFolded(hay: string, needle: string)
  {
    IsSubstring(Lower(needle), Lower(hay))
  }

  /** The elements of `s` that satisfy `keep`, in their original order. */
  function Filter<T(!new)>(s: seq<T>, keep: T -> bool): (r: seq<T>)
    ensures |r| <= |s|
    ensures forall x :: x in r <==> x in s && keep(x)
  {
    if s == [] then []
    else (if keep(s[0]) then [s[0]] else []) + Filter(s[1..], keep)
  }

  /** Filtering a concatenation filters each part. */
  lemma {:induction false} FilterAppend<T(!new)>(a: seq<T>, b: seq<T>, keep: T -> bool)
    ensures Filter(a + b, keep) == Filter(a, keep) + Filter(b, keep)
    decreases |a|
  {
    if a != [] {
      assert (a + b)[1..] == a[1..] + b;
      FilterAppend(a[1..], b, keep);
    } else {
      assert a + b == b;
    }
  }

  /** The position of the first element satisfying `p`, as a query's
      `.first()` or Python's `next(...)` over the stored order picks it. */
  function FirstIndex<T>(s: seq<T>, p: T -> bool): (r: Option<nat>)
    ensures r.Some? ==> r.value < |s| && p(s[r.value])
    ensures r.Some? ==> forall j :: 0 <= j < r.value ==> !p(s[j])
    ensures r.None? ==> forall j :: 0 <= j < |s| ==> !p(s[j])
  {
    if s == [] then None
    else if p(s[0]) then Some(0)
    else match FirstIndex(s[1..], p)
      case None => None
      case Some(k) => Some(k + 1)
  }

  /** Python's `s.split(sep)` for a one-character separator: the pieces
      between separators, empty pieces included. */
  function Split(s: string, sep: char): (parts: seq<string>)
    ensures |parts| >= 1
    decreases |s|
  {
    if s == [] then [""]
    else
      var rest := Split(s[1..], sep);
      if s[0] == sep then [""] + rest
      else [[s[0]] + rest[0]] + rest[1..]
  }

  function Count(s: string, c: char): nat
  {
    if s == [] then 0 else (if s[0] == c then 1 else 0) + Count(s[1..], c)
  }

  /** `sep.join(parts)`. */
  function JoinWith(parts: seq<string>, sep: char): string
    requires |parts| >= 1
    decreases |parts|
  {
    if |parts| == 1 then parts[0] else parts[0] + [sep] + JoinWith(parts[1..], sep)
  }

  function Last<T>(s: seq<T>): T
    requires |s| >= 1
  {
    s[|s| - 1]
  }

  /** No piece of a split contains the separator. */
  lemma {:induction false} SplitPiecesClean(s: string, sep: char)
    ensures forall k :: 0 <= k < |Split(s, sep)| ==> sep !in Split(s, sep)[k]
    decreases |s|
  {
    if s != [] {
      SplitPiecesClean(s[1..], sep);
    }
  }

  /** Splitting yields one piece more than there are separators. */
  lemma {:induction false} SplitCount(s: string, sep: char)
    ensures |Split(s, sep)| == Count(s, sep) + 1
    decreases |s|
  {
    if s != [] {
      SplitCount(s[1..], sep);
    }
  }

  /** Joining the pieces with the separator gives back the original text. */
  lemma {:induction false} SplitJoin(s: string, sep: char)
    ensures JoinWith(Split(s, sep), sep) == s
    decreases |s|
  {
    if s != [] {
      var rest := Split(s[1..], sep);
      SplitJoin(s[1..], sep);
      if s[0] == sep {
        assert ([""] + rest)[1..] == rest;
      } else if |rest| > 1 {
        var parts := [[s[0]] + rest[0]] + rest[1..];
        assert parts[1..] == rest[1..];
        assert JoinWith(rest, sep) == rest[0] + [sep] + JoinWith(rest[1..], sep);
        assert JoinWith(parts, sep) == [s[0]] + JoinWith(rest, sep);
        assert s == [s[0]] + s[1..];
      } else {
        assert s == [s[0]] + s[1..];
      }
    }
  }

  /** A text without the separator splits into itself alone, and only such a text does. */
  lemma {:induction false} SplitSingle(s: string, sep: char)
    ensures |Split(s, sep)| == 1 <==> sep !in s
    decreases |s|
  {
    if s != [] {
      SplitSingle(s[1..], sep);
      assert s == [s[0]] + s[1..];
    }
  }

  /** The last piece of a split is a suffix without separators that is
      either the whole text or directly preceded by a separator. */
  lemma {:induction false} SplitLast(s: string, sep: char)
    ensures var l := Last(Split(s, sep));
      && |l| <= |s| && l == s[|s| - |l|..]
      && sep !in l
      && (|l| < |s| ==> s[|s| - |l| - 1] == sep)
    decreases |s|
  {
    SplitPiecesClean(s, sep);
    if s != [] {
      var rest := Split(s[1..], sep);
      SplitLast(s[1..], sep);
      var l' := Last(rest);
      if s[0] == sep {
        assert Last(Split(s, sep)) == l';
      } else if |rest| > 1 {
        assert Last(Split(s, sep)) == l';
        SplitSingle(s[1..], sep);
      } else {
        SplitJoin(s[1..], sep);
        assert rest == [s[1..]];
        assert Last(Split(s, sep)) == [s[0]] + s[1..] == s;
      }
    }
  }
}
