/**
  Definitions shared by the DataConcentrator, PLC simulator and ScadaGUI models:
  the outcome of an operation that may throw, the four I/O point types, the
  .NET notion of a blank string, and the `List<T>.Remove` semantics used by
  several in-memory collections.
 */
module Common {

  datatype Option<+T> = None | Some(value: T)

  /** The .NET exception a failing operation throws. */
  datatype Error =
    | InvalidOperation      // InvalidOperationException
    | ArgumentNull          // ArgumentNullException
    | Argument              // ArgumentException
    | ArgumentOutOfRange    // ArgumentOutOfRangeException (System.Threading.Timer)
    | NullReference         // NullReferenceException

  /** Result of a `void` member that either returns normally or throws. */
  datatype Outcome = Pass | Fail(error: Error)

  /** Result of a value-returning member that either returns or throws. */
  datatype Result<+T> = Ok(value: T) | Err(error: Error)

  /** `DateTime.Now`, passed in by the caller: the clock is not modelled. */
  type Time = int

  /** `TagType { DI, DO, AI, AO }`, declared alike in DataConcentrator, PLCSimulator and ScadaGUI. */
  datatype TagType = DI | DO | AI | AO

  /** `char.IsWhiteSpace`: the Unicode space, line and paragraph separators and U+0009-U+000D, U+0085. */
  predicate IsWhiteSpace(c: char) {
    || ('\U{0009}' <= c <= '\U{000D}') || c == ' ' || c == '\U{0085}' || c == '\U{00A0}'
    || c == '\U{1680}' || ('\U{2000}' <= c <= '\U{200A}') || c == '\U{2028}' || c == '\U{2029}'
    || c == '\U{202F}' || c == '\U{205F}' || c == '\U{3000}'
  }

  predicate IsBlank(s: string) {
    forall i :: 0 <= i < |s| ==> IsWhiteSpace(s[i])
  }

  /** A character outside the Basic Multilingual Plane, which UTF-16 stores as a surrogate pair. */
  predicate IsSupplementary(c: char) {
    c >= '\U{10000}'
  }

  /**
    `String.Length` in .NET: the number of UTF-16 code units, which counts a
    supplementary character twice.
   */
  function Utf16Length(s: string): (n: nat)
    ensures |s| <= n <= 2 * |s|
    decreases |s|
  {
    if s == [] then 0
    else Utf16Length(s[..|s| - 1]) + (if IsSupplementary(s[|s| - 1]) then 2 else 1)
  }

  /** The UTF-16 length equals the number of characters exactly when no character is supplementary. */
  lemma {:induction false} Utf16LengthOfBmp(s: string)
    ensures Utf16Length(s) == |s| <==> forall i :: 0 <= i < |s| ==> !IsSupplementary(s[i])
    decreases |s|
  {
    if s != [] {
      var p := s[..|s| - 1];
      Utf16LengthOfBmp(p);
      assert forall i :: 0 <= i < |p| ==> p[i] == s[i];
    }
  }

  /** Text made only of supplementary characters has twice as many UTF-16 units as characters. */
  lemma {:induction false} Utf16LengthOfSupplementary(s: string)
    requires forall i :: 0 <= i < |s| ==> IsSupplementary(s[i])
    ensures Utf16Length(s) == 2 * |s|
    decreases |s|
  {
    if s != [] {
      var p := s[..|s| - 1];
      assert forall i :: 0 <= i < |p| ==> p[i] == s[i];
      Utf16LengthOfSupplementary(p);
    }
  }

  /** `string.IsNullOrWhiteSpace`, with `None` standing for a null reference. */
  predicate IsNullOrWhiteSpace(s: Option<string>) {
    s.None? || IsBlank(s.value)
  }

  /**
    `string.StartsWith(prefix)`, compared character by character. The .NET
    overload without a StringComparison compares culture-sensitively, which
    differs on characters the culture ignores; that is not modelled.
   */
  predicate StartsWith(s: string, prefix: string) {
    |prefix| <= |s| && s[..|prefix|] == prefix
  }

  /** No element occurs twice. */
  ghost predicate IsDistinct<T>(s: seq<T>) {
    forall i, j :: 0 <= i < j < |s| ==> s[i] != s[j]
  }

  /** Dropping one element of a sequence without repetitions leaves exactly the other elements, still without repetitions. */
  lemma DistinctRemoval<T>(s: seq<T>, k: int)
    requires IsDistinct(s) && 0 <= k < |s|
    ensures var r := s[..k] + s[k + 1..];
            && IsDistinct(r)
            && (forall x :: x in r <==> x in s && x != s[k])
  {
    var r := s[..k] + s[k + 1..];
    assert forall j :: 0 <= j < |r| ==> r[j] == s[if j < k then j else j + 1];
    forall x | x in s && x != s[k]
      ensures x in r
    {
      var j :| 0 <= j < |s| && s[j] == x;
      assert r[if j < k then j else j - 1] == x;
    }
  }

  /** Appending a new element to a sequence without repetitions keeps it without repetitions. */
  lemma DistinctAppend<T>(s: seq<T>, x: T)
    requires IsDistinct(s) && x !in s
    ensures IsDistinct(s + [x])
  {
  }

  /** Index of the first occurrence of `x` in `s` (`List<T>.IndexOf`), or -1. */
  function IndexOf<T(==)>(s: seq<T>, x: T): (i: int)
    ensures -1 <= i < |s|
    ensures i == -1 <==> x !in s
    ensures 0 <= i ==> s[i] == x && x !in s[..i]
  {
    if |s| == 0 then -1
    else if s[0] == x then 0
    else
      var j := IndexOf(s[1..], x);
      if j == -1 then -1
      else assert s[..j + 1] == [s[0]] + s[1..][..j]; j + 1
  }

  /** `List<T>.Remove(x)`: drops the first occurrence of `x`; no change when `x` is absent. */
  function RemoveFirst<T(==)>(s: seq<T>, x: T): (r: seq<T>)
    ensures x !in s ==> r == s
    ensures x in s ==> |r| == |s| - 1 && r == s[..IndexOf(s, x)] + s[IndexOf(s, x) + 1..]
  {
    var i := IndexOf(s, x);
    if i == -1 then s else s[..i] + s[i + 1..]
  }
}
