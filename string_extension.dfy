/**
  `iDo/Extensions/String+Extension.swift`: slicing a string by integer
  ranges, and the `NSRange` an attributed string's styling methods use.

  A string is its sequence of characters and a slice is a string again. The
  position arithmetic in `index(startIndex, offsetBy:)` and `relative(to:)`
  traps outside the string, so each subscript requires the positions it
  reaches to lie inside it.
 */
module StringSlices {
  import opened Wrappers

  /** `s[a...b]`: characters `a` through `b`. */
  function Closed(s: string, a: int, b: int): (r: string)
    requires 0 <= a <= b < |s|
    ensures |r| == b - a + 1 && forall i :: 0 <= i < |r| ==> r[i] == s[a + i]
  {
    s[a..b + 1]
  }

  /** `s[a..<b]`: characters `a` up to, not including, `b`. */
  function HalfOpen(s: string, a: int, b: int): (r: string)
    requires 0 <= a <= b <= |s|
    ensures |r| == b - a && forall i :: 0 <= i < |r| ==> r[i] == s[a + i]
  {
    s[a..b]
  }

  /** `s[a...]`: `a..<count`, the suffix from `a`. */
  function From(s: string, a: int): (r: string)
    requires 0 <= a <= |s|
    ensures s == s[..a] + r
  {
    HalfOpen(s, a, |s|)
  }

  /** `s[..<b]`: `0..<b`, the first `b` characters. */
  function UpTo(s: string, b: int): (r: string)
    requires 0 <= b <= |s|
    ensures |r| == b && r <= s
  {
    HalfOpen(s, 0, b)
  }

  /** `s[...b]`: `0..<b + 1`, the first `b + 1` characters. */
  function Through(s: string, b: int): (r: string)
    requires 0 <= b + 1 <= |s|
    ensures |r| == b + 1 && r <= s
  {
    HalfOpen(s, 0, b + 1)
  }

  /** The documented examples on "1234567890". */
  lemma DocumentedExamples()
    ensures Closed("1234567890", 1, 3) == "234"
    ensures HalfOpen("1234567890", 1, 3) == "23"
    ensures From("1234567890", 2) == "34567890"
    ensures UpTo("1234567890", 3) == "123"
    ensures Through("1234567890", 2) == "123"
  {
  }

  /** A closed range is the half-open range one past its end, and `...b` is `..<b + 1`. */
  lemma ClosedIsHalfOpen(s: string, a: int, b: int)
    requires 0 <= a <= b < |s|
    ensures Closed(s, a, b) == HalfOpen(s, a, b + 1)
    ensures Through(s, b) == UpTo(s, b + 1)
  {
  }

  /** Cutting at `b` splits the string into `..<b` and `b...`, and `a..<b` is the suffix from `a` of the first part. */
  lemma SlicesCompose(s: string, a: int, b: int)
    requires 0 <= a <= b <= |s|
    ensures UpTo(s, b) + From(s, b) == s
    ensures HalfOpen(s, a, b) == From(UpTo(s, b), a)
  {
  }

  // ----- NSMutableAttributedString.range(from:) -----

  /** `NSRange`: a start and a length in characters. */
  datatype NSRange = NSRange(location: int, length: int)

  /** `ClosedRange<Int>`: its bounds are ordered, so it always holds at least its lower bound. */
  type ClosedRange = r: (int, int) | r.0 <= r.1 witness (0, 0)

  /** `ClosedRange.isEmpty`. */
  predicate IsEmpty(r: ClosedRange) {
    r.1 < r.0
  }

  /** `range(from:)` as written: no range means the whole string; a range `a...b` gives location `a` and length `b - a`. */
  function RangeFromAsWritten(count: nat, r: Option<ClosedRange>): (n: Option<NSRange>)
    ensures r.None? ==> n == Some(NSRange(0, count))
    ensures r.Some? ==> n.Some? && n.value.location == r.value.0 && n.value.location + n.value.length == r.value.1
  {
    if r.Some? && IsEmpty(r.value) then None
    else
      var loc := if r.Some? then r.value.0 else 0;
      var upper := if r.Some? then r.value.1 else count;
      Some(NSRange(loc, upper - loc))
  }

  /** `range(from:)` counting `a...b` inclusively, as the closed-range subscript does: length `b - a + 1`. */
  function RangeFrom(count: nat, r: Option<ClosedRange>): (n: Option<NSRange>)
    ensures r.None? ==> n == Some(NSRange(0, count))
    ensures r.Some? ==> n.Some? && n.value.location == r.value.0 && n.value.location + n.value.length == r.value.1 + 1
  {
    if r.Some? && IsEmpty(r.value) then None
    else if r.Some? then Some(NSRange(r.value.0, r.value.1 - r.value.0 + 1))
    else Some(NSRange(0, count))
  }

  /** The characters an `NSRange` covers. */
  function Covered(s: string, n: NSRange): string
    requires 0 <= n.location && 0 <= n.length && n.location + n.length <= |s|
  {
    s[n.location..n.location + n.length]
  }

  /** The `nil` branch of `isEmpty` never fires: a closed range is never empty. */
  lemma ClosedRangeNeverEmpty(count: nat, r: Option<ClosedRange>)
    ensures RangeFromAsWritten(count, r).Some? && RangeFrom(count, r).Some?
  {
  }

  /** As written, the range stops one short: it covers `a...b` without its last character. */
  lemma AsWrittenDropsLast(s: string, a: int, b: int)
    requires 0 <= a <= b < |s|
    ensures var n := RangeFromAsWritten(|s|, Some((a, b))).value;
      0 <= n.location && 0 <= n.length && n.location + n.length <= |s|
      && Covered(s, n) == Closed(s, a, b)[..b - a] && Covered(s, n) != Closed(s, a, b)
  {
  }

  /** The input that shows it: styling "1234567890" in `1...3` touches "23", not "234". */
  lemma AsWrittenExample()
    ensures Covered("1234567890", RangeFromAsWritten(10, Some((1, 3))).value) == "23"
  {
  }

  /** Corrected, the range covers exactly the characters `s[a...b]`, and no range covers the whole string. */
  lemma RangeFromCoversSlice(s: string, r: Option<ClosedRange>)
    requires r.Some? ==> 0 <= r.value.0 && r.value.1 < |s|
    ensures var n := RangeFrom(|s|, r).value;
      0 <= n.location && 0 <= n.length && n.location + n.length <= |s|
      && (r.Some? ==> Covered(s, n) == Closed(s, r.value.0, r.value.1))
      && (r.None? ==> Covered(s, n) == s)
  {
  }
}
