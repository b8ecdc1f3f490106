/**
  `iDo/Cocoa/String+iDo.swift`: the two slicing subscripts that assert their
  bounds before slicing. Their assertions are their preconditions here; the
  conversions to numbers and the text measurement in the same file are not
  part of this module.
 */
module StringChecked {
  import StringSlices

  /** `s[lower...upper]` for a `CountableClosedRange`: asserts `lower >= 0` and `upper < count`, then gives `lower` through `upper`. */
  function ClosedSlice(s: string, lower: int, upper: int): (r: string)
    requires lower <= upper
    requires lower >= 0 && upper < |s|
    ensures |r| == upper - lower + 1
    ensures r == StringSlices.Closed(s, lower, upper)
  {
    s[lower..upper + 1]
  }

  /** `s[lower..<upper]` for a `CountableRange`: asserts `lower >= 0` and `upper <= count`, then gives `lower` up to `upper`. */
  function HalfOpenSlice(s: string, lower: int, upper: int): (r: string)
    requires lower <= upper
    requires lower >= 0 && upper <= |s|
    ensures |r| == upper - lower
    ensures r == StringSlices.HalfOpen(s, lower, upper)
  {
    s[lower..upper]
  }

  /** The closed slice is the half-open slice one further, and consecutive slices join up. */
  lemma ClosedIsHalfOpenPlusOne(s: string, a: int, b: int, c: int)
    requires 0 <= a <= b < c <= |s|
    ensures ClosedSlice(s, a, b) == HalfOpenSlice(s, a, b + 1)
    ensures HalfOpenSlice(s, a, b) + HalfOpenSlice(s, b, c) == HalfOpenSlice(s, a, c)
    ensures ClosedSlice(s, a, b) + HalfOpenSlice(s, b + 1, c) == HalfOpenSlice(s, a, c)
  {
  }

  /** The last character is within reach of the closed slice, and the whole string of the half-open one. */
  lemma WholeString(s: string)
    requires |s| > 0
    ensures ClosedSlice(s, 0, |s| - 1) == s && HalfOpenSlice(s, 0, |s|) == s
  {
  }
}
