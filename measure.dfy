/**
  Text measurement is a platform service (`boundingRect`, `boundingWidth`,
  `boundingHeight`). The model takes it as a function value whose results are
  never negative and assumes nothing else about it.
 */
module Measure {
  import opened Geometry

  /** A measuring limit: a finite extent or `CGFloat.infinity`. */
  datatype Limit = Finite(bound: real) | Unbounded

  /**
    `boundingWidth(with: height, fontSize:)` and `boundingHeight(with: width, fontSize:)`:
    text, the limit on the other axis and the font size give one extent.
   */
  type ExtentMeasure = m: (string, Limit, real) -> real
    | forall s, l, f :: 0.0 <= m(s, l, f)
    witness (s: string, l: Limit, f: real) => 0.0

  /**
    `boundingRect(with: CGSize(width:height:), attributes: [.font: ...]).size`:
    text, the width limit, the height limit and the font size give a size.
   */
  type BoxMeasure = m: (string, Limit, Limit, real) -> Size
    | forall s, w, h, f :: 0.0 <= m(s, w, h, f).width && 0.0 <= m(s, w, h, f).height
    witness (s: string, w: Limit, h: Limit, f: real) => ZeroSize

  /**
    The widest of some texts, each measured under the same limit, as a
    running maximum that starts at 0 and only moves to a strictly larger
    width: the loop both popovers' estimators run.
   */
  function Widest(texts: seq<string>, measure: ExtentMeasure, limit: Limit, fontSize: real): real
  {
    if |texts| == 0 then 0.0
    else Max(Widest(texts[..|texts| - 1], measure, limit, fontSize),
             measure(texts[|texts| - 1], limit, fontSize))
  }

  /** The running maximum is the widest measured text, and 0 for no texts. */
  lemma {:induction false} WidestIsMax(texts: seq<string>, measure: ExtentMeasure, limit: Limit, fontSize: real)
    ensures var m := Widest(texts, measure, limit, fontSize);
      && 0.0 <= m
      && (forall i :: 0 <= i < |texts| ==> measure(texts[i], limit, fontSize) <= m)
      && (|texts| == 0 ==> m == 0.0)
      && (|texts| > 0 ==> exists i :: 0 <= i < |texts| && m == measure(texts[i], limit, fontSize))
    decreases |texts|
  {
    if |texts| > 0 {
      var init := texts[..|texts| - 1];
      WidestIsMax(init, measure, limit, fontSize);
      var m := Widest(texts, measure, limit, fontSize);
      var last := measure(texts[|texts| - 1], limit, fontSize);
      forall i | 0 <= i < |texts|
        ensures measure(texts[i], limit, fontSize) <= m
      {
        if i < |texts| - 1 {
          assert texts[i] == init[i];
        }
      }
      if |init| == 0 || last >= Widest(init, measure, limit, fontSize) {
        assert m == last;
      } else {
        var j :| 0 <= j < |init| && Widest(init, measure, limit, fontSize) == measure(init[j], limit, fontSize);
        assert texts[j] == init[j];
      }
    }
  }
}
