/**
  `iDo/Components/DOLoading.swift`: a loading overlay showing either a
  spinning circle (`.classic`) or the system activity indicator.

  Views are known by an identity number; the layout constraints that pin
  the overlay to its superview, and the animations themselves, are left
  out. What stays is the state the methods flip: the loading flags, the
  side of the square content, the circle layer and the indicator.
 */
module DOLoading {
  import opened Geometry
  import opened Wrappers

  /** `DOLoading.Mode`. */
  datatype Mode = Classic | System

  /** The circle layer: its frame in the content view, the arc's centre and radius. */
  datatype Circle = Circle(frame: Rect, center: Point, radius: real)

  /** The side `draw(_:)` gives the square content: 65, but no more than half the parent's width or height. */
  function ContentSide(parent: Size): (side: real)
    ensures side <= 65.0 && side <= parent.width * 0.5 && side <= parent.height * 0.5
    ensures side == 65.0 || side == parent.width * 0.5 || side == parent.height * 0.5
  {
    Min(Min(65.0, parent.width * 0.5), Min(65.0, parent.height * 0.5))
  }

  /** The circle `createCircleLayerIfNeeded(_:)` builds for content of the given width and height. */
  function CircleOf(width: real, height: real): Circle {
    Circle(Rect(ZeroPoint, Size(width, height)), Point(width / 2.0, height / 2.0), height / 2.0 * 0.55)
  }

  /**
    On the square content `draw(_:)` makes, the circle is centred in the
    content and its disk stays inside it, with room for the stroke.
   */
  lemma CircleInsideSquare(parent: Size)
    requires 0.0 <= parent.width && 0.0 <= parent.height
    ensures var side := ContentSide(parent);
      var c := CircleOf(side, side);
      && c.center.x == MidX(c.frame) && c.center.y == MidY(c.frame)
      && 0.0 <= c.radius <= side / 2.0
      && (side > 0.0 ==> c.radius < side / 2.0)
      && MinX(c.frame) <= c.center.x - c.radius && c.center.x + c.radius <= MaxX(c.frame)
      && MinY(c.frame) <= c.center.y - c.radius && c.center.y + c.radius <= MaxY(c.frame)
  {
  }

  /** `DOLoading`: its flags, the view it is in, the content's size and the two animated parts. */
  class Loading {
    var mode: Mode
    var isLoading: bool
    var isAnimating: bool
    var shouldRefactorAnimations: bool
    /** The view the overlay is in, if any. */
    var superview: Option<nat>
    /** The content's width and height constraint constants. */
    var contentWidth: real
    var contentHeight: real
    /** The circle layer, whether it is in the content's layer, and whether it carries the animation group. */
    var circle: Option<Circle>
    var circleAttached: bool
    var circleAnimating: bool
    /** Whether the system indicator exists, is in the content view, and spins. */
    var hasIndicator: bool
    var indicatorAttached: bool
    var indicatorAnimating: bool

    /** The two loading flags move together. */
    predicate Valid()
      reads this
    {
      isLoading == isAnimating
    }

    constructor (mode: Mode)
      ensures this.mode == mode && !isLoading && !isAnimating && !shouldRefactorAnimations
      ensures superview == None && contentWidth == 65.0 && contentHeight == 65.0
      ensures circle == None && !hasIndicator
      ensures Valid()
    {
      this.mode := mode;
      isLoading := false;
      isAnimating := false;
      shouldRefactorAnimations := false;
      superview := None;
      contentWidth := 65.0;
      contentHeight := 65.0;
      circle := None;
      circleAttached := false;
      circleAnimating := false;
      hasIndicator := false;
      indicatorAttached := false;
      indicatorAnimating := false;
    }

    /** `show(in:)`: moving into a different view marks the circle for rebuilding; the view it is already in changes nothing. */
    method Show(view: Option<nat>, keyWindow: Option<nat>)
      modifies this`superview, this`shouldRefactorAnimations
      ensures var target := if view.Some? then view else keyWindow;
        && (target.Some? && old(superview) != target ==> superview == target && shouldRefactorAnimations)
        && (target.None? || old(superview) == target ==>
              superview == old(superview) && shouldRefactorAnimations == old(shouldRefactorAnimations))
    {
      var target := if view.Some? then view else keyWindow;
      if target.None? {
        return;
      }
      if superview != target {
        superview := target;
        shouldRefactorAnimations := true;
      }
    }

    /** `hide()`: both flags are cleared, the circle's animations removed and the overlay taken out of its view. */
    method Hide()
      modifies this`isLoading, this`isAnimating, this`circleAnimating, this`superview
      ensures !isLoading && !isAnimating && !circleAnimating && superview == None
      ensures Valid()
    {
      isLoading := false;
      isAnimating := false;
      circleAnimating := false;
      superview := None;
    }

    /** `startSystemIndicator()`: the circle leaves the content; the indicator is created if needed and spins. */
    method StartSystemIndicator()
      modifies this`circleAttached, this`hasIndicator, this`indicatorAttached, this`indicatorAnimating
      ensures hasIndicator && indicatorAnimating
      ensures circleAttached == (old(circleAttached) && circle.None?)
      ensures indicatorAttached == (old(indicatorAttached) || !old(hasIndicator))
    {
      if circle.Some? {
        circleAttached := false;
      }
      if !hasIndicator {
        hasIndicator := true;
        indicatorAttached := true;
      }
      indicatorAnimating := true;
    }

    /** `startClassicAnimating()`: the indicator leaves the content; the circle, if there is one, gets the animation group. */
    method StartClassicAnimating()
      modifies this`indicatorAttached, this`circleAnimating
      ensures indicatorAttached == (old(indicatorAttached) && !hasIndicator)
      ensures circleAnimating == (old(circleAnimating) || circle.Some?)
    {
      if hasIndicator {
        indicatorAttached := false;
      }
      if circle.Some? {
        circleAnimating := true;
      }
    }

    /** `startAnimating()`: nothing while already loading; otherwise both flags are set and the mode's animation starts. */
    method StartAnimating()
      requires Valid()
      modifies this`isLoading, this`isAnimating, this`circleAttached, this`hasIndicator,
               this`indicatorAttached, this`indicatorAnimating, this`circleAnimating
      ensures Valid() && isLoading && isAnimating
      ensures old(isLoading) ==> unchanged(this)
      ensures !old(isLoading) && mode == Classic ==>
        && circleAnimating == (old(circleAnimating) || circle.Some?)
        && indicatorAttached == (old(indicatorAttached) && !hasIndicator)
        && circleAttached == old(circleAttached)
        && hasIndicator == old(hasIndicator) && indicatorAnimating == old(indicatorAnimating)
      ensures !old(isLoading) && mode == System ==>
        && hasIndicator && indicatorAnimating
        && circleAttached == (old(circleAttached) && circle.None?)
        && indicatorAttached == (old(indicatorAttached) || !old(hasIndicator))
        && circleAnimating == old(circleAnimating)
    {
      if isLoading {
        return;
      }
      isAnimating := true;
      isLoading := true;
      match mode {
        case Classic => StartClassicAnimating();
        case System => StartSystemIndicator();
      }
    }

    /** `createCircleLayerIfNeeded(_:)`: an existing circle is kept unless asked; otherwise a new one replaces it. */
    method CreateCircleLayerIfNeeded(isNeeded: bool)
      modifies this`circle, this`circleAttached, this`circleAnimating
      ensures !isNeeded && old(circle).Some? ==>
        circle == old(circle) && circleAttached == old(circleAttached) && circleAnimating == old(circleAnimating)
      ensures isNeeded || old(circle).None? ==>
        circle == Some(CircleOf(contentWidth, contentHeight)) && circleAttached && !circleAnimating
    {
      if !isNeeded && circle.Some? {
        return;
      }
      circle := Some(CircleOf(contentWidth, contentHeight));
      circleAttached := true;
      circleAnimating := false;
    }

    /**
      `draw(_:)`, given the superview's size: outside any view nothing
      happens; otherwise the content becomes a square, a `.classic` overlay
      marked for rebuilding gets a new circle, and the animation starts.
      An overlay that is already loading does not start again, so a circle
      rebuilt then stays still.
     */
    method Draw(parent: Size)
      requires Valid()
      modifies this`contentWidth, this`contentHeight, this`shouldRefactorAnimations, this`circle,
               this`circleAttached, this`circleAnimating, this`isLoading, this`isAnimating,
               this`hasIndicator, this`indicatorAttached, this`indicatorAnimating
      ensures Valid()
      ensures old(superview).None? ==> unchanged(this)
      ensures old(superview).Some? ==>
        && contentWidth == ContentSide(parent) && contentHeight == ContentSide(parent)
        && isLoading && isAnimating
        && shouldRefactorAnimations == (old(shouldRefactorAnimations) && mode == System)
      ensures var rebuilt := old(superview).Some? && old(shouldRefactorAnimations) && mode == Classic;
        && (rebuilt ==> circle == Some(CircleOf(ContentSide(parent), ContentSide(parent))) && circleAttached)
        && (!rebuilt ==> circle == old(circle))
      ensures old(superview).Some? && old(isLoading) ==>
        && circleAttached == (old(circleAttached) || (old(shouldRefactorAnimations) && mode == Classic))
        && circleAnimating == (old(circleAnimating) && !(old(shouldRefactorAnimations) && mode == Classic))
        && hasIndicator == old(hasIndicator) && indicatorAttached == old(indicatorAttached)
        && indicatorAnimating == old(indicatorAnimating)
      ensures old(superview).Some? && !old(isLoading) && mode == Classic ==>
        && circleAttached == (old(circleAttached) || old(shouldRefactorAnimations))
        && circleAnimating == (old(circleAnimating) || circle.Some?)
        && hasIndicator == old(hasIndicator) && indicatorAttached == (old(indicatorAttached) && !hasIndicator)
        && indicatorAnimating == old(indicatorAnimating)
      ensures old(superview).Some? && !old(isLoading) && mode == System ==>
        && circleAttached == (old(circleAttached) && circle.None?)
        && circleAnimating == old(circleAnimating)
        && hasIndicator && indicatorAnimating
        && indicatorAttached == (old(indicatorAttached) || !old(hasIndicator))
    {
      if superview.None? {
        return;
      }
      var side := ContentSide(parent);
      contentWidth := side;
      contentHeight := side;
      if shouldRefactorAnimations && mode == Classic {
        shouldRefactorAnimations := false;
        CreateCircleLayerIfNeeded(true);
      }
      StartAnimating();
    }
  }
}
