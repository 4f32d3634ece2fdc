// The per-image viewport of `image_ui_state.rs`: display mode, split and gamma
// settings, zoom and the visible window in texture (UV) coordinates. `f32` is
// modelled as `real`.
module Viewport {
  import opened Common

  datatype DiffMode = Full | VSplit | VColorDiff | HSplit | HColorDiff

  datatype Pos2 = Pos2(x: real, y: real)
  datatype Vec2 = Vec2(x: real, y: real)

  /** An egui `Rect` given by its two corners. */
  datatype Rect = Rect(min: Pos2, max: Pos2) {
    function Width(): real { max.x - min.x }
    function Height(): real { max.y - min.y }
  }

  const ZOOM_MIN: real := 0.01
  const ZOOM_MAX: real := 1.0

  /** `f32::clamp(ZOOM_MIN, ZOOM_MAX)`. */
  function ClampZoom(s: real): (r: real)
    ensures ZOOM_MIN <= r <= ZOOM_MAX
    ensures ZOOM_MIN <= s <= ZOOM_MAX ==> r == s
    ensures s < ZOOM_MIN ==> r == ZOOM_MIN
    ensures s > ZOOM_MAX ==> r == ZOOM_MAX
  {
    if s < ZOOM_MIN then ZOOM_MIN else if s > ZOOM_MAX then ZOOM_MAX else s
  }

  /** The visible window is a legal zoom and lies inside the unit square. */
  ghost predicate InWindow(scale: Option<real>, center: Pos2) {
    var half := scale.UnwrapOr(1.0) / 2.0;
    (scale.Some? ==> ZOOM_MIN <= scale.value <= ZOOM_MAX) &&
    0.0 <= center.x - half && center.x + half <= 1.0 &&
    0.0 <= center.y - half && center.y + half <= 1.0
  }

  /** What `fix_bounds` leaves in `(scale, view_center)`: the scale clamped, then
      each axis pulled back inside `[0, 1]`, first against the low edge and then
      against the high edge. */
  function FixedBounds(scale: Option<real>, center: Pos2): (r: (Option<real>, Pos2))
    ensures r.0.None? <==> scale.None?
    ensures r.0.Some? ==> r.0.value == ClampZoom(scale.value)
    ensures InWindow(r.0, r.1)
    ensures InWindow(scale, center) ==> r == (scale, center)
  {
    var s := if scale.Some? then Some(ClampZoom(scale.value)) else None;
    var half := s.UnwrapOr(1.0) / 2.0;
    var x1 := if center.x - half < 0.0 then half else center.x;
    var x2 := if x1 + half > 1.0 then 1.0 - half else x1;
    var y1 := if center.y - half < 0.0 then half else center.y;
    var y2 := if y1 + half > 1.0 then 1.0 - half else y1;
    (s, Pos2(x2, y2))
  }

  /** How a split divides a window of side `s`: `ratio` of it on one side. */
  lemma SplitShares(ratio: real, s: real)
    requires 0.0 <= ratio <= 1.0 && 0.0 <= s
    ensures 0.0 <= ratio * s <= s
    ensures 0.0 <= ratio * (s / 2.0) <= s / 2.0
    ensures 0.0 <= (1.0 - ratio) * (s / 2.0) <= s / 2.0
    ensures ratio * (s / 2.0) == ratio * s / 2.0
    ensures (1.0 - ratio) * (s / 2.0) == s / 2.0 - ratio * s / 2.0
    ensures (1.0 - ratio) * s / 2.0 == s / 2.0 - ratio * s / 2.0
  {
    assert ratio * s <= 1.0 * s;
    assert ratio * (s / 2.0) <= 1.0 * (s / 2.0);
    assert (1.0 - ratio) * (s / 2.0) <= 1.0 * (s / 2.0);
  }

  class ImageUIState {
    var diffMode: DiffMode
    var colorDiffVSplitGamma: real
    var colorDiffHSplitGamma: real
    var vsplitFactor: real
    var hsplitFactor: real
    var scale: Option<real>
    var viewCenter: Pos2

    /** `ImageUIState::new()`. */
    constructor ()
      ensures IsDefault()
    {
      diffMode := Full;
      colorDiffVSplitGamma := 2.2;
      colorDiffHSplitGamma := 2.2;
      scale := None;
      vsplitFactor := 0.5;
      hsplitFactor := 0.5;
      viewCenter := Pos2(0.5, 0.5);
    }

    /** The state `new()` creates. */
    ghost predicate IsDefault()
      reads this
    {
      diffMode == Full &&
      colorDiffVSplitGamma == 2.2 && colorDiffHSplitGamma == 2.2 &&
      vsplitFactor == 0.5 && hsplitFactor == 0.5 &&
      scale == None && viewCenter == Pos2(0.5, 0.5)
    }

    /** `scale()`: the set zoom, or 1.0 (the whole image) when none is set. */
    function Scale(): (r: real)
      reads this
      ensures scale.None? ==> r == 1.0
      ensures scale.Some? ==> r == scale.value
      ensures InWindow(scale, viewCenter) ==> ZOOM_MIN <= r <= ZOOM_MAX
    {
      scale.UnwrapOr(1.0)
    }

    /** `left()`, `right()`, `top()`, `bottom()`: the edges of the visible
        window, `scale()` apart around the centre; inside `[0, 1]` once fitted. */
    function Left(): (r: real)
      reads this
      ensures InWindow(scale, viewCenter) ==> 0.0 <= r <= viewCenter.x
    {
      viewCenter.x - Scale() / 2.0
    }

    function Right(): (r: real)
      reads this
      ensures r - Left() == Scale() && (Left() + r) / 2.0 == viewCenter.x
      ensures InWindow(scale, viewCenter) ==> viewCenter.x <= r <= 1.0
    {
      viewCenter.x + Scale() / 2.0
    }

    function Top(): (r: real)
      reads this
      ensures InWindow(scale, viewCenter) ==> 0.0 <= r <= viewCenter.y
    {
      viewCenter.y - Scale() / 2.0
    }

    function Bottom(): (r: real)
      reads this
      ensures r - Top() == Scale() && (Top() + r) / 2.0 == viewCenter.y
      ensures InWindow(scale, viewCenter) ==> viewCenter.y <= r <= 1.0
    {
      viewCenter.y + Scale() / 2.0
    }

    /** Every setting other than `scale` and `view_center` has the given value. */
    ghost predicate SettingsAsIn(mode: DiffMode, vg: real, hg: real, vf: real, hf: real)
      reads this
    {
      diffMode == mode && colorDiffVSplitGamma == vg && colorDiffHSplitGamma == hg &&
      vsplitFactor == vf && hsplitFactor == hf
    }

    /** `fix_bounds`: clamp the zoom, then move the centre so the window fits. */
    method FixBounds()
      modifies this
      ensures (scale, viewCenter) == FixedBounds(old(scale), old(viewCenter))
      ensures scale.Some? ==> ZOOM_MIN <= scale.value <= ZOOM_MAX
      ensures 0.0 <= Left() <= Right() <= 1.0 && 0.0 <= Top() <= Bottom() <= 1.0
      ensures SettingsAsIn(old(diffMode), old(colorDiffVSplitGamma), old(colorDiffHSplitGamma),
                           old(vsplitFactor), old(hsplitFactor))
    {
      if scale.Some? {
        scale := Some(ClampZoom(scale.value));
      }
      var sBy2 := scale.UnwrapOr(1.0) / 2.0;
      if Left() < 0.0 {
        viewCenter := viewCenter.(x := sBy2);
      }
      if Right() > 1.0 {
        viewCenter := viewCenter.(x := 1.0 - sBy2);
      }
      if Top() < 0.0 {
        viewCenter := viewCenter.(y := sBy2);
      }
      if Bottom() > 1.0 {
        viewCenter := viewCenter.(y := 1.0 - sBy2);
      }
    }

    /** `set_scale`. */
    method SetScale(s: real)
      modifies this
      ensures (scale, viewCenter) == FixedBounds(Some(s), old(viewCenter))
      ensures scale == Some(ClampZoom(s))
      ensures 0.0 <= Left() <= Right() <= 1.0 && 0.0 <= Top() <= Bottom() <= 1.0
      ensures SettingsAsIn(old(diffMode), old(colorDiffVSplitGamma), old(colorDiffHSplitGamma),
                           old(vsplitFactor), old(hsplitFactor))
    {
      scale := Some(s);
      FixBounds();
    }

    /** `set_scale_if_none`: only a state without a zoom takes `s`. */
    method SetScaleIfNone(s: real)
      modifies this
      ensures old(scale).Some? ==> unchanged(this)
      ensures old(scale).None? ==> (scale, viewCenter) == FixedBounds(Some(s), old(viewCenter))
      ensures SettingsAsIn(old(diffMode), old(colorDiffVSplitGamma), old(colorDiffHSplitGamma),
                           old(vsplitFactor), old(hsplitFactor))
    {
      if scale.None? {
        SetScale(s);
      }
    }

    /** `set_scale_diff`: add to the zoom, counting a missing zoom as 1.0. */
    method SetScaleDiff(scaleDiff: real)
      modifies this
      ensures (scale, viewCenter) == FixedBounds(Some(old(Scale()) + scaleDiff), old(viewCenter))
      ensures scale == Some(ClampZoom(old(scale).UnwrapOr(1.0) + scaleDiff))
      ensures 0.0 <= Left() <= Right() <= 1.0 && 0.0 <= Top() <= Bottom() <= 1.0
      ensures SettingsAsIn(old(diffMode), old(colorDiffVSplitGamma), old(colorDiffHSplitGamma),
                           old(vsplitFactor), old(hsplitFactor))
    {
      scale := Some(scale.UnwrapOr(1.0) + scaleDiff);
      FixBounds();
    }

    /** `set_center_diff`: pan by `centerDiff`, then fit the window again. */
    method SetCenterDiff(centerDiff: Vec2)
      modifies this
      ensures (scale, viewCenter) ==
              FixedBounds(old(scale), Pos2(old(viewCenter).x + centerDiff.x, old(viewCenter).y + centerDiff.y))
      ensures scale.Some? ==> ZOOM_MIN <= scale.value <= ZOOM_MAX
      ensures 0.0 <= Left() <= Right() <= 1.0 && 0.0 <= Top() <= Bottom() <= 1.0
      ensures SettingsAsIn(old(diffMode), old(colorDiffVSplitGamma), old(colorDiffHSplitGamma),
                           old(vsplitFactor), old(hsplitFactor))
    {
      viewCenter := Pos2(viewCenter.x + centerDiff.x, viewCenter.y + centerDiff.y);
      FixBounds();
    }

    /** `uv_full`: the visible window, a square of side `scale()` around the centre. */
    function UvFull(): (r: Rect)
      reads this
      ensures r.Width() == Scale() && r.Height() == Scale()
      ensures (r.min.x + r.max.x) / 2.0 == viewCenter.x && (r.min.y + r.max.y) / 2.0 == viewCenter.y
    {
      Rect(Pos2(Left(), Top()), Pos2(Right(), Bottom()))
    }

    /** `uv_vsplit`: the windows into the left and the right half of the texture. */
    function UvVSplit(ratio: real): (r: (Rect, Rect))
      reads this
      ensures r.0.Width() == ratio * Scale() / 2.0 && r.1.Width() == (1.0 - ratio) * Scale() / 2.0
      ensures r.0.min.x == Left() / 2.0 && r.1.max.x == Right() / 2.0 + 0.5
      ensures r.1.min.x == r.0.max.x + 0.5
      ensures r.0.min.y == r.1.min.y == Top() && r.0.max.y == r.1.max.y == Bottom()
    {
      var s := Scale() / 2.0;
      (Rect(Pos2(Left() / 2.0, Top()), Pos2(Right() / 2.0 - (1.0 - ratio) * s, Bottom())),
       Rect(Pos2(Left() / 2.0 + 0.5 + ratio * s, Top()), Pos2(Right() / 2.0 + 0.5, Bottom())))
    }

    /** `uv_hsplit`: the windows into the top and the bottom half of the texture. */
    function UvHSplit(ratio: real): (r: (Rect, Rect))
      reads this
      ensures r.0.Height() == ratio * Scale() / 2.0 && r.1.Height() == (1.0 - ratio) * Scale() / 2.0
      ensures r.0.min.y == Top() / 2.0 && r.1.max.y == Bottom() / 2.0 + 0.5
      ensures r.1.min.y == r.0.max.y + 0.5
      ensures r.0.min.x == r.1.min.x == Left() && r.0.max.x == r.1.max.x == Right()
    {
      var s := Scale() / 2.0;
      (Rect(Pos2(Left(), Top() / 2.0), Pos2(Right(), Bottom() / 2.0 - (1.0 - ratio) * s)),
       Rect(Pos2(Left(), Top() / 2.0 + 0.5 + ratio * s), Pos2(Right(), Bottom() / 2.0 + 0.5)))
    }

    /** With the window fitted and `0 <= ratio <= 1`, the vertical split shows
        `ratio` of the window from the left half of the texture and the rest
        from the right half, each inside its own half. */
    lemma VSplitHalves(ratio: real)
      requires InWindow(scale, viewCenter)
      requires 0.0 <= ratio <= 1.0
      ensures var (l, rr) := UvVSplit(ratio);
        l.Width() == ratio * Scale() / 2.0 && rr.Width() == (1.0 - ratio) * Scale() / 2.0 &&
        0.0 <= l.min.x <= l.max.x <= 0.5 && 0.5 <= rr.min.x <= rr.max.x <= 1.0 &&
        l.min.y == rr.min.y == Top() && l.max.y == rr.max.y == Bottom()
    {
      SplitShares(ratio, Scale());
    }

    /** The same for the horizontal split, along `y`. */
    lemma HSplitHalves(ratio: real)
      requires InWindow(scale, viewCenter)
      requires 0.0 <= ratio <= 1.0
      ensures var (t, b) := UvHSplit(ratio);
        t.Height() == ratio * Scale() / 2.0 && b.Height() == (1.0 - ratio) * Scale() / 2.0 &&
        0.0 <= t.min.y <= t.max.y <= 0.5 && 0.5 <= b.min.y <= b.max.y <= 1.0 &&
        t.min.x == b.min.x == Left() && t.max.x == b.max.x == Right()
    {
      SplitShares(ratio, Scale());
    }
  }
}
