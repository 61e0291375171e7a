/**
 * The mutable state of the decorative scene: the breakpoint flags, the
 * pointer-down flag, the startup time and the scroll-driven visibility refs,
 * with the event handlers and the per-frame update that change them; and the
 * digital-rain glyphs that fall and wrap around every frame.
 */
module SceneAnim {
  import opened Common
  import opened Visibility
  import Responsive

  /** Number of colours in the particle palette. */
  const PaletteSize: nat := 8
  /** A rain glyph that falls below this height wraps to the top. */
  const RainBottom: real := -10.0
  /** The height a wrapped rain glyph restarts from. */
  const RainTop: real := 10.0

  /** What one frame computes for the models: `progress` and `progress * modelsVisibleAnim`. */
  datatype FrameValues = FrameValues(progress: real, combined: real)

  class SceneRefs {
    var isMobile: bool
    var isTablet: bool
    var pointerDown: bool
    var startTime: Option<real>
    var scrollTarget: real
    var scrollAnim: real
    var modelsVisibleTarget: real
    var modelsVisibleAnim: real

    /** The two breakpoint flags never hold together and every visibility value is a fraction. */
    predicate Valid()
      reads this
    {
      !(isMobile && isTablet) &&
      InUnit(scrollTarget) && InUnit(scrollAnim) &&
      InUnit(modelsVisibleTarget) && InUnit(modelsVisibleAnim)
    }

    /** The refs' initial values: fully visible, no frame seen yet, desktop until the first check. */
    constructor ()
      ensures Valid()
      ensures !isMobile && !isTablet && !pointerDown && startTime.None?
      ensures scrollTarget == scrollAnim == modelsVisibleTarget == modelsVisibleAnim == 1.0
    {
      isMobile, isTablet, pointerDown := false, false, false;
      startTime := None;
      scrollTarget, scrollAnim := 1.0, 1.0;
      modelsVisibleTarget, modelsVisibleAnim := 1.0, 1.0;
    }

    /** `checkResponsive`, run on mount and on every resize. */
    method CheckResponsive(width: real)
      requires Valid()
      modifies this`isMobile, this`isTablet
      ensures Valid()
      ensures isMobile == Responsive.IsMobileWidth(width) && isTablet == Responsive.IsTabletWidth(width)
      ensures Responsive.FromFlags(isMobile, isTablet) == Responsive.Classify(width)
    {
      isMobile := width < 768.0;
      isTablet := width >= 768.0 && width < 1024.0;
    }

    /** The `pointerdown` listener. */
    method OnPointerDown()
      modifies this`pointerDown
      ensures pointerDown
    {
      pointerDown := true;
    }

    /** The `pointerup` listener. */
    method OnPointerUp()
      modifies this`pointerDown
      ensures !pointerDown
      ensures forall mouseX, mouseY :: PointerInput(mouseX, mouseY) == (0.0, 0.0)
    {
      pointerDown := false;
    }

    /** `(miX, miY)`: the normalised pointer position, counted only while the button is held. */
    function PointerInput(mouseX: real, mouseY: real): (mi: (real, real))
      reads this
      ensures !pointerDown ==> mi == (0.0, 0.0)
      ensures pointerDown ==> mi == (mouseX, mouseY)
    {
      if pointerDown then (mouseX, mouseY) else (0.0, 0.0)
    }

    /** The `scroll` listener: both targets take the same hero fraction. */
    method OnScroll(scrollY: real, innerHeight: real)
      requires Valid() && innerHeight > 0.0
      modifies this`scrollTarget, this`modelsVisibleTarget
      ensures Valid()
      ensures scrollTarget == modelsVisibleTarget == HeroFrac(scrollY, innerHeight)
    {
      var heroFrac := HeroFrac(scrollY, innerHeight);
      scrollTarget := heroFrac;
      modelsVisibleTarget := heroFrac;
    }

    /**
     * The state-changing part of one `useFrame` callback at elapsed time
     * `time`. `textMounted` says whether the name's group exists; the hero
     * fraction is only eased when it does.
     */
    method Frame(time: real, textMounted: bool) returns (v: FrameValues)
      requires Valid()
      modifies this`startTime, this`scrollAnim, this`modelsVisibleAnim
      ensures Valid()
      ensures startTime == if old(startTime).None? then Some(time) else old(startTime)
      ensures v.progress == Progress(startTime.value, time)
      ensures time >= startTime.value ==> InUnit(v.progress) && InUnit(v.combined)
      ensures modelsVisibleAnim == Lerp(old(modelsVisibleAnim), modelsVisibleTarget, ModelsFactor)
      ensures scrollAnim == if textMounted then Lerp(old(scrollAnim), scrollTarget, TextFactor) else old(scrollAnim)
      ensures v.combined == v.progress * modelsVisibleAnim
    {
      if startTime.None? {
        startTime := Some(time);
      }
      var progress := Progress(startTime.value, time);
      LerpBetween(modelsVisibleAnim, modelsVisibleTarget, ModelsFactor);
      LerpBetween(scrollAnim, scrollTarget, TextFactor);
      modelsVisibleAnim := Lerp(modelsVisibleAnim, modelsVisibleTarget, ModelsFactor);
      if textMounted {
        scrollAnim := Lerp(scrollAnim, scrollTarget, TextFactor);
      }
      v := FrameValues(progress, progress * modelsVisibleAnim);
      if time >= startTime.value {
        MulUnitBound(progress, modelsVisibleAnim);
      }
    }
  }

  /**
   * The first frame fixes the start time and later frames keep it, so the
   * first frame shows progress 0 and any frame 1.2 s later shows progress 1.
   */
  method StartupCompletes(scene: SceneRefs, t0: real, t: real) returns (first: FrameValues, later: FrameValues)
    requires scene.Valid() && scene.startTime.None? && t >= t0 + StartupSeconds
    modifies scene
    ensures scene.Valid() && scene.startTime == Some(t0)
    ensures first.progress == 0.0 && later.progress == 1.0
  {
    first := scene.Frame(t0, true);
    later := scene.Frame(t, true);
  }

  /** `Math.floor(i / 3) % colorPalette.length` for the particle whose coordinates start at `i`. */
  function ColourIndex(i: nat, paletteLength: nat): (k: nat)
    requires paletteLength > 0
    ensures k < paletteLength
  {
    (i / 3) % paletteLength
  }

  /** With the eight-colour palette, the next particle takes the next colour, cyclically. */
  lemma ColourIndexCycles(i: nat)
    ensures ColourIndex(i + 3, PaletteSize) == (ColourIndex(i, PaletteSize) + 1) % PaletteSize
  {
    assert (i + 3) / 3 == i / 3 + 1;
  }

  /** A glyph's starting height `Math.random() * 10` for a random draw `r` in [0, 1). */
  function InitialRainY(r: real): (y: real)
    requires 0.0 <= r < 1.0
    ensures 0.0 <= y < RainTop
  {
    r * 10.0
  }

  /** True when a glyph's height lies in the rain's range. */
  predicate InRainRange(y: real) {
    RainBottom <= y <= RainTop
  }

  /** One frame of a rain glyph: fall by `0.05 * max(0.25, visible)`, wrapping to the top below -10. */
  function RainFall(y: real, visible: real): (y': real)
    ensures InRainRange(y) ==> InRainRange(y')
    // the glyph falls by at least 0.0125 each frame unless it wraps
    ensures y' == RainTop || y' <= y - 0.0125
    // it falls by exactly 0.05 * max(0.25, visible) unless it wraps ...
    ensures y' != RainTop ==> y' == y - 0.05 * Max(0.25, visible)
    // ... and it only wraps from the bottom of the range
    ensures InRainRange(y) && y' == RainTop ==> y < RainBottom + 0.05 * Max(0.25, visible)
  {
    var fallen := y - 0.05 * Max(0.25, visible);
    if fallen < RainBottom then RainTop else fallen
  }

  /** A glyph's height after a run of frames with the visibilities `visibles`, in order. */
  function RainFrames(y: real, visibles: seq<real>): real
    decreases |visibles|
  {
    if visibles == [] then y else RainFrames(RainFall(y, visibles[0]), visibles[1..])
  }

  /** Starting anywhere in range, a glyph stays in range over any run of frames. */
  lemma {:induction false} RainStaysInRange(y: real, visibles: seq<real>)
    requires InRainRange(y)
    ensures InRainRange(RainFrames(y, visibles))
    decreases |visibles|
  {
    if visibles != [] {
      RainStaysInRange(RainFall(y, visibles[0]), visibles[1..]);
    }
  }

  /** The digital-rain loop: every glyph's height `ys[k]` takes one fall step. */
  method RainStep(ys: array<real>, visible: real)
    modifies ys
    ensures forall k :: 0 <= k < ys.Length ==> ys[k] == RainFall(old(ys[k]), visible)
    ensures forall k :: 0 <= k < ys.Length && InRainRange(old(ys[k])) ==> InRainRange(ys[k])
  {
    var k := 0;
    while k < ys.Length
      invariant 0 <= k <= ys.Length
      invariant forall j :: 0 <= j < k ==> ys[j] == RainFall(old(ys[j]), visible)
      invariant forall j :: k <= j < ys.Length ==> ys[j] == old(ys[j])
    {
      ys[k] := ys[k] - 0.05 * Max(0.25, visible);
      if ys[k] < RainBottom {
        ys[k] := RainTop;
      }
      k := k + 1;
    }
  }
}
