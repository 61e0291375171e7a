/**
 * The scroll- and time-driven scalars of the scene's frame callback: the hero
 * visibility fraction, the lerp easing, the startup progress and its cubic
 * ease-out, and the scale and fade values derived from them.
 */
module Visibility {
  import opened Common

  /** Easing factor of `modelsVisibleAnim`. */
  const ModelsFactor: real := 0.05
  /** Easing factor of `scrollAnim`. */
  const TextFactor: real := 0.06
  /** Seconds the startup animation takes. */
  const StartupSeconds: real := 1.2

  /** `Math.max(0, Math.min(1, 1 - y / innerHeight))`. */
  function HeroFrac(y: real, innerHeight: real): (f: real)
    requires innerHeight > 0.0
    ensures InUnit(f)
    ensures y <= 0.0 ==> f == 1.0
    ensures y >= innerHeight ==> f == 0.0
    ensures 0.0 <= y <= innerHeight ==> f == 1.0 - y / innerHeight
  {
    var q := y / innerHeight;
    assert q * innerHeight == y;
    assert y <= 0.0 ==> q <= 0.0;
    assert y >= innerHeight ==> q >= 1.0;
    Max(0.0, Min(1.0, 1.0 - q))
  }

  /** Scrolling further down never raises the hero fraction. */
  lemma HeroFracAntitone(y1: real, y2: real, innerHeight: real)
    requires innerHeight > 0.0 && y1 <= y2
    ensures HeroFrac(y2, innerHeight) <= HeroFrac(y1, innerHeight)
  {
    assert y1 / innerHeight <= y2 / innerHeight by {
      assert y2 / innerHeight - y1 / innerHeight == (y2 - y1) / innerHeight;
    }
  }

  /** `THREE.MathUtils.lerp(x, y, t)`. */
  function Lerp(x: real, y: real, t: real): (r: real)
    // the remaining distance to the target shrinks by the factor 1 - t
    ensures y - r == (1.0 - t) * (y - x)
  {
    (1.0 - t) * x + t * y
  }

  /** With a factor in [0, 1], one easing step lands between the current value and the target. */
  lemma LerpBetween(x: real, y: real, t: real)
    requires 0.0 <= t <= 1.0
    ensures Min(x, y) <= Lerp(x, y, t) <= Max(x, y)
  {
    if x <= y {
      MulUnitBound(1.0 - t, y - x);
    } else {
      MulUnitBound(1.0 - t, x - y);
    }
  }

  /** `n` frames of easing `x` towards a fixed `target`. */
  function LerpSteps(x: real, target: real, t: real, n: nat): real
    decreases n
  {
    if n == 0 then x else LerpSteps(Lerp(x, target, t), target, t, n - 1)
  }

  /** `b` to the power `n`. */
  function Pow(b: real, n: nat): real
  {
    if n == 0 then 1.0 else b * Pow(b, n - 1)
  }

  /** Eased values never leave the unit interval, however many frames pass. */
  lemma {:induction false} LerpStepsStayInUnit(x: real, target: real, t: real, n: nat)
    requires InUnit(x) && InUnit(target) && 0.0 <= t <= 1.0
    ensures InUnit(LerpSteps(x, target, t, n))
    decreases n
  {
    if n > 0 {
      LerpBetween(x, target, t);
      LerpStepsStayInUnit(Lerp(x, target, t), target, t, n - 1);
    }
  }

  /** After `n` frames the distance to the target is `(1 - t)^n` times the initial one. */
  lemma {:induction false} LerpStepsDistance(x: real, target: real, t: real, n: nat)
    ensures target - LerpSteps(x, target, t, n) == Pow(1.0 - t, n) * (target - x)
    decreases n
  {
    if n > 0 {
      var x' := Lerp(x, target, t);
      LerpStepsDistance(x', target, t, n - 1);
      ScaleTwice(target - LerpSteps(x', target, t, n - 1), Pow(1.0 - t, n - 1), 1.0 - t,
                 target - x, target - x', Pow(1.0 - t, n));
    }
  }

  /** Arithmetic step: scaling by `b` and then by `a` is scaling by `b * a`. */
  lemma ScaleTwice(lhs: real, a: real, b: real, d: real, e: real, ba: real)
    requires lhs == a * e && e == b * d && ba == b * a
    ensures lhs == ba * d
  {
  }

  /** Arithmetic step: a fraction of a non-negative value lies between 0 and that value. */
  lemma MulUnitBound(a: real, b: real)
    requires InUnit(a) && b >= 0.0
    ensures 0.0 <= a * b <= b
  {
    assert a * b <= 1.0 * b;
  }

  /** Arithmetic step: multiplying by a non-negative value keeps the order. */
  lemma MulMono(a1: real, a2: real, c: real)
    requires a1 <= a2 && c >= 0.0
    ensures a1 * c <= a2 * c
  {
  }

  /** `Math.min(1, (time - start) / 1.2)`. */
  function Progress(start: real, time: real): (p: real)
    ensures time >= start ==> InUnit(p)
    ensures time - start >= StartupSeconds ==> p == 1.0
    ensures p <= 1.0
  {
    Min(1.0, (time - start) / StartupSeconds)
  }

  /** Progress never goes back while time moves forward. */
  lemma ProgressMonotone(start: real, t1: real, t2: real)
    requires t1 <= t2
    ensures Progress(start, t1) <= Progress(start, t2)
  {
  }

  /** `1 - Math.pow(1 - p, 3)`: cubic ease-out. */
  function Eased(p: real): (e: real)
    ensures InUnit(p) ==> InUnit(e)
  {
    var q := 1.0 - p;
    assert InUnit(p) ==> 0.0 <= q * q * q <= 1.0 by {
      if InUnit(p) {
        MulUnitBound(q, q);
        MulUnitBound(q, q * q);
        assert q * (q * q) == q * q * q;
      }
    }
    1.0 - q * q * q
  }

  /** The ease-out starts at 0, ends at 1 and never goes back. */
  lemma {:induction false} EasedMonotone(p1: real, p2: real)
    requires 0.0 <= p1 <= p2 <= 1.0
    ensures Eased(0.0) == 0.0 && Eased(1.0) == 1.0
    ensures Eased(p1) <= Eased(p2)
  {
    var q1, q2 := 1.0 - p1, 1.0 - p2;
    assert 0.0 <= q2 <= q1;
    MulMono(q2, q1, q2);
    MulMono(q2, q1, q1);
    assert q2 * q2 <= q1 * q1;
    MulMono(q2 * q2, q1 * q1, q2);
    MulMono(q2, q1, q1 * q1);
    assert q1 * (q1 * q1) == q1 * q1 * q1 && q2 * (q1 * q1) == (q1 * q1) * q2;
    assert q2 * q2 * q2 <= q1 * q1 * q1;
  }

  /**
   * `scaleVal = 0.6 + 0.4 * eased`: a factor that grows from 0.6 to 1 while
   * the name eases in. It is only one factor of the name's scale (`TextScale`).
   */
  function ScaleVal(eased: real): (s: real)
    ensures InUnit(eased) ==> 0.6 <= s <= 1.0
    ensures eased == 0.0 ==> s == 0.6
    ensures eased == 1.0 ==> s == 1.0
  {
    0.6 + 0.4 * eased
  }

  /**
   * The scale actually applied to the name: `scaleVal * (eased * scrollAnim)`.
   * It is 0 at startup, whatever the scroll state, and 1 once eased in and
   * fully scrolled into view.
   */
  function TextScale(eased: real, scrollAnim: real): (r: real)
    ensures InUnit(eased) && InUnit(scrollAnim) ==> InUnit(r)
    ensures eased == 0.0 || scrollAnim == 0.0 ==> r == 0.0
    ensures eased == 1.0 && scrollAnim == 1.0 ==> r == 1.0
  {
    var sv, combined := ScaleVal(eased), eased * scrollAnim;
    assert InUnit(eased) && InUnit(scrollAnim) ==> InUnit(sv * combined) by {
      if InUnit(eased) && InUnit(scrollAnim) {
        MulUnitBound(eased, scrollAnim);
        MulUnitBound(combined, sv);
        assert combined * sv == sv * combined;
      }
    }
    assert eased == 0.0 || scrollAnim == 0.0 ==> sv * combined == 0.0 by {
      if eased == 0.0 || scrollAnim == 0.0 {
        assert combined == 0.0;
      }
    }
    assert eased == 1.0 && scrollAnim == 1.0 ==> sv * combined == 1.0 by {
      if eased == 1.0 && scrollAnim == 1.0 {
        assert sv == 1.0 && combined == 1.0;
      }
    }
    sv * combined
  }

  /** A model's scale: its base scale times `progress * modelsVisibleAnim`. */
  function ModelScale(base: real, progress: real, visible: real): (s: real)
    requires base >= 0.0
    ensures InUnit(progress) && InUnit(visible) ==> 0.0 <= s <= base
    ensures progress == 1.0 && visible == 1.0 ==> s == base
    // a model is invisible at startup and while the hero is scrolled away
    ensures progress == 0.0 || visible == 0.0 ==> s == 0.0
  {
    var combined := progress * visible;
    assert InUnit(progress) && InUnit(visible) ==> 0.0 <= base * combined <= base by {
      if InUnit(progress) && InUnit(visible) {
        MulUnitBound(progress, visible);
        MulUnitBound(combined, base);
        assert combined * base == base * combined;
      }
    }
    base * combined
  }

  /** The arguments `(p, restore)` of one `applyFade` call. */
  datatype FadeArgs = FadeArgs(p: real, restore: bool)

  /** The name's fade: restore once the startup is done and the hero is (almost) fully visible. */
  function TextFade(progress: real, scrollAnim: real): (a: FadeArgs)
    ensures a.p == progress * scrollAnim
    ensures progress == 0.0 || scrollAnim == 0.0 ==> a.p == 0.0
    ensures InUnit(progress) && InUnit(scrollAnim) ==> InUnit(a.p)
    ensures a.restore ==> a.p > 0.99
    ensures a.restore <==> progress >= 1.0 && scrollAnim > 0.99
  {
    assert InUnit(progress) && InUnit(scrollAnim) ==> InUnit(progress * scrollAnim) by {
      if InUnit(progress) && InUnit(scrollAnim) {
        MulUnitBound(progress, scrollAnim);
      }
    }
    assert progress >= 1.0 && scrollAnim > 0.99 ==> progress * scrollAnim > 0.99 by {
      if progress >= 1.0 && scrollAnim > 0.99 {
        MulMono(1.0, progress, scrollAnim);
      }
    }
    FadeArgs(progress * scrollAnim, progress >= 1.0 && scrollAnim > 0.99)
  }

  /** A model group's fade: restore once the combined factor is within 1e-3 of 1. */
  function GroupFade(combined: real): (a: FadeArgs)
    ensures a.p == combined
    ensures a.restore <==> combined >= 0.999
    // a restore is only requested with the group (almost) fully opaque
    ensures InUnit(combined) && a.restore ==> 0.999 <= a.p <= 1.0
    ensures InUnit(combined) ==> InUnit(a.p)
  {
    FadeArgs(combined, combined >= 1.0 - 0.001)
  }

  /** The name's vertical position: it rises 0.8 while easing in and drops 1.2 when scrolled away. */
  function TextY(eased: real, scrollAnim: real): (y: real)
    ensures InUnit(eased) && InUnit(scrollAnim) ==> -1.6 <= y <= 0.4
    ensures eased == 1.0 && scrollAnim == 1.0 ==> y == 0.4
    // 0.8 lower before easing in, 1.2 lower when scrolled away
    ensures eased == 0.0 && scrollAnim == 1.0 ==> y == -0.4
    ensures eased == 1.0 && scrollAnim == 0.0 ==> y == -0.8
  {
    0.4 - (1.0 - eased) * 0.8 - (1.0 - scrollAnim) * 1.2
  }
}
