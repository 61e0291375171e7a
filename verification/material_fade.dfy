/**
 * `applyFade`: fading the materials of a scene object while keeping their
 * original `transparent`, `opacity` and `depthWrite` settings in a per-material
 * cache (`__orig`), and putting those settings back when the fade is over.
 */
module MaterialFade {
  import opened Common

  /** The cached original settings of one material. */
  datatype OrigProps = OrigProps(transparent: bool, opacity: real, depthWrite: bool)

  /** The fields of one material that `applyFade` reads and writes. */
  datatype MatState = MatState(transparent: bool, opacity: real, depthWrite: bool, orig: Option<OrigProps>)

  /** The settings currently on the material, as a cache entry would record them. */
  function Current(s: MatState): OrigProps {
    OrigProps(s.transparent, s.opacity, s.depthWrite)
  }

  /** The settings the material would be restored to: the cache, or else its current ones. */
  function Originals(s: MatState): OrigProps {
    if s.orig.Some? then s.orig.value else Current(s)
  }

  /**
   * One material visited by `applyFade(obj, p, restore)`: cache the settings on
   * first touch, apply the temporary fade values, and when `restore` is set put
   * the cached settings back and drop the cache.
   */
  function Fade(s: MatState, p: real, restore: bool): (r: MatState)
    // an existing cache is never overwritten; a missing one records the current settings
    ensures !restore ==> r.orig == Some(Originals(s))
    ensures !restore ==> r.transparent && r.opacity == p && !r.depthWrite
    // restoring leaves exactly the original settings and no cache
    ensures restore ==> r.orig.None? && Current(r) == Originals(s)
  {
    var orig := Originals(s);
    var faded := MatState(true, p, false, Some(orig));
    if restore then MatState(orig.transparent, orig.opacity, orig.depthWrite, None) else faded
  }

  /** Visiting the same material twice with the same arguments is the same as visiting it once. */
  lemma FadeIdempotent(s: MatState, p: real, restore: bool)
    ensures Fade(Fade(s, p, restore), p, restore) == Fade(s, p, restore)
  {
  }

  /** Restoring a material that holds no cache leaves it unchanged. */
  lemma RestoreWithoutCacheIsIdentity(s: MatState, p: real)
    requires s.orig.None?
    ensures Fade(s, p, true) == s
  {
  }

  /** A run of frames that fade with the opacities `ps`, in order. */
  function FadeFrames(s: MatState, ps: seq<real>): MatState
    decreases |ps|
  {
    if ps == [] then s else FadeFrames(Fade(s, ps[0], false), ps[1..])
  }

  /**
   * Fading a material for any number of frames with any opacities and then
   * restoring returns it to exactly the state it had before the first fade.
   */
  lemma {:induction false} FadeThenRestore(s: MatState, ps: seq<real>, p: real)
    requires s.orig.None?
    ensures Fade(FadeFrames(s, ps), p, true) == s
  {
    FadeFramesKeepsCache(s, ps);
  }

  /** While fading, the cache keeps recording the settings from before the first fade. */
  lemma {:induction false} FadeFramesKeepsCache(s: MatState, ps: seq<real>)
    ensures Originals(FadeFrames(s, ps)) == Originals(s)
    decreases |ps|
  {
    if ps != [] {
      FadeFramesKeepsCache(Fade(s, ps[0], false), ps[1..]);
    }
  }

  /** A material of a mesh reached by `obj.traverse`. */
  class Material {
    var transparent: bool
    var opacity: real
    var depthWrite: bool
    var orig: Option<OrigProps>

    constructor (transparent: bool, opacity: real, depthWrite: bool)
      ensures State() == MatState(transparent, opacity, depthWrite, None)
    {
      this.transparent := transparent;
      this.opacity := opacity;
      this.depthWrite := depthWrite;
      this.orig := None;
    }

    function State(): MatState
      reads this
    {
      MatState(transparent, opacity, depthWrite, orig)
    }

    /** The body of the `mats.forEach` callback for one material. */
    method ApplyFade(p: real, restore: bool)
      modifies this
      ensures State() == Fade(old(State()), p, restore)
    {
      if orig.None? {
        orig := Some(OrigProps(transparent, opacity, depthWrite));
      }
      transparent := true;
      opacity := p;
      depthWrite := false;
      if restore {
        transparent := orig.value.transparent;
        opacity := orig.value.opacity;
        depthWrite := orig.value.depthWrite;
        orig := None;
      }
    }
  }

  /** The materials among `mats` that exist (`if (!m) return;` skips the others). */
  function Present(mats: seq<Material?>): set<Material> {
    set m: Material | m in mats
  }

  /**
   * `applyFade(obj, p, restore)` over the materials `mats` found by traversing
   * `obj`, in traversal order. A material shared by several meshes appears
   * several times; because `Fade` is idempotent it ends as if visited once.
   */
  method ApplyFade(mats: seq<Material?>, p: real, restore: bool)
    modifies Present(mats)
    ensures forall m :: m in Present(mats) ==> m.State() == Fade(old(m.State()), p, restore)
  {
    var i := 0;
    while i < |mats|
      invariant 0 <= i <= |mats|
      invariant forall m :: m in Present(mats[..i]) ==> m.State() == Fade(old(m.State()), p, restore)
      invariant forall m :: m in Present(mats) && m !in Present(mats[..i]) ==> m.State() == old(m.State())
    {
      var m := mats[i];
      if m != null {
        assert m in Present(mats);
        if m in Present(mats[..i]) {
          FadeIdempotent(old(m.State()), p, restore);
        }
        m.ApplyFade(p, restore);
      }
      assert mats[..i + 1] == mats[..i] + [mats[i]];
      assert Present(mats[..i + 1]) == Present(mats[..i]) + (if m != null then {m} else {});
      i := i + 1;
    }
    assert mats[..i] == mats;
  }
}
