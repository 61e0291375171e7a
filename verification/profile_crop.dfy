/**
 * The profile-image processor of the page's mount effect: a centred square
 * crop of the loaded image, drawn into a fixed 512x512 canvas and encoded,
 * with a silent fallback to the unprocessed image path.
 */
module ProfileCrop {
  import opened Common

  /** Width and height of the output canvas. */
  const CanvasSize: nat := 512

  /** The image path shown whenever no processed image exists. */
  const ProfileFallback: string := "/profile.jpg"

  /** An axis-aligned rectangle in pixels. */
  datatype Rect = Rect(x: int, y: int, width: int, height: int)

  /** The arguments of `ctx.drawImage(img, sx, sy, sw, sh, dx, dy, dw, dh)`. */
  datatype DrawCall = DrawCall(source: Rect, dest: Rect)

  /** What one run of the `onload` handler leaves behind. */
  datatype LoadResult = LoadResult(draw: Option<DrawCall>, dataUrl: Option<string>)

  /** True when `r` lies wholly inside a `w` by `h` image. */
  predicate Inside(r: Rect, w: nat, h: nat) {
    0 <= r.x && 0 <= r.y && 0 <= r.width && 0 <= r.height &&
    r.x + r.width <= w && r.y + r.height <= h
  }

  /**
   * The crop of a `w` by `h` image: a square whose side is the shorter
   * dimension, centred along the longer one (rounded down when the spare
   * pixels are odd).
   */
  function CenteredSquare(w: nat, h: nat): (r: Rect)
    // the side is the smaller of the two dimensions (`Math.min(w, h)`)
    ensures r.width == r.height && r.width <= w && r.width <= h && (r.width == w || r.width == h)
    ensures Inside(r, w, h)
    ensures r.x == 0 || r.y == 0
    // the margins left and right (top and bottom) differ by at most one pixel
    ensures 0 <= (w - r.x - r.width) - r.x <= 1
    ensures 0 <= (h - r.y - r.height) - r.y <= 1
  {
    var side := if w <= h then w else h;
    Rect((w - side) / 2, (h - side) / 2, side, side)
  }

  /** The whole output canvas. */
  function CanvasRect(): (r: Rect)
    ensures r.x == 0 && r.y == 0 && r.width == r.height == 512
  {
    Rect(0, 0, CanvasSize, CanvasSize)
  }

  /**
   * One run of the `onload` handler for a `w` by `h` image. `cancelled` is
   * the unmount flag, `hasContext` whether `getContext("2d")` returned a
   * context, and `encoded` the result of `toDataURL` (None when it throws).
   */
  function OnLoad(w: nat, h: nat, cancelled: bool, hasContext: bool, encoded: Option<string>): (r: LoadResult)
    ensures r.draw.Some? <==> !cancelled && hasContext
    ensures r.draw.Some? ==> r.draw.value == DrawCall(CenteredSquare(w, h), CanvasRect())
    ensures r.dataUrl.Some? <==> !cancelled && hasContext && encoded.Some?
    ensures r.dataUrl.Some? ==> r.dataUrl == encoded
  {
    if cancelled || !hasContext then LoadResult(None, None)
    else LoadResult(Some(DrawCall(CenteredSquare(w, h), CanvasRect())), encoded)
  }

  /** The `src` of the profile `<img>`: `processedProfile ?? "/profile.jpg"`. */
  function DisplayedSource(processed: Option<string>): (src: string)
    ensures processed.None? ==> src == ProfileFallback
    ensures processed.Some? ==> src == processed.value
  {
    processed.GetOr(ProfileFallback)
  }

  /** A square image is drawn whole: the crop starts at the origin. */
  lemma SquareIsNotCropped(n: nat)
    ensures CenteredSquare(n, n) == Rect(0, 0, n, n)
  {
  }

  /** A landscape image is cropped horizontally only. */
  lemma LandscapeCrop(w: nat, h: nat)
    requires w > h
    ensures CenteredSquare(w, h) == Rect((w - h) / 2, 0, h, h)
  {
  }

  /** A portrait image is cropped vertically only. */
  lemma PortraitCrop(w: nat, h: nat)
    requires w < h
    ensures CenteredSquare(w, h) == Rect(0, (h - w) / 2, w, w)
  {
  }

  /**
   * Whatever the input size, a successful draw copies the whole crop into the
   * whole 512x512 canvas, so the output is square and fixed-size.
   */
  lemma DrawFillsCanvas(w: nat, h: nat, encoded: Option<string>)
    ensures var r := OnLoad(w, h, false, true, encoded);
      r.draw.Some? && r.draw.value.dest == Rect(0, 0, 512, 512) &&
      r.draw.value.source.width == r.draw.value.source.height &&
      Inside(r.draw.value.source, w, h)
  {
  }
}
