/**
 * The discrete pixel and coordinate logic of perception.py: colour
 * classification of a warped camera image, the collision window in front of
 * the rover, raster-to-rover coordinates, the rover-to-world index mapping,
 * the choice and filtering of the wall contour, and the world-map update.
 * OpenCV and the trigonometric conversions are parameters of the callers.
 */
module Perception {
  import opened Wrappers
  import opened Numerics

  // ---------------------------------------------------------------------
  // Images and masks

  /** A colour channel of an 8-bit image. */
  type Byte = x: int | 0 <= x < 256

  datatype Pixel = Pixel(r: Byte, g: Byte, b: Byte)

  /** A per-channel triple: a threshold or a tolerance. */
  datatype Rgb = Rgb(r: int, g: int, b: int)

  /** Rows of pixels, indexed `img[row][col]`. */
  type Image = seq<seq<Pixel>>

  /** A single-channel array with the image's row-by-column shape. */
  type Mask = seq<seq<int>>

  /** A raster position: `x` is the column, `y` the row, as in an OpenCV contour. */
  datatype Point = Point(x: int, y: int)

  /** Thresholds and the tolerance used by `perception_step`. */
  const NavThreshold: Rgb := Rgb(190, 180, 160)
  const TgtThreshold: Rgb := Rgb(185, 140, 15)
  const ObsThreshold: Rgb := Rgb(100, 100, 100)
  /** The default threshold of `color_thresh`, used for the mapping mask. */
  const MapThreshold: Rgb := Rgb(160, 160, 160)
  /** The default tolerance of `color_thresh`. */
  const DefaultTolerance: Rgb := Rgb(40, 40, 40)

  /** Two row-by-column arrays of the same shape. */
  predicate SameShape<A, B>(a: seq<seq<A>>, b: seq<seq<B>>)
  {
    |a| == |b| && forall r :: 0 <= r < |a| ==> |a[r]| == |b[r]|
  }

  /** Every entry is 0 or 1. */
  predicate Binary(m: Mask)
  {
    forall r, c :: 0 <= r < |m| && 0 <= c < |m[r]| ==> m[r][c] == 0 || m[r][c] == 1
  }

  // ---------------------------------------------------------------------
  // `color_thresh`

  /** Every channel strictly above its threshold. */
  predicate Above(p: Pixel, t: Rgb)
  {
    p.r > t.r && p.g > t.g && p.b > t.b
  }

  /** Every channel strictly within its tolerance of the reference colour. */
  predicate Near(p: Pixel, t: Rgb, tol: Rgb)
  {
    Abs((p.r - t.r) as real) < tol.r as real
    && Abs((p.g - t.g) as real) < tol.g as real
    && Abs((p.b - t.b) as real) < tol.b as real
  }

  /** Whether `color_thresh` selects a pixel in the given mode. */
  predicate Selected(p: Pixel, t: Rgb, tgt: bool, tol: Rgb)
  {
    if tgt then Near(p, t, tol) else Above(p, t)
  }

  /**
   * `color_thresh(img, rgb_thresh, tgt, tol)`: a fresh zero mask of the
   * image's shape with 1 written at every selected pixel.
   */
  function ColorThresh(img: Image, t: Rgb, tgt: bool, tol: Rgb): (m: Mask)
    ensures SameShape(m, img)
    ensures Binary(m)
    ensures forall r, c :: 0 <= r < |m| && 0 <= c < |m[r]| ==>
              (m[r][c] == 1 <==> Selected(img[r][c], t, tgt, tol))
  {
    seq(|img|, r requires 0 <= r < |img| =>
      seq(|img[r]|, c requires 0 <= c < |img[r]| =>
        if Selected(img[r][c], t, tgt, tol) then 1 else 0))
  }

  /** Raising thresholds can only shrink the terrain selection. */
  lemma ColorThreshMonotone(img: Image, t: Rgb, t': Rgb, tol: Rgb, r: int, c: int)
    requires t.r <= t'.r && t.g <= t'.g && t.b <= t'.b
    requires 0 <= r < |img| && 0 <= c < |img[r]|
    ensures ColorThresh(img, t', false, tol)[r][c] == 1 ==> ColorThresh(img, t, false, tol)[r][c] == 1
  {
  }

  /** In target mode a channel is accepted on an open band centred on the reference value. */
  lemma NearIsSymmetricBand(p: Pixel, t: Rgb, tol: Rgb)
    ensures Near(p, t, tol) <==>
              (t.r - tol.r < p.r < t.r + tol.r
               && t.g - tol.g < p.g < t.g + tol.g
               && t.b - tol.b < p.b < t.b + tol.b)
  {
  }

  // ---------------------------------------------------------------------
  // The 2-of-3 selection of `get_contours`

  /** How many channels are strictly above their thresholds. */
  function AboveCount(p: Pixel, t: Rgb): (n: int)
    ensures 0 <= n <= 3
    ensures n == 3 <==> Above(p, t)
  {
    (if p.r > t.r then 1 else 0) + (if p.g > t.g then 1 else 0) + (if p.b > t.b then 1 else 0)
  }

  /** `color_select` of `get_contours`: 1 where at least two of the three channels pass. */
  function ContourSelect(img: Image, t: Rgb): (m: Mask)
    ensures SameShape(m, img)
    ensures Binary(m)
    ensures forall r, c :: 0 <= r < |m| && 0 <= c < |m[r]| ==>
              (m[r][c] == 1 <==>
                 var p := img[r][c];
                 (p.r > t.r && p.g > t.g) || (p.r > t.r && p.b > t.b) || (p.g > t.g && p.b > t.b))
  {
    seq(|img|, r requires 0 <= r < |img| =>
      seq(|img[r]|, c requires 0 <= c < |img[r]| =>
        if AboveCount(img[r][c], t) > 1 then 1 else 0))
  }

  /** The 2-of-3 rule selects everything the all-three rule does at the same thresholds. */
  lemma ContourSelectCoversColorThresh(img: Image, t: Rgb, tol: Rgb, r: int, c: int)
    requires 0 <= r < |img| && 0 <= c < |img[r]|
    ensures ColorThresh(img, t, false, tol)[r][c] == 1 ==> ContourSelect(img, t)[r][c] == 1
  {
  }

  // ---------------------------------------------------------------------
  // Target mode on 8-bit images, as written

  /**
   * The target test as NumPy evaluates it on an 8-bit image: the
   * subtraction wraps modulo 256, so `abs` sees a non-negative value.
   */
  predicate WrappedNear(p: Pixel, t: Rgb, tol: Rgb)
  {
    (p.r - t.r) % 256 < tol.r && (p.g - t.g) % 256 < tol.g && (p.b - t.b) % 256 < tol.b
  }

  /** `color_thresh(img, t, tgt=True, tol)` on an 8-bit image. */
  function ColorThreshWrapped(img: Image, t: Rgb, tol: Rgb): (m: Mask)
    ensures SameShape(m, img)
    ensures Binary(m)
    ensures forall r, c :: 0 <= r < |m| && 0 <= c < |m[r]| ==>
              (m[r][c] == 1 <==> WrappedNear(img[r][c], t, tol))
  {
    seq(|img|, r requires 0 <= r < |img| =>
      seq(|img[r]|, c requires 0 <= c < |img[r]| =>
        if WrappedNear(img[r][c], t, tol) then 1 else 0))
  }

  /** NumPy's 8-bit wrap of a difference of two channel values. */
  lemma WrapOfDifference(d: int)
    requires -256 <= d < 256
    ensures d % 256 == if d < 0 then d + 256 else d
  {
    if d < 0 {
      assert d == 256 * (-1) + (d + 256);
    }
  }

  /** With wrap-around a channel is accepted only on the half-band at or above the reference value. */
  lemma WrappedBandIsOneSided(p: Pixel, t: Rgb, tol: Rgb)
    requires 0 <= t.r < 256 && 0 <= t.g < 256 && 0 <= t.b < 256
    requires t.r + tol.r <= 256 && t.g + tol.g <= 256 && t.b + tol.b <= 256
    ensures WrappedNear(p, t, tol) <==>
              (t.r <= p.r < t.r + tol.r && t.g <= p.g < t.g + tol.g && t.b <= p.b < t.b + tol.b)
  {
    WrapOfDifference(p.r - t.r);
    WrapOfDifference(p.g - t.g);
    WrapOfDifference(p.b - t.b);
  }

  /** A gold rock slightly darker in red than the reference is lost to the wrap-around. */
  lemma WrappedTargetMissesDarkerGold()
    ensures var img := [[Pixel(180, 144, 19)]];
            ColorThresh(img, TgtThreshold, true, DefaultTolerance)[0][0] == 1
            && ColorThreshWrapped(img, TgtThreshold, DefaultTolerance)[0][0] == 0
  {
    var p := Pixel(180, 144, 19);
    assert Near(p, TgtThreshold, DefaultTolerance);
    assert (180 - 185) % 256 == 251;
    assert !WrappedNear(p, TgtThreshold, DefaultTolerance);
  }

  // ---------------------------------------------------------------------
  // The collision window

  /** A slice bound as Python clamps it to the sequence length. */
  function Clamp(k: nat, n: nat): (r: nat)
    ensures r <= k && r <= n
    ensures r == k || r == n
  {
    if k < n then k else n
  }

  /** `s[lo:hi]` with Python's clamping of out-of-range bounds. */
  function Slice<T>(s: seq<T>, lo: nat, hi: nat): (r: seq<T>)
    requires lo <= hi
    ensures |r| == Clamp(hi, |s|) - Clamp(lo, |s|)
    ensures forall k :: 0 <= k < |r| ==> lo + k < |s| && r[k] == s[lo + k]
  {
    s[Clamp(lo, |s|)..Clamp(hi, |s|)]
  }

  /** `img[top:bottom, left:right]`. */
  function Crop(img: Image, top: nat, bottom: nat, left: nat, right: nat): (w: Image)
    requires top <= bottom && left <= right
    ensures |w| == Clamp(bottom, |img|) - Clamp(top, |img|)
    ensures forall r :: 0 <= r < |w| ==> top + r < |img| && w[r] == Slice(img[top + r], left, right)
  {
    var rows := Slice(img, top, bottom);
    seq(|rows|, r requires 0 <= r < |rows| => Slice(rows[r], left, right))
  }

  /** `cv2.bitwise_not` on an 8-bit image. */
  function Invert(img: Image): (n: Image)
    ensures SameShape(n, img)
    ensures forall r, c :: 0 <= r < |n| && 0 <= c < |n[r]| ==>
              var p := img[r][c];
              n[r][c] == Pixel(255 - p.r, 255 - p.g, 255 - p.b)
  {
    seq(|img|, r requires 0 <= r < |img| =>
      seq(|img[r]|, c requires 0 <= c < |img[r]| =>
        var p := img[r][c];
        Pixel(255 - p.r, 255 - p.g, 255 - p.b)))
  }

  /** The window in front of the rover: rows 130 to 149, columns 150 to 169. */
  const WindowTop: nat := 130
  const WindowBottom: nat := 150
  const WindowLeft: nat := 150
  const WindowRight: nat := 170

  /** Every channel below 155: what survives inversion and the obstacle threshold. */
  predicate Dark(p: Pixel)
  {
    p.r < 155 && p.g < 155 && p.b < 155
  }

  /**
   * `coll_roi` of `perception_step`: the window, inverted, thresholded at
   * the obstacle threshold. A window pixel is set exactly when it is dark.
   */
  function CollisionMask(warped: Image): (m: Mask)
    ensures |m| == Clamp(WindowBottom, |warped|) - Clamp(WindowTop, |warped|)
    ensures Binary(m)
    ensures forall r, c :: 0 <= r < |m| && 0 <= c < |m[r]| ==>
              WindowTop + r < |warped| && WindowLeft + c < |warped[WindowTop + r]|
              && (m[r][c] == 1 <==> Dark(warped[WindowTop + r][WindowLeft + c]))
    ensures |warped| >= WindowBottom && (forall r :: 0 <= r < |warped| ==> |warped[r]| >= WindowRight) ==>
              |m| == 20 && forall r :: 0 <= r < |m| ==> |m[r]| == 20
  {
    var w := Crop(warped, WindowTop, WindowBottom, WindowLeft, WindowRight);
    var m := ColorThresh(Invert(w), ObsThreshold, false, DefaultTolerance);
    assert forall r :: 0 <= r < |w| ==> |w[r]| == Clamp(WindowRight, |warped[WindowTop + r]|) - Clamp(WindowLeft, |warped[WindowTop + r]|);
    m
  }

  // ---------------------------------------------------------------------
  // `nonzero` and `rover_coords_`

  /** NumPy's row-major order of `nonzero` positions. */
  predicate RowMajorBefore(p: Point, q: Point)
  {
    p.y < q.y || (p.y == q.y && p.x < q.x)
  }

  /** The nonzero positions of one row, left to right. */
  function RowHits(row: seq<int>, y: int): (ps: seq<Point>)
    ensures forall p :: p in ps <==> p.y == y && 0 <= p.x < |row| && row[p.x] != 0
    ensures forall k :: 0 <= k < |ps| ==> ps[k].y == y
    ensures forall a, b :: 0 <= a < b < |ps| ==> ps[a].x < ps[b].x
    ensures forall k :: 0 <= k < |ps| ==> 0 <= ps[k].x < |row|
  {
    if |row| == 0 then []
    else
      var n := |row| - 1;
      var front := RowHits(row[..n], y);
      assert forall p :: p in front && p.x < n ==> row[..n][p.x] == row[p.x];
      front + (if row[n] != 0 then [Point(n, y)] else [])
  }

  /** `binary_img.nonzero()`: every nonzero position, in row-major order. */
  function NonZero(m: Mask): (ps: seq<Point>)
    ensures forall p :: p in ps <==> 0 <= p.y < |m| && 0 <= p.x < |m[p.y]| && m[p.y][p.x] != 0
    ensures forall k :: 0 <= k < |ps| ==> 0 <= ps[k].y < |m|
    ensures forall a, b :: 0 <= a < b < |ps| ==> RowMajorBefore(ps[a], ps[b])
  {
    if |m| == 0 then []
    else
      var n := |m| - 1;
      var front := NonZero(m[..n]);
      var back := RowHits(m[n], n);
      assert forall a, b :: 0 <= a < |front| && 0 <= b < |back| ==> front[a].y < back[b].y;
      front + back
  }

  /** A position in rover coordinates: `x` ahead, `y` to the left. */
  datatype RoverPixel = RoverPixel(x: real, y: real)

  /** The number of columns of a mask, as its first row gives it. */
  function Width<T>(m: seq<seq<T>>): nat
  {
    if |m| == 0 then 0 else |m[0]|
  }

  /**
   * `rover_coords_` for one position of an `h` by `w` image: the rover sits
   * at the bottom centre, shifted right by `offset` columns.
   */
  function ToRover(p: Point, h: int, w: int, offset: int): (q: RoverPixel)
    ensures 0 <= p.y < h ==> 1.0 <= q.x <= h as real
    ensures offset == 0 && (p.x as real) < (w as real) / 2.0 ==> q.y > 0.0
    ensures (p.x as real) + (offset as real) > (w as real) / 2.0 ==> q.y < 0.0
  {
    RoverPixel(-((p.y - h) as real), -((p.x as real) - (w as real) / 2.0 + (offset as real)))
  }

  /** The raster position a rover-coordinate point came from. */
  function FromRover(q: RoverPixel, h: int, w: int, offset: int): Point
  {
    Point(((w as real) / 2.0 - (offset as real) - q.y).Floor, h - q.x.Floor)
  }

  /** `rover_coords_` loses nothing: the raster position is recovered exactly. */
  lemma ToRoverRoundTrip(p: Point, h: int, w: int, offset: int)
    ensures FromRover(ToRover(p, h, w, offset), h, w, offset) == p
  {
    var q := ToRover(p, h, w, offset);
    assert q.x == (h - p.y) as real;
    assert (w as real) / 2.0 - (offset as real) - q.y == p.x as real;
  }

  /** `rover_coords_(xpos, ypos, binary_img, offset)` over a list of positions. */
  function RoverCoordsOf(ps: seq<Point>, h: int, w: int, offset: int): (qs: seq<RoverPixel>)
    ensures |qs| == |ps|
    ensures forall k :: 0 <= k < |ps| ==> qs[k] == ToRover(ps[k], h, w, offset)
  {
    seq(|ps|, k requires 0 <= k < |ps| => ToRover(ps[k], h, w, offset))
  }

  /** `rover_coords(binary_img)`: the nonzero positions, relative to the mask's own shape. */
  function RoverCoords(m: Mask): (qs: seq<RoverPixel>)
    ensures |qs| == |NonZero(m)|
    ensures forall k :: 0 <= k < |qs| ==> 1.0 <= qs[k].x <= |m| as real
    ensures forall k :: 0 <= k < |qs| ==> qs[k] == ToRover(NonZero(m)[k], |m|, Width(m), 0)
  {
    RoverCoordsOf(NonZero(m), |m|, Width(m), 0)
  }

  /** A mask with nothing set gives no rover pixels. */
  lemma RoverCoordsOfBlankMask(m: Mask)
    requires forall r, c :: 0 <= r < |m| && 0 <= c < |m[r]| ==> m[r][c] == 0
    ensures RoverCoords(m) == []
  {
    NonZeroOfBlankMask(m);
  }

  lemma {:induction false} RowHitsOfBlankRow(row: seq<int>, y: int)
    requires forall c :: 0 <= c < |row| ==> row[c] == 0
    ensures RowHits(row, y) == []
  {
    if |row| > 0 {
      RowHitsOfBlankRow(row[..|row| - 1], y);
    }
  }

  lemma {:induction false} NonZeroOfBlankMask(m: Mask)
    requires forall r, c :: 0 <= r < |m| && 0 <= c < |m[r]| ==> m[r][c] == 0
    ensures NonZero(m) == []
  {
    if |m| > 0 {
      NonZeroOfBlankMask(m[..|m| - 1]);
      RowHitsOfBlankRow(m[|m| - 1], |m| - 1);
    }
  }

  /** Distinct set pixels give distinct rover pixels, so none is counted twice. */
  lemma RoverCoordsDistinct(m: Mask, a: int, b: int)
    requires 0 <= a < b < |RoverCoords(m)|
    ensures RoverCoords(m)[a] != RoverCoords(m)[b]
  {
    var ps := NonZero(m);
    ToRoverRoundTrip(ps[a], |m|, Width(m), 0);
    ToRoverRoundTrip(ps[b], |m|, Width(m), 0);
  }

  // ---------------------------------------------------------------------
  // `translate_pix` and `pix_to_world`

  /** A world-map cell: `x` indexes the second axis of the map, `y` the first. */
  datatype WorldPoint = WorldPoint(x: int, y: int)

  /** The map scale `perception_step` uses. */
  const MapScale: real := 100.0

  /** `translate_pix` on one coordinate: scale down, then move to the rover's position. */
  function Translate(v: real, pos: real, scale: real): (t: real)
    requires scale != 0.0
    ensures (t - pos) * scale == v
  {
    v / scale + pos
  }

  /** One coordinate of `pix_to_world` after rotation: truncate toward zero, then clip to the map. */
  function WorldIndex(v: real, pos: real, worldSize: int, scale: real): (i: int)
    requires scale != 0.0
    ensures worldSize >= 1 ==> 0 <= i <= worldSize - 1
    ensures worldSize >= 1 && Translate(v, pos, scale) < 0.0 ==> i == 0
    ensures worldSize >= 1 && Translate(v, pos, scale) >= worldSize as real ==> i == worldSize - 1
    ensures 0.0 <= Translate(v, pos, scale) < worldSize as real ==>
              i as real <= Translate(v, pos, scale) < i as real + 1.0
  {
    ClipInt(Trunc(Translate(v, pos, scale)), 0, worldSize - 1)
  }

  /** A farther point along an axis never lands on an earlier cell. */
  lemma WorldIndexMonotone(v: real, v': real, pos: real, worldSize: int, scale: real)
    requires scale > 0.0 && v <= v' && worldSize >= 1
    ensures WorldIndex(v, pos, worldSize, scale) <= WorldIndex(v', pos, worldSize, scale)
  {
    assert v / scale <= v' / scale;
    TruncMonotone(Translate(v, pos, scale), Translate(v', pos, scale));
    ClipIntMonotone(Trunc(Translate(v, pos, scale)), Trunc(Translate(v', pos, scale)), 0, worldSize - 1);
  }

  /**
   * After the clip to the map, truncation toward zero and the floor pick the
   * same cell: they differ only on negative values, which both clip to 0.
   */
  lemma ClippedTruncIsClippedFloor(x: real, worldSize: int)
    requires worldSize >= 1
    ensures ClipInt(Trunc(x), 0, worldSize - 1) == ClipInt(x.Floor, 0, worldSize - 1)
  {
  }

  /** `pix_to_world` for one rotated rover pixel. */
  function PixToWorld(q: RoverPixel, xpos: real, ypos: real, worldSize: int, scale: real): (c: WorldPoint)
    requires scale != 0.0
    ensures worldSize >= 1 ==> 0 <= c.x < worldSize && 0 <= c.y < worldSize
  {
    WorldPoint(WorldIndex(q.x, xpos, worldSize, scale), WorldIndex(q.y, ypos, worldSize, scale))
  }

  /**
   * `rotate_pix` by the rover's heading, with the cosine and sine of the
   * heading given.
   */
  function RotatePix(q: RoverPixel, cosYaw: real, sinYaw: real): RoverPixel
  {
    RoverPixel(q.x * cosYaw - q.y * sinYaw, q.x * sinYaw + q.y * cosYaw)
  }

  /** With a true cosine and sine pair, rotating back by the opposite angle restores the pixel. */
  lemma RotatePixInverse(q: RoverPixel, cosYaw: real, sinYaw: real)
    requires cosYaw * cosYaw + sinYaw * sinYaw == 1.0
    ensures RotatePix(RotatePix(q, cosYaw, sinYaw), cosYaw, -sinYaw) == q
  {
    var r := RotatePix(q, cosYaw, sinYaw);
    calc {
      r.x * cosYaw - r.y * -sinYaw;
      (q.x * cosYaw - q.y * sinYaw) * cosYaw + (q.x * sinYaw + q.y * cosYaw) * sinYaw;
      q.x * (cosYaw * cosYaw + sinYaw * sinYaw);
      q.x;
    }
    calc {
      r.x * -sinYaw + r.y * cosYaw;
      -(q.x * cosYaw - q.y * sinYaw) * sinYaw + (q.x * sinYaw + q.y * cosYaw) * cosYaw;
      q.y * (cosYaw * cosYaw + sinYaw * sinYaw);
      q.y;
    }
  }

  /** With a true cosine and sine pair, rotation keeps the squared distance from the rover. */
  lemma RotatePixKeepsDistance(q: RoverPixel, cosYaw: real, sinYaw: real)
    requires cosYaw * cosYaw + sinYaw * sinYaw == 1.0
    ensures var q' := RotatePix(q, cosYaw, sinYaw);
            q'.x * q'.x + q'.y * q'.y == q.x * q.x + q.y * q.y
  {
    var q' := RotatePix(q, cosYaw, sinYaw);
    calc {
      q'.x * q'.x + q'.y * q'.y;
      (q.x * cosYaw - q.y * sinYaw) * (q.x * cosYaw - q.y * sinYaw)
        + (q.x * sinYaw + q.y * cosYaw) * (q.x * sinYaw + q.y * cosYaw);
      q.x * q.x * (cosYaw * cosYaw + sinYaw * sinYaw) + q.y * q.y * (cosYaw * cosYaw + sinYaw * sinYaw);
      q.x * q.x + q.y * q.y;
    }
  }

  /** `pix_to_world` over all pixels of an observation. */
  function ToWorld(qs: seq<RoverPixel>, cosYaw: real, sinYaw: real,
                   xpos: real, ypos: real, worldSize: int, scale: real): (cs: seq<WorldPoint>)
    requires scale != 0.0
    ensures |cs| == |qs|
    ensures worldSize >= 1 ==> forall c :: c in cs ==> 0 <= c.x < worldSize && 0 <= c.y < worldSize
  {
    seq(|qs|, k requires 0 <= k < |qs| => PixToWorld(RotatePix(qs[k], cosYaw, sinYaw), xpos, ypos, worldSize, scale))
  }

  // ---------------------------------------------------------------------
  // Contour choice and the wall region of interest

  /** An OpenCV contour as its list of points. */
  type Contour = seq<Point>

  /**
   * The index Python's `max(contours, key=area)` picks: a contour of
   * largest area, the first one among ties.
   */
  function LargestIndex(cs: seq<Contour>, area: Contour -> real): (k: nat)
    requires |cs| > 0
    ensures k < |cs|
    ensures forall j :: 0 <= j < |cs| ==> area(cs[j]) <= area(cs[k])
    ensures forall j :: 0 <= j < k ==> area(cs[j]) < area(cs[k])
  {
    if |cs| == 1 then 0
    else
      var n := |cs| - 1;
      var k := LargestIndex(cs[..n], area);
      assert forall j :: 0 <= j < n ==> cs[..n][j] == cs[j];
      if area(cs[n]) > area(cs[k]) then n else k
  }

  /** The contour `perception_step` follows, or None when `max` raises on an empty list. */
  function LargestContour(cs: seq<Contour>, area: Contour -> real): (o: Option<Contour>)
    ensures o.None? <==> |cs| == 0
    ensures o.Some? ==> o.value in cs && forall c :: c in cs ==> area(c) <= area(o.value)
  {
    if |cs| == 0 then None else Some(cs[LargestIndex(cs, area)])
  }

  /** The elements of `s` that `keep` accepts, in their order. */
  function Filter(s: seq<Point>, keep: Point -> bool): (r: seq<Point>)
    ensures |r| <= |s|
    ensures forall p :: p in r <==> p in s && keep(p)
  {
    if |s| == 0 then []
    else (if keep(s[0]) then [s[0]] else []) + Filter(s[1..], keep)
  }

  /** Filtering a concatenation filters each part in turn: the kept points stay in their order. */
  lemma {:induction false} FilterAppend(s: seq<Point>, t: seq<Point>, keep: Point -> bool)
    ensures Filter(s + t, keep) == Filter(s, keep) + Filter(t, keep)
  {
    if |s| > 0 {
      var head := if keep(s[0]) then [s[0]] else [];
      assert (s + t)[0] == s[0] && (s + t)[1..] == s[1..] + t;
      calc {
        Filter(s + t, keep);
        head + Filter(s[1..] + t, keep);
        { FilterAppend(s[1..], t, keep); }
        head + (Filter(s[1..], keep) + Filter(t, keep));
        (head + Filter(s[1..], keep)) + Filter(t, keep);
      }
    } else {
      assert s + t == t;
    }
  }

  /** Two successive filters are one filter by the conjunction, keeping the order. */
  lemma {:induction false} FilterFuse(s: seq<Point>, f: Point -> bool, g: Point -> bool, h: Point -> bool)
    requires forall p :: h(p) == (f(p) && g(p))
    ensures Filter(Filter(s, f), g) == Filter(s, h)
  {
    if |s| > 0 {
      FilterFuse(s[1..], f, g, h);
      var t := Filter(s[1..], f);
      if f(s[0]) {
        assert Filter(s, f) == [s[0]] + t;
        assert ([s[0]] + t)[1..] == t;
      } else {
        assert Filter(s, f) == t;
      }
    }
  }

  predicate RightOfColumn160(p: Point) { p.x > 160 }
  predicate BelowRow90(p: Point) { p.y > 90 }
  predicate AboveRow150(p: Point) { p.y < 150 }

  /** The right-wall region: columns past 160 and rows strictly between 90 and 150. */
  predicate InWallRegion(p: Point)
  {
    p.x > 160 && 90 < p.y < 150
  }

  /** `nav_roi` of `perception_step`: the contour masked down to the right wall in three steps. */
  function WallPoints(c: Contour): (r: seq<Point>)
    ensures forall p :: p in r <==> p in c && InWallRegion(p)
  {
    Filter(Filter(Filter(c, RightOfColumn160), BelowRow90), AboveRow150)
  }

  /** The three masks keep exactly the contour's points in the wall region, in the contour's order. */
  lemma WallPointsIsOneFilter(c: Contour)
    ensures WallPoints(c) == Filter(c, InWallRegion)
  {
    FilterFuse(c, RightOfColumn160, BelowRow90, (p: Point) => p.x > 160 && p.y > 90);
    FilterFuse(c, (p: Point) => p.x > 160 && p.y > 90, AboveRow150, InWallRegion);
  }

  // ---------------------------------------------------------------------
  // What one camera frame yields

  /** The rover-coordinate pixel lists `perception_step` derives from one frame. */
  datatype Observation = Observation(
    nav: seq<RoverPixel>,
    tgt: seq<RoverPixel>,
    obs: seq<RoverPixel>,
    msk: seq<RoverPixel>,
    wal: seq<RoverPixel>,
    col: seq<RoverPixel>)

  /**
   * `rover_coords_(xpos_w, ypos_w, imbin, -3)`: the wall points of an `h` by
   * `w` frame lie between 91 and 149 pixels behind the top edge, and right of
   * raster column 160: with the -3 offset, `y < w/2 - 157`.
   */
  function WallCoords(contour: Contour, h: int, w: int): (qs: seq<RoverPixel>)
    ensures |qs| == |WallPoints(contour)|
    ensures forall k :: 0 <= k < |qs| ==>
              ((h - 150) as real) < qs[k].x < ((h - 90) as real)
              && qs[k].y < (w as real) / 2.0 - 157.0
  {
    var wal := WallPoints(contour);
    assert forall k :: 0 <= k < |wal| ==> wal[k] in wal;
    RoverCoordsOf(wal, h, w, -3)
  }

  /** `rover_coords(coll_roi)`: relative to the window, so at most 20 pixels ahead. */
  function CollisionCoords(warped: Image): (qs: seq<RoverPixel>)
    ensures |qs| == |NonZero(CollisionMask(warped))|
    ensures forall k :: 0 <= k < |qs| ==> 1.0 <= qs[k].x <= 20.0
  {
    RoverCoords(CollisionMask(warped))
  }

  /** Steps 3 to 5 of `perception_step` for a frame and its chosen contour. */
  function Observe(warped: Image, contour: Contour): (o: Observation)
    ensures |o.nav| == |NonZero(ContourSelect(warped, NavThreshold))|
    ensures |o.tgt| == |NonZero(ColorThresh(warped, TgtThreshold, true, DefaultTolerance))|
    ensures |o.obs| == |NonZero(ColorThresh(warped, ObsThreshold, false, DefaultTolerance))|
    ensures |o.msk| == |NonZero(ColorThresh(warped, MapThreshold, false, DefaultTolerance))|
    ensures |o.wal| == |WallPoints(contour)|
    ensures forall k :: 0 <= k < |o.col| ==> 1.0 <= o.col[k].x <= 20.0
  {
    Observation(
      RoverCoords(ContourSelect(warped, NavThreshold)),
      RoverCoords(ColorThresh(warped, TgtThreshold, true, DefaultTolerance)),
      RoverCoords(ColorThresh(warped, ObsThreshold, false, DefaultTolerance)),
      RoverCoords(ColorThresh(warped, MapThreshold, false, DefaultTolerance)),
      WallCoords(contour, |warped|, Width(warped)),
      CollisionCoords(warped))
  }

  /** A rover pixel in polar form: distance, and angle as the controller reads it. */
  datatype Polar = Polar(dist: real, angle: real)

  /** The distance and angle fields `perception_step` assigns on the Rover record. */
  datatype Bearings = Bearings(
    walDists: seq<real>, walAngles: seq<real>,
    navDists: seq<real>, navAngles: Option<seq<real>>,
    tgtDists: seq<real>, tgtAngles: seq<real>,
    colDists: seq<real>, colAngles: seq<real>)

  /** `to_polar_coords` over one pixel list, with the conversion itself as a parameter. */
  function Dists(qs: seq<RoverPixel>, polar: RoverPixel -> Polar): (ds: seq<real>)
    ensures |ds| == |qs|
    ensures forall k :: 0 <= k < |qs| ==> ds[k] == polar(qs[k]).dist
  {
    seq(|qs|, k requires 0 <= k < |qs| => polar(qs[k]).dist)
  }

  function Angles(qs: seq<RoverPixel>, polar: RoverPixel -> Polar): (as_: seq<real>)
    ensures |as_| == |qs|
    ensures forall k :: 0 <= k < |qs| ==> as_[k] == polar(qs[k]).angle
  {
    seq(|qs|, k requires 0 <= k < |qs| => polar(qs[k]).angle)
  }

  /**
   * Step 8 of `perception_step`. Once a frame is processed the navigable
   * angles are present, one per navigable pixel.
   */
  function ToPolar(o: Observation, polar: RoverPixel -> Polar): (b: Bearings)
    ensures b.navAngles.Some?
    ensures |b.navAngles.value| == |b.navDists| == |o.nav|
    ensures |b.walAngles| == |b.walDists| == |o.wal|
    ensures |b.tgtAngles| == |b.tgtDists| == |o.tgt|
    ensures |b.colAngles| == |b.colDists| == |o.col|
  {
    Bearings(Dists(o.wal, polar), Angles(o.wal, polar),
             Dists(o.nav, polar), Some(Angles(o.nav, polar)),
             Dists(o.tgt, polar), Angles(o.tgt, polar),
             Dists(o.col, polar), Angles(o.col, polar))
  }

  /** The controller's navigable-pixel count is the number of pixels passing the 2-of-3 rule. */
  lemma NavCountIsTwoOfThreeCount(warped: Image, contour: Contour, polar: RoverPixel -> Polar)
    ensures var b := ToPolar(Observe(warped, contour), polar);
            |b.navAngles.value| == |NonZero(ContourSelect(warped, NavThreshold))|
  {
  }

  /** The collision angles the controller counts come from the window only, at most 400 of them. */
  lemma CollisionCountBounded(warped: Image, contour: Contour, polar: RoverPixel -> Polar)
    ensures |ToPolar(Observe(warped, contour), polar).colAngles| <= 400
  {
    var m := CollisionMask(warped);
    NonZeroBounded(m, 20);
  }

  /** A mask of at most `n` rows of at most 20 columns has at most `20 * n` set positions. */
  lemma {:induction false} NonZeroBounded(m: Mask, n: nat)
    requires |m| <= n
    requires forall r :: 0 <= r < |m| ==> |m[r]| <= 20
    ensures |NonZero(m)| <= 20 * n
  {
    if |m| > 0 {
      NonZeroBounded(m[..|m| - 1], n - 1);
      RowHitsBounded(m[|m| - 1], |m| - 1);
    }
  }

  lemma {:induction false} RowHitsBounded(row: seq<int>, y: int)
    ensures |RowHits(row, y)| <= |row|
  {
    if |row| > 0 {
      RowHitsBounded(row[..|row| - 1], y);
    }
  }

  // ---------------------------------------------------------------------
  // The world map

  /** The world map as rows of columns of channel values, `g[y][x][channel]`. */
  type Grid = seq<seq<seq<int>>>

  predicate SameGridShape(a: Grid, b: Grid)
  {
    |a| == |b|
    && (forall i :: 0 <= i < |a| ==> |a[i]| == |b[i]|)
    && (forall i, j :: 0 <= i < |a| && 0 <= j < |a[i]| ==> |a[i][j]| == |b[i][j]|)
  }

  /** Every cell holds an 8-bit value. */
  predicate GridBytes(g: Grid)
  {
    forall i, j, k :: 0 <= i < |g| && 0 <= j < |g[i]| && 0 <= k < |g[i][j]| ==> 0 <= g[i][j][k] <= 255
  }

  /** Grids of the same shape that agree on every cell are equal. */
  lemma GridExtensionality(a: Grid, b: Grid)
    requires SameGridShape(a, b)
    requires forall i, j, k :: 0 <= i < |a| && 0 <= j < |a[i]| && 0 <= k < |a[i][j]| ==> a[i][j][k] == b[i][j][k]
    ensures a == b
  {
    forall i | 0 <= i < |a|
      ensures a[i] == b[i]
    {
      forall j | 0 <= j < |a[i]|
        ensures a[i][j] == b[i][j]
      {
      }
    }
  }

  /** `worldmap[ys, xs, ch] = 255`: the listed cells of one channel saturate, nothing else changes. */
  function Paint(g: Grid, pts: seq<WorldPoint>, ch: int): (g': Grid)
    ensures SameGridShape(g', g)
    ensures forall i, j, k :: 0 <= i < |g| && 0 <= j < |g[i]| && 0 <= k < |g[i][j]| ==>
              g'[i][j][k] == if k == ch && WorldPoint(j, i) in pts then 255 else g[i][j][k]
  {
    seq(|g|, i requires 0 <= i < |g| =>
      seq(|g[i]|, j requires 0 <= j < |g[i]| =>
        seq(|g[i][j]|, k requires 0 <= k < |g[i][j]| =>
          if k == ch && WorldPoint(j, i) in pts then 255 else g[i][j][k])))
  }

  /** Painting the same cells twice is painting them once. */
  lemma PaintIdempotent(g: Grid, pts: seq<WorldPoint>, ch: int)
    ensures Paint(Paint(g, pts, ch), pts, ch) == Paint(g, pts, ch)
  {
    GridExtensionality(Paint(Paint(g, pts, ch), pts, ch), Paint(g, pts, ch));
  }

  /** Writes to different channels do not interfere, in either order. */
  lemma PaintCommutes(g: Grid, p: seq<WorldPoint>, c: int, q: seq<WorldPoint>, d: int)
    requires c != d
    ensures Paint(Paint(g, p, c), q, d) == Paint(Paint(g, q, d), p, c)
  {
    GridExtensionality(Paint(Paint(g, p, c), q, d), Paint(Paint(g, q, d), p, c));
  }

  /** On an 8-bit map, painting keeps 8-bit values and never lowers a cell. */
  lemma PaintSaturates(g: Grid, pts: seq<WorldPoint>, ch: int)
    requires GridBytes(g)
    ensures GridBytes(Paint(g, pts, ch))
    ensures forall i, j, k :: 0 <= i < |g| && 0 <= j < |g[i]| && 0 <= k < |g[i][j]| ==>
              g[i][j][k] <= Paint(g, pts, ch)[i][j][k]
  {
  }

  /** The attitude gate: roll and pitch both within one degree of level. */
  predicate Level(roll: real, pitch: real)
  {
    (roll < 1.0 || roll > 360.0 - 1.0) && (pitch < 1.0 || pitch > 360.0 - 1.0)
  }

  /** How far an attitude angle in [0, 360) is from level, the shorter way round. */
  function FromLevel(a: real): real
  {
    if a <= 180.0 then a else 360.0 - a
  }

  /** For angles in [0, 360) the gate passes exactly when roll and pitch are each less than 1 degree from level. */
  lemma LevelIsWithinOneDegree(roll: real, pitch: real)
    requires 0.0 <= roll < 360.0 && 0.0 <= pitch < 360.0
    ensures Level(roll, pitch) <==> FromLevel(roll) < 1.0 && FromLevel(pitch) < 1.0
  {
  }

  /** Step 7 of `perception_step`: obstacles to channel 0, targets to 1, terrain to 2, when level. */
  function MapUpdate(g: Grid, roll: real, pitch: real,
                     obs: seq<WorldPoint>, tgt: seq<WorldPoint>, msk: seq<WorldPoint>): (g': Grid)
    ensures !Level(roll, pitch) ==> g' == g
    ensures Level(roll, pitch) ==> g' == Paint(Paint(Paint(g, obs, 0), tgt, 1), msk, 2)
  {
    if Level(roll, pitch) then Paint(Paint(Paint(g, obs, 0), tgt, 1), msk, 2) else g
  }

  /** When level, exactly the listed cells of each channel saturate and every other cell is kept. */
  lemma MapUpdateCells(g: Grid, roll: real, pitch: real,
                       obs: seq<WorldPoint>, tgt: seq<WorldPoint>, msk: seq<WorldPoint>,
                       i: int, j: int, k: int)
    requires 0 <= i < |g| && 0 <= j < |g[i]| && 0 <= k < |g[i][j]|
    ensures SameGridShape(MapUpdate(g, roll, pitch, obs, tgt, msk), g)
    ensures MapUpdate(g, roll, pitch, obs, tgt, msk)[i][j][k]
              == if Level(roll, pitch) && ((k == 0 && WorldPoint(j, i) in obs)
                                           || (k == 1 && WorldPoint(j, i) in tgt)
                                           || (k == 2 && WorldPoint(j, i) in msk))
                 then 255 else g[i][j][k]
  {
  }

  /** Steps 6 and 7 of `perception_step`: one frame's pixels, placed on a map of `|g|` cells square. */
  function Record(g: Grid, o: Observation, roll: real, pitch: real,
                  cosYaw: real, sinYaw: real, xpos: real, ypos: real): (g': Grid)
    ensures SameGridShape(g', g)
    ensures !Level(roll, pitch) ==> g' == g
    ensures GridBytes(g) ==> GridBytes(g')
  {
    MapUpdate(g, roll, pitch,
              ToWorld(o.obs, cosYaw, sinYaw, xpos, ypos, |g|, MapScale),
              ToWorld(o.tgt, cosYaw, sinYaw, xpos, ypos, |g|, MapScale),
              ToWorld(o.msk, cosYaw, sinYaw, xpos, ypos, |g|, MapScale))
  }

  /**
   * The value `perception_step` leaves in cell `[i, j, k]` of a map `n`
   * cells square that held `v`: 255 where the frame's obstacle, target or
   * terrain pixels land on channel 0, 1 or 2 and the rover is level.
   */
  function RecordedCell(v: int, i: int, j: int, k: int, o: Observation, roll: real, pitch: real,
                        cosYaw: real, sinYaw: real, xpos: real, ypos: real, n: int): (r: int)
    ensures r == v || r == 255
    ensures !Level(roll, pitch) ==> r == v
    ensures k < 0 || k > 2 ==> r == v
  {
    if Level(roll, pitch)
       && ((k == 0 && WorldPoint(j, i) in ToWorld(o.obs, cosYaw, sinYaw, xpos, ypos, n, MapScale))
           || (k == 1 && WorldPoint(j, i) in ToWorld(o.tgt, cosYaw, sinYaw, xpos, ypos, n, MapScale))
           || (k == 2 && WorldPoint(j, i) in ToWorld(o.msk, cosYaw, sinYaw, xpos, ypos, n, MapScale)))
    then 255 else v
  }

  /** The cell-by-cell account of a frame agrees with recording it on the map as a whole. */
  lemma RecordedCellIsRecord(g: Grid, o: Observation, roll: real, pitch: real,
                             cosYaw: real, sinYaw: real, xpos: real, ypos: real, i: int, j: int, k: int)
    requires 0 <= i < |g| && 0 <= j < |g[i]| && 0 <= k < |g[i][j]|
    ensures SameGridShape(Record(g, o, roll, pitch, cosYaw, sinYaw, xpos, ypos), g)
    ensures Record(g, o, roll, pitch, cosYaw, sinYaw, xpos, ypos)[i][j][k]
              == RecordedCell(g[i][j][k], i, j, k, o, roll, pitch, cosYaw, sinYaw, xpos, ypos, |g|)
  {
    MapUpdateCells(g, roll, pitch,
                   ToWorld(o.obs, cosYaw, sinYaw, xpos, ypos, |g|, MapScale),
                   ToWorld(o.tgt, cosYaw, sinYaw, xpos, ypos, |g|, MapScale),
                   ToWorld(o.msk, cosYaw, sinYaw, xpos, ypos, |g|, MapScale), i, j, k);
  }

  /** The observation of a frame, or None when OpenCV found no contour. */
  function Frame(warped: Image, contours: seq<Contour>, area: Contour -> real): (o: Option<Observation>)
    ensures o.None? <==> |contours| == 0
  {
    var c := LargestContour(contours, area);
    if c.None? then None else Some(Observe(warped, c.value))
  }

  /** Recording the same observation twice gives the same map as recording it once. */
  lemma MapUpdateIdempotent(g: Grid, roll: real, pitch: real,
                            obs: seq<WorldPoint>, tgt: seq<WorldPoint>, msk: seq<WorldPoint>)
    ensures var once := MapUpdate(g, roll, pitch, obs, tgt, msk);
            MapUpdate(once, roll, pitch, obs, tgt, msk) == once
  {
    var once := MapUpdate(g, roll, pitch, obs, tgt, msk);
    var twice := MapUpdate(once, roll, pitch, obs, tgt, msk);
    if Level(roll, pitch) {
      GridExtensionality(twice, once);
    }
  }

  /** Recording two frames, each at its own attitude, in either order gives the same map. */
  lemma MapUpdateCommutes(g: Grid, roll: real, pitch: real,
                          obs: seq<WorldPoint>, tgt: seq<WorldPoint>, msk: seq<WorldPoint>,
                          roll': real, pitch': real,
                          obs': seq<WorldPoint>, tgt': seq<WorldPoint>, msk': seq<WorldPoint>)
    ensures MapUpdate(MapUpdate(g, roll, pitch, obs, tgt, msk), roll', pitch', obs', tgt', msk')
         == MapUpdate(MapUpdate(g, roll', pitch', obs', tgt', msk'), roll, pitch, obs, tgt, msk)
  {
    var a := MapUpdate(MapUpdate(g, roll, pitch, obs, tgt, msk), roll', pitch', obs', tgt', msk');
    var b := MapUpdate(MapUpdate(g, roll', pitch', obs', tgt', msk'), roll, pitch, obs, tgt, msk);
    if Level(roll, pitch) && Level(roll', pitch') {
      GridExtensionality(a, b);
    }
  }
}
