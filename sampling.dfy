/** The pure part of `DataLoader.get_image_pair`: given the two decoded images and the
    random draws, crop co-registered patches and turn and mirror both the same way. */
module Sampling {
  import opened Images
  import opened Outcomes
  import opened Blocks

  /** The raw random draws one `get_image_pair` call makes: the image index, the crop
      origin's column and row, the rotation count, and whether to mirror. */
  datatype Draws = Draws(index: nat, x: nat, y: nat, rot: nat, flip: bool)

  /** A low-resolution input patch and its ground-truth patch. */
  datatype PatchPair = PatchPair(input: Image, truth: Image)

  /** `np.random.randint(n)`: a value in [0, n) chosen by the raw draw, or a ValueError
      when the range is empty. */
  function RandInt(n: int, raw: nat): (r: Result<nat>)
    ensures r.Ok? <==> n > 0
    ensures r.Ok? ==> r.value < n
    ensures r.Err? ==> r.error == RandomRange(n)
  {
    if n <= 0 then Err(RandomRange(n)) else Ok(raw % n)
  }

  /** Every value of a non-empty range is drawn by some raw draw. */
  lemma RandIntCovers(n: int, v: nat)
    requires v < n
    ensures RandInt(n, v) == Ok(v)
  {
  }

  /** `np.random.randint(4) + 1`: the rotation count is one of 1, 2, 3, 4, never 0. */
  function RotationCount(raw: nat): (k: int)
    ensures 1 <= k <= 4
  {
    RandInt(4, raw).value + 1
  }

  /** Every count in 1..4 is drawn by some raw draw. */
  lemma RotationCountCovers(k: int)
    requires 1 <= k <= 4
    ensures RotationCount(k - 1) == k
  {
  }

  /** The ground-truth image is at least `scale` times the input image in each
      spatial dimension, as for a correctly prepared data set. */
  predicate Fits(input: Image, truth: Image, scale: nat) {
    Upscale(Width(input), scale) <= Width(truth) && Upscale(Height(input), scale) <= Height(truth)
  }

  /** The truth window `scale` times the input window lies inside the truth image. */
  lemma TruthWindowInside(input: Image, truth: Image, scale: nat, p: nat, x: nat, y: nat)
    requires x + p <= Width(input) && y + p <= Height(input)
    requires Fits(input, truth, scale)
    ensures Upscale(y, scale) + Upscale(p, scale) <= Height(truth)
    ensures Upscale(x, scale) + Upscale(p, scale) <= Width(truth)
  {
    UpscaleWindow(y, p, Height(input), Height(truth), scale);
    UpscaleWindow(x, p, Width(input), Width(truth), scale);
  }

  /** The crop, rotate and flip steps of `get_image_pair` once the draws are made: crop the p x p input
      window at (x, y) and the (p * scale) x (p * scale) truth window at
      (x * scale, y * scale), then give both the same k quarter turns and the same
      optional mirror. Both patches come out square, the truth one exactly `scale`
      times the input one. */
  function CropRotateFlip(input: Image, truth: Image, scale: nat, p: nat,
                          x: nat, y: nat, k: int, flip: bool): (r: PatchPair)
    requires x + p <= Width(input) && y + p <= Height(input)
    requires Fits(input, truth, scale)
    ensures HasShape(r.input, p, p)
    ensures HasShape(r.truth, Upscale(p, scale), Upscale(p, scale))
  {
    TruthWindowInside(input, truth, scale, p, x, y);
    PatchPair(CropTransform(input, y, x, p, k, flip),
              CropTransform(truth, Upscale(y, scale), Upscale(x, scale), Upscale(p, scale), k, flip))
  }

  /** One patch: the n x n window at (top, left), turned k quarter turns and mirrored
      when `flip` is set, written pixel by pixel through `Origin`. */
  function CropTransform(g: Image, top: nat, left: nat, n: nat, k: int, flip: bool): (r: Image)
    requires top + n <= Height(g) && left + n <= Width(g)
    ensures HasShape(r, n, n)
  {
    seq(n, i requires 0 <= i < n =>
      seq(n, j requires 0 <= j < n => g[top + Origin(n, k, flip, i, j).0][left + Origin(n, k, flip, i, j).1]))
  }

  /** The pixel-by-pixel patch is numpy's `fliplr(rot90(g[top:top+n, left:left+n], k))`
      (without `fliplr` when `flip` is unset). */
  lemma CropTransformIsNumpy(g: Image, top: nat, left: nat, n: nat, k: int, flip: bool)
    requires top + n <= Height(g) && left + n <= Width(g)
    ensures CropTransform(g, top, left, n, k, flip) == Transform(Crop(g, top, left, n, n), k, flip)
  {
    var c := Crop(g, top, left, n, n);
    var a, b := CropTransform(g, top, left, n, k, flip), Transform(c, k, flip);
    TransformShape(c, n, k, flip);
    forall i, j | 0 <= i < n && 0 <= j < n
      ensures a[i][j] == b[i][j]
    {
      CropTransformAt(g, top, left, n, k, flip, i, j);
    }
    SameGrid(a, b, n, n);
  }

  lemma CropTransformAt(g: Image, top: nat, left: nat, n: nat, k: int, flip: bool, i: nat, j: nat)
    requires top + n <= Height(g) && left + n <= Width(g)
    requires i < n && j < n
    ensures HasShape(Transform(Crop(g, top, left, n, n), k, flip), n, n)
    ensures CropTransform(g, top, left, n, k, flip)[i][j] == Transform(Crop(g, top, left, n, n), k, flip)[i][j]
  {
    var c := Crop(g, top, left, n, n);
    TransformAt(c, n, k, flip, i, j);
    PatchAt(g, top, left, n, k, flip, i, j);
  }

  /** The crop, rotate and flip steps of `get_image_pair` with their draws: the crop origin is drawn in
      [0, width - p) x [0, height - p) of the input image, which fails when either range
      is empty; the rotation count is drawn in 1..4. */
  function SamplePatches(input: Image, truth: Image, scale: nat, p: nat, d: Draws): (r: Result<PatchPair>)
    requires Fits(input, truth, scale)
    ensures r.Ok? <==> p < Width(input) && p < Height(input)
    ensures r.Err? ==> r.error == RandomRange(if p < Width(input) then Height(input) - p else Width(input) - p)
    ensures r.Ok? ==>
      HasShape(r.value.input, p, p) && HasShape(r.value.truth, Upscale(p, scale), Upscale(p, scale))
  {
    var x :- RandInt(Width(input) - p, d.x);
    var y :- RandInt(Height(input) - p, d.y);
    var k := RotationCount(d.rot);
    Ok(CropRotateFlip(input, truth, scale, p, x, y, k, d.flip))
  }

  /** Every successful sample is a placement with the origin in [0, width - p) x
      [0, height - p) and a rotation count in 1..4. In particular the input patch never
      reaches the last column or the last row of the input image. */
  lemma SampleIsPlacement(input: Image, truth: Image, scale: nat, p: nat, d: Draws)
    requires Fits(input, truth, scale)
    ensures var r := SamplePatches(input, truth, scale, p, d);
      r.Ok? ==> exists x: nat, y: nat, k: int ::
        x + p < Width(input) && y + p < Height(input) && 1 <= k <= 4 &&
        r.value == CropRotateFlip(input, truth, scale, p, x, y, k, d.flip)
  {
    var r := SamplePatches(input, truth, scale, p, d);
    if r.Ok? {
      var x := d.x % (Width(input) - p);
      var y := d.y % (Height(input) - p);
      var k := RotationCount(d.rot);
      assert r.value == CropRotateFlip(input, truth, scale, p, x, y, k, d.flip);
    }
  }

  /** Conversely every such placement, mirrored or not, is produced by some draws. */
  lemma EveryPlacementIsSampled(input: Image, truth: Image, scale: nat, p: nat,
                                x: nat, y: nat, k: int, flip: bool)
    requires Fits(input, truth, scale)
    requires x + p < Width(input) && y + p < Height(input) && 1 <= k <= 4
    ensures SamplePatches(input, truth, scale, p, Draws(0, x, y, k - 1, flip))
         == Ok(CropRotateFlip(input, truth, scale, p, x, y, k, flip))
  {
    RandIntCovers(Width(input) - p, x);
    RandIntCovers(Height(input) - p, y);
    RotationCountCovers(k);
  }

  /** With the rotation count 4 (four quarter turns) and no mirror, the pair is exactly
      the two plain crops: one of the four rotation counts leaves the patches
      unrotated. */
  lemma FourTurnsIsPlainCrop(input: Image, truth: Image, scale: nat, p: nat, x: nat, y: nat)
    requires x + p <= Width(input) && y + p <= Height(input)
    requires Fits(input, truth, scale)
    ensures Upscale(y, scale) + Upscale(p, scale) <= Height(truth)
    ensures Upscale(x, scale) + Upscale(p, scale) <= Width(truth)
    ensures var n := Upscale(p, scale);
      CropRotateFlip(input, truth, scale, p, x, y, 4, false)
        == PatchPair(Crop(input, y, x, p, p), Crop(truth, Upscale(y, scale), Upscale(x, scale), n, n))
  {
    TruthWindowInside(input, truth, scale, p, x, y);
    var n := Upscale(p, scale);
    var ip := Crop(input, y, x, p, p);
    var tp := Crop(truth, Upscale(y, scale), Upscale(x, scale), n, n);
    CropTransformIsNumpy(input, y, x, p, 4, false);
    CropTransformIsNumpy(truth, Upscale(y, scale), Upscale(x, scale), n, 4, false);
    SameGrid(Rot90K(ip, 4), ip, p, p);
    SameGrid(Rot90K(tp, 4), tp, n, n);
  }

  // ---- Co-registration ----

  /** A coordinate map `f` from a side of `big` pixels to a side of `n` that commutes
      with mirroring (at the two coordinates involved) commutes with every rotation. */
  lemma RotSourceMap(f: nat -> nat, big: nat, n: nat, k: int, i: nat, c: nat)
    requires i < big && c < big && f(i) < n && f(c) < n
    requires f(big - 1 - i) == n - 1 - f(i) && f(big - 1 - c) == n - 1 - f(c)
    ensures f(RotSource(big, big, k, i, c).0) == RotSource(n, n, k, f(i), f(c)).0
    ensures f(RotSource(big, big, k, i, c).1) == RotSource(n, n, k, f(i), f(c)).1
  {
  }

  lemma RotSourceBlock(n: nat, s: nat, k: int, i: nat, c: nat)
    requires s > 0 && i < Upscale(n, s) && c < Upscale(n, s)
    ensures Block(i, s) < n && Block(c, s) < n
    ensures var big := Upscale(n, s);
      Block(RotSource(big, big, k, i, c).0, s) == RotSource(n, n, k, Block(i, s), Block(c, s)).0 &&
      Block(RotSource(big, big, k, i, c).1, s) == RotSource(n, n, k, Block(i, s), Block(c, s)).1
  {
    MirrorBlock(n, s, i);
    MirrorBlock(n, s, c);
    RotSourceMap(v => Block(v, s), Upscale(n, s), n, k, i, c);
  }

  /** The pixel of a (p * s) x (p * s) patch at (i, j) comes, under any transform, from
      inside the s x s block of the pixel that pixel (i // s, j // s) of the p x p patch
      comes from under the same transform. */
  lemma OriginBlock(n: nat, s: nat, k: int, flip: bool, i: nat, j: nat)
    requires s > 0 && i < Upscale(n, s) && j < Upscale(n, s)
    ensures Block(i, s) < n && Block(j, s) < n
    ensures var big := Upscale(n, s);
      Block(Origin(big, k, flip, i, j).0, s) == Origin(n, k, flip, Block(i, s), Block(j, s)).0 &&
      Block(Origin(big, k, flip, i, j).1, s) == Origin(n, k, flip, Block(i, s), Block(j, s)).1
  {
    var big := Upscale(n, s);
    MirrorBlock(n, s, j);
    var c := if flip then big - 1 - j else j;
    RotSourceBlock(n, s, k, i, c);
    assert Origin(big, k, flip, i, j) == RotSource(big, big, k, i, c);
    var cc := if flip then n - 1 - Block(j, s) else Block(j, s);
    assert Origin(n, k, flip, Block(i, s), Block(j, s)) == RotSource(n, n, k, Block(i, s), cc);
    assert cc == Block(c, s);
  }

  /** Pixel (i, j) of a patch, read back in the whole image. */
  lemma PatchAt(g: Image, top: nat, left: nat, n: nat, k: int, flip: bool, i: nat, j: nat)
    requires top + n <= Height(g) && left + n <= Width(g)
    requires i < n && j < n
    ensures var o := Origin(n, k, flip, i, j);
      top + o.0 < Height(g) && left + o.1 < Width(g) &&
      CropTransform(g, top, left, n, k, flip)[i][j] == g[top + o.0][left + o.1]
  {
  }

  /** Co-registration of two patches cut and transformed alike: pixel (i, j) of the
      truth patch cut at (Upscale(y), Upscale(x)) is the truth pixel (row, col); pixel
      (i // scale, j // scale) of the input patch cut at (y, x) is the input pixel
      (row // scale, col // scale), the one whose upscaled footprint covers (row, col). */
  lemma CoRegisteredPatches(input: Image, truth: Image, scale: nat, p: nat, x: nat, y: nat,
                            k: int, flip: bool, i: nat, j: nat)
    requires scale >= 1
    requires x + p <= Width(input) && y + p <= Height(input)
    requires Upscale(y, scale) + Upscale(p, scale) <= Height(truth)
    requires Upscale(x, scale) + Upscale(p, scale) <= Width(truth)
    requires i < Upscale(p, scale) && j < Upscale(p, scale)
    ensures var n := Upscale(p, scale);
      var o := Origin(n, k, flip, i, j);
      var row, col := Upscale(y, scale) + o.0, Upscale(x, scale) + o.1;
      row < Height(truth) && col < Width(truth) &&
      CropTransform(truth, Upscale(y, scale), Upscale(x, scale), n, k, flip)[i][j] == truth[row][col] &&
      Block(i, scale) < p && Block(j, scale) < p &&
      Block(row, scale) < Height(input) && Block(col, scale) < Width(input) &&
      CropTransform(input, y, x, p, k, flip)[Block(i, scale)][Block(j, scale)]
        == input[Block(row, scale)][Block(col, scale)]
  {
    var n := Upscale(p, scale);
    var o := Origin(n, k, flip, i, j);
    PatchAt(truth, Upscale(y, scale), Upscale(x, scale), n, k, flip, i, j);
    OriginBlock(p, scale, k, flip, i, j);
    PatchAt(input, y, x, p, k, flip, Block(i, scale), Block(j, scale));
    ShiftBlock(y, scale, o.0);
    ShiftBlock(x, scale, o.1);
  }

  /** Co-registration of the returned pair: if pixel (i, j) of the truth patch is the
      truth pixel (row, col), then pixel (i // scale, j // scale) of the input patch is the
      input pixel (row // scale, col // scale), the one whose upscaled footprint covers
      (row, col). This holds because both patches got the same rotation and mirror. */
  lemma CoRegisteredAt(input: Image, truth: Image, scale: nat, p: nat, x: nat, y: nat,
                       k: int, flip: bool, i: nat, j: nat)
    requires scale >= 1
    requires x + p <= Width(input) && y + p <= Height(input)
    requires Fits(input, truth, scale)
    requires i < Upscale(p, scale) && j < Upscale(p, scale)
    ensures var pr := CropRotateFlip(input, truth, scale, p, x, y, k, flip);
      var o := Origin(Upscale(p, scale), k, flip, i, j);
      var row, col := Upscale(y, scale) + o.0, Upscale(x, scale) + o.1;
      row < Height(truth) && col < Width(truth) && pr.truth[i][j] == truth[row][col] &&
      Block(i, scale) < p && Block(j, scale) < p &&
      Block(row, scale) < Height(input) && Block(col, scale) < Width(input) &&
      pr.input[Block(i, scale)][Block(j, scale)] == input[Block(row, scale)][Block(col, scale)]
  {
    TruthWindowInside(input, truth, scale, p, x, y);
    CoRegisteredPatches(input, truth, scale, p, x, y, k, flip, i, j);
  }
}
