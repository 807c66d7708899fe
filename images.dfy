/** Decoded images as rectangular grids of pixels, and the numpy array operations
    the patch sampler applies to them: slicing, `rot90` and `fliplr`. */
module Images {

  type Byte = b: int | 0 <= b < 256

  /** One pixel of a PNG decoded with three 8-bit channels. Every operation below moves
      whole pixels, so the channel axis is carried along unchanged. */
  datatype Pixel = Pixel(red: Byte, green: Byte, blue: Byte)

  predicate IsRect(g: seq<seq<Pixel>>) {
    forall i :: 0 <= i < |g| ==> |g[i]| == |g[0]|
  }

  /** An H x W x 3 raster: `g[row][column]`. */
  type Image = g: seq<seq<Pixel>> | IsRect(g) witness []

  function Height(g: Image): nat { |g| }

  function Width(g: Image): nat { if |g| == 0 then 0 else |g[0]| }

  predicate HasShape(g: seq<seq<Pixel>>, h: nat, w: nat) {
    |g| == h && forall i :: 0 <= i < h ==> |g[i]| == w
  }

  /** A grid whose emptiness does not hide one of its two extents. */
  predicate NonDegenerate(g: Image) {
    Height(g) == 0 <==> Width(g) == 0
  }

  lemma ShapeOf(g: Image)
    ensures HasShape(g, Height(g), Width(g))
  {
  }

  /** `g[top:top+h, left:left+w, :]` for a window that lies inside the image. */
  function Crop(g: Image, top: nat, left: nat, h: nat, w: nat): (r: Image)
    requires top + h <= Height(g) && left + w <= Width(g)
    ensures HasShape(r, h, w)
    ensures forall i, j :: 0 <= i < h && 0 <= j < w ==> r[i][j] == g[top + i][left + j]
  {
    ShapeOf(g);
    seq(h, i requires 0 <= i < h => seq(w, j requires 0 <= j < w => g[top + i][left + j]))
  }

  /** Swapping the two spatial axes. */
  function Transpose(g: Image): (r: Image)
    ensures HasShape(r, Width(g), Height(g))
    ensures forall i, j :: 0 <= i < Width(g) && 0 <= j < Height(g) ==> r[i][j] == g[j][i]
  {
    ShapeOf(g);
    seq(Width(g), i requires 0 <= i < Width(g) =>
      seq(Height(g), j requires 0 <= j < Height(g) => g[j][i]))
  }

  /** `np.fliplr`: mirror the columns. */
  function FlipLR(g: Image): (r: Image)
    ensures HasShape(r, Height(g), Width(g))
    ensures forall i, j :: 0 <= i < Height(g) && 0 <= j < Width(g) ==> r[i][j] == g[i][Width(g) - 1 - j]
  {
    ShapeOf(g);
    seq(Height(g), i requires 0 <= i < Height(g) =>
      seq(Width(g), j requires 0 <= j < Width(g) => g[i][Width(g) - 1 - j]))
  }

  /** `np.flipud`: mirror the rows. */
  function FlipUD(g: Image): (r: Image)
    ensures HasShape(r, Height(g), Width(g))
    ensures forall i :: 0 <= i < Height(g) ==> r[i] == g[Height(g) - 1 - i]
  {
    ShapeOf(g);
    seq(Height(g), i requires 0 <= i < Height(g) => g[Height(g) - 1 - i])
  }

  /** An odd number of quarter turns exchanges height and width. */
  predicate SwapsAxes(k: int) {
    k % 4 == 1 || k % 4 == 3
  }

  /** Where pixel (i, j) of a grid turned k quarter turns counter-clockwise comes from,
      in a grid of h rows and w columns. */
  function RotSource(h: nat, w: nat, k: int, i: nat, j: nat): (o: (nat, nat))
    requires if !SwapsAxes(k) then i < h && j < w else i < w && j < h
    ensures o.0 < h && o.1 < w
  {
    match k % 4
    case 0 => (i, j)
    case 1 => (j, w - 1 - i)
    case 2 => (h - 1 - i, w - 1 - j)
    case _ => (h - 1 - j, i)
  }

  /** `np.rot90(g, k)`: the grid turned k quarter turns counter-clockwise in the plane
      of its two spatial axes. An odd number of turns swaps height and width. */
  function Rot90K(g: Image, k: int): (r: Image)
    ensures !SwapsAxes(k) ==> HasShape(r, Height(g), Width(g))
    ensures SwapsAxes(k) ==> HasShape(r, Width(g), Height(g))
    ensures forall i, j :: 0 <= i < |r| && 0 <= j < |r[i]| ==>
      (if !SwapsAxes(k) then i < Height(g) && j < Width(g) else i < Width(g) && j < Height(g)) &&
      r[i][j] == g[RotSource(Height(g), Width(g), k, i, j).0][RotSource(Height(g), Width(g), k, i, j).1]
  {
    ShapeOf(g);
    var h, w := Height(g), Width(g);
    if !SwapsAxes(k) then
      seq(h, i requires 0 <= i < h =>
        seq(w, j requires 0 <= j < w => g[RotSource(h, w, k, i, j).0][RotSource(h, w, k, i, j).1]))
    else
      seq(w, i requires 0 <= i < w =>
        seq(h, j requires 0 <= j < h => g[RotSource(h, w, k, i, j).0][RotSource(h, w, k, i, j).1]))
  }

  /** How numpy itself computes `rot90`: reduce k modulo 4 and compose a transpose
      with mirrors. */
  function NumpyRot90(g: Image, k: int): Image
  {
    match k % 4
    case 0 => g
    case 1 => Transpose(FlipLR(g))
    case 2 => FlipLR(FlipUD(g))
    case _ => FlipLR(Transpose(g))
  }

  /** Two grids of one shape that agree on every pixel are equal. */
  lemma SameGrid(a: seq<seq<Pixel>>, b: seq<seq<Pixel>>, h: nat, w: nat)
    requires HasShape(a, h, w) && HasShape(b, h, w)
    requires forall i, j :: 0 <= i < h && 0 <= j < w ==> a[i][j] == b[i][j]
    ensures a == b
  {
    forall i | 0 <= i < h
      ensures a[i] == b[i]
    {
      assert forall j :: 0 <= j < w ==> a[i][j] == b[i][j];
    }
  }

  /** numpy's transpose-and-mirror composition is the rotation: `NumpyRot90` and
      `Rot90K` agree on every grid and every k. */
  lemma NumpyRot90IsRotation(g: Image, k: int)
    ensures NumpyRot90(g, k) == Rot90K(g, k)
  {
    match k % 4
    case 0 =>
      ShapeOf(g);
      SameGrid(g, Rot90K(g, k), Height(g), Width(g));
    case 1 =>
      TransposeOfMirror(g, k);
    case 2 =>
      DoubleMirror(g, k);
    case _ =>
      MirrorOfTranspose(g, k);
  }

  /** One quarter turn: `transpose(fliplr(g))`. */
  lemma TransposeOfMirror(g: Image, k: int)
    requires k % 4 == 1
    ensures Transpose(FlipLR(g)) == Rot90K(g, k)
  {
    ShapeOf(g);
    var h, w := Height(g), Width(g);
    var f := FlipLR(g);
    assert Width(f) == w && Height(f) == h;
    SameGrid(Transpose(f), Rot90K(g, k), w, h);
  }

  /** Two quarter turns: `fliplr(flipud(g))`. */
  lemma DoubleMirror(g: Image, k: int)
    requires k % 4 == 2
    ensures FlipLR(FlipUD(g)) == Rot90K(g, k)
  {
    ShapeOf(g);
    var h, w := Height(g), Width(g);
    var u := FlipUD(g);
    var n, r := FlipLR(u), Rot90K(g, k);
    assert Width(u) == w && Height(u) == h;
    forall i, j | 0 <= i < h && 0 <= j < w
      ensures n[i][j] == r[i][j]
    {
      assert n[i][j] == u[i][w - 1 - j];
    }
    SameGrid(n, r, h, w);
  }

  /** Three quarter turns: `fliplr(transpose(g))`. */
  lemma MirrorOfTranspose(g: Image, k: int)
    requires k % 4 == 3
    ensures FlipLR(Transpose(g)) == Rot90K(g, k)
  {
    ShapeOf(g);
    var h, w := Height(g), Width(g);
    var t := Transpose(g);
    var n, r := FlipLR(t), Rot90K(g, k);
    assert Height(t) == w && (w > 0 ==> Width(t) == h);
    assert HasShape(n, w, h);
    forall i, j | 0 <= i < w && 0 <= j < h
      ensures n[i][j] == r[i][j]
    {
      assert n[i][j] == t[i][h - 1 - j];
    }
    SameGrid(n, r, w, h);
  }

  /** Mirroring twice gives back the original grid. */
  lemma FlipLRInvolution(g: Image)
    ensures FlipLR(FlipLR(g)) == g
  {
    ShapeOf(g);
    var f := FlipLR(g);
    assert Height(f) == Height(g) && Width(f) == Width(g);
    SameGrid(FlipLR(f), g, Height(g), Width(g));
  }

  /** n successive single counter-clockwise quarter turns. */
  function QuarterTurns(g: Image, n: nat): Image
  {
    if n == 0 then g else Rot90K(QuarterTurns(g, n - 1), 1)
  }

  lemma NextTurn(k: int)
    ensures (k + 1) % 4 == if k % 4 == 3 then 0 else k % 4 + 1
    ensures SwapsAxes(k + 1) <==> !SwapsAxes(k)
  {
  }

  /** One more quarter turn moves the source of a pixel as one extra turn does. */
  lemma RotSourceStep(h: nat, w: nat, k: int, i: nat, j: nat)
    requires if !SwapsAxes(k) then i < w && j < h else i < h && j < w
    ensures var wa := if !SwapsAxes(k) then w else h;
      (if !SwapsAxes(k) then j < h && wa - 1 - i < w else j < w && wa - 1 - i < h) &&
      RotSource(h, w, k, j, wa - 1 - i) == RotSource(h, w, k + 1, i, j)
  {
    NextTurn(k);
  }

  lemma Rot90KStepAt(g: Image, k: int, i: nat, j: nat)
    requires if !SwapsAxes(k) then i < Width(g) && j < Height(g) else i < Height(g) && j < Width(g)
    requires NonDegenerate(g)
    ensures var b, c := Rot90K(Rot90K(g, k), 1), Rot90K(g, k + 1);
      i < |b| && j < |b[i]| && i < |c| && j < |c[i]| && b[i][j] == c[i][j]
  {
    var h, w := Height(g), Width(g);
    var wa := if !SwapsAxes(k) then w else h;
    var a := Rot90K(g, k);
    assert Width(a) == wa && Height(a) == (if !SwapsAxes(k) then h else w);
    RotSourceStep(h, w, k, i, j);
    NextTurn(k);
    assert Rot90K(a, 1)[i][j] == a[j][wa - 1 - i];
  }

  /** One more quarter turn on top of `Rot90K(g, k)` is `Rot90K(g, k + 1)`, for a grid
      whose emptiness does not hide an extent. */
  lemma Rot90KStep(g: Image, k: int)
    requires NonDegenerate(g)
    ensures Rot90K(Rot90K(g, k), 1) == Rot90K(g, k + 1)
  {
    var h, w := Height(g), Width(g);
    var even := !SwapsAxes(k);
    var ha, wa := if even then h else w, if even then w else h;
    var a := Rot90K(g, k);
    assert Height(a) == ha && Width(a) == wa;
    var b := Rot90K(a, 1);
    NextTurn(k);
    var c := Rot90K(g, k + 1);
    assert HasShape(b, wa, ha) && HasShape(c, wa, ha);
    forall i, j | 0 <= i < wa && 0 <= j < ha
      ensures b[i][j] == c[i][j]
    {
      Rot90KStepAt(g, k, i, j);
    }
    SameGrid(b, c, wa, ha);
  }

  /** No turn at all leaves the grid as it is. */
  lemma NoTurn(g: Image)
    ensures Rot90K(g, 0) == g
  {
    ShapeOf(g);
    SameGrid(Rot90K(g, 0), g, Height(g), Width(g));
  }

  /** `np.rot90(g, k)` equals k successive quarter turns, for every k >= 0; so
      `Rot90K(g, 4)`, four quarter turns, gives back `g`. */
  lemma {:induction false} Rot90KIsQuarterTurns(g: Image, k: nat)
    requires NonDegenerate(g)
    ensures Rot90K(g, k) == QuarterTurns(g, k)
  {
    if k == 0 {
      NoTurn(g);
    } else {
      Rot90KIsQuarterTurns(g, k - 1);
      QuarterTurnsStep(g, k);
    }
  }

  lemma QuarterTurnsStep(g: Image, k: nat)
    requires NonDegenerate(g) && k > 0
    requires Rot90K(g, k - 1) == QuarterTurns(g, k - 1)
    ensures Rot90K(g, k) == QuarterTurns(g, k)
  {
    Rot90KStep(g, k - 1);
  }

  /** The same rotation and the same optional left-right mirror, as applied to both
      patches of a pair. */
  function Transform(g: Image, k: int, flip: bool): Image
  {
    if flip then FlipLR(Rot90K(g, k)) else Rot90K(g, k)
  }

  /** Where pixel (i, j) of `Transform(g, k, flip)` comes from, for an n x n grid g. */
  function Origin(n: nat, k: int, flip: bool, i: nat, j: nat): (o: (nat, nat))
    requires i < n && j < n
    ensures o.0 < n && o.1 < n
  {
    var c := if flip then n - 1 - j else j;
    RotSource(n, n, k, i, c)
  }

  /** A square patch stays square under the transform, and each of its pixels comes
      from the position `Origin` names. */
  lemma TransformAt(g: Image, n: nat, k: int, flip: bool, i: nat, j: nat)
    requires HasShape(g, n, n)
    requires i < n && j < n
    ensures HasShape(Transform(g, k, flip), n, n)
    ensures var o := Origin(n, k, flip, i, j);
      Transform(g, k, flip)[i][j] == g[o.0][o.1]
  {
    assert Height(g) == n && Width(g) == n;
    var r := Rot90K(g, k);
    assert Height(r) == n && Width(r) == n;
  }

  /** Rotating and mirroring a square patch keeps it n x n. */
  lemma TransformShape(g: Image, n: nat, k: int, flip: bool)
    requires HasShape(g, n, n)
    ensures HasShape(Transform(g, k, flip), n, n)
  {
    assert Height(g) == n && (n > 0 ==> Width(g) == n);
  }
}
