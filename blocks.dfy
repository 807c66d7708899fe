/** Coordinates at two resolutions: an input pixel v covers the `s` ground-truth pixels
    [v * s, v * s + s), and a ground-truth pixel lies in the block of one input pixel.
    Both maps are defined by repeated addition and subtraction, and the lemmas below
    are all the arithmetic the patch geometry needs. */
module Blocks {

  /** `v * s`, the ground-truth coordinate or length of an input one. */
  function Upscale(v: nat, s: nat): nat
    decreases v
  {
    if v == 0 then 0 else Upscale(v - 1, s) + s
  }

  /** `Upscale` is multiplication. */
  lemma {:induction false} UpscaleIsProduct(v: nat, s: nat)
    ensures Upscale(v, s) == v * s
  {
    if v > 0 {
      UpscaleIsProduct(v - 1, s);
      assert (v - 1) * s + s == v * s;
    }
  }

  lemma {:induction false} UpscaleAdd(a: nat, b: nat, s: nat)
    ensures Upscale(a + b, s) == Upscale(a, s) + Upscale(b, s)
  {
    if b > 0 {
      UpscaleAdd(a, b - 1, s);
      assert a + b - 1 == a + (b - 1);
    }
  }

  lemma UpscaleMono(a: nat, b: nat, s: nat)
    requires a <= b
    ensures Upscale(a, s) <= Upscale(b, s)
  {
    UpscaleAdd(a, b - a, s);
  }

  /** A window [a, a + n) inside [0, total) scales to a window inside [0, big) when
      the whole side scales into [0, big). */
  lemma UpscaleWindow(a: nat, n: nat, total: nat, big: nat, s: nat)
    requires a + n <= total && Upscale(total, s) <= big
    ensures Upscale(a, s) + Upscale(n, s) <= big
  {
    UpscaleAdd(a, n, s);
    UpscaleMono(a + n, total, s);
  }

  /** `v // s` for the block of `s` consecutive pixels that pixel `v` falls in. */
  function Block(v: nat, s: nat): nat
    requires s > 0
    decreases v
  {
    if v < s then 0 else 1 + Block(v - s, s)
  }

  /** Pixel v lies in the block it names. */
  lemma {:induction false} BlockBounds(v: nat, s: nat)
    requires s > 0
    ensures Upscale(Block(v, s), s) <= v < Upscale(Block(v, s), s) + s
  {
    if v >= s {
      BlockBounds(v - s, s);
      assert Upscale(Block(v, s), s) == Upscale(Block(v - s, s), s) + s;
    }
  }

  /** A pixel at offset r < s inside block q lies in block q. */
  lemma {:induction false} BlockOf(q: nat, r: nat, s: nat)
    requires r < s
    ensures Block(Upscale(q, s) + r, s) == q
  {
    if q > 0 {
      assert Upscale(q, s) + r - s == Upscale(q - 1, s) + r;
      BlockOf(q - 1, r, s);
    }
  }

  /** For a side of Upscale(n, s) pixels: a coordinate lies in one of n blocks, and
      mirroring it and then taking its block is taking the block first and mirroring
      among the n blocks. */
  lemma MirrorBlock(n: nat, s: nat, i: nat)
    requires s > 0 && i < Upscale(n, s)
    ensures Block(i, s) < n
    ensures Block(Upscale(n, s) - 1 - i, s) == n - 1 - Block(i, s)
  {
    var q := Block(i, s);
    BlockBounds(i, s);
    if q >= n {
      UpscaleMono(n, q, s);
    }
    UpscaleAdd(n - 1 - q, q + 1, s);
    assert Upscale(q + 1, s) == Upscale(q, s) + s;
    BlockOf(n - 1 - q, s - 1 - (i - Upscale(q, s)), s);
  }

  /** Shifting by y whole blocks shifts the block index by y. */
  lemma ShiftBlock(y: nat, s: nat, a: nat)
    requires s > 0
    ensures Block(Upscale(y, s) + a, s) == y + Block(a, s)
  {
    var q := Block(a, s);
    BlockBounds(a, s);
    UpscaleAdd(y, q, s);
    BlockOf(y + q, a - Upscale(q, s), s);
  }
}
