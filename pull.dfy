/** The pie chart's pull list: one offset per slice, the pull size at the
    chosen slice and zero at every other. */
module Pull {

  /** The pull list for n slices with slice k pulled out by `size`. */
  function Mask(n: nat, k: nat, size: real): (m: seq<real>)
    requires k < n
    ensures |m| == n
  {
    seq(n, i => if i == k then size else 0.0)
  }

  /** The positions a pull list actually offsets. */
  function Pulled(m: seq<real>): set<nat>
  {
    set i: nat | i < |m| && m[i] != 0.0
  }

  /** A mask has one entry per slice; the chosen slice carries the pull size
      and every other slice is zero, so with a non-zero size exactly one
      slice is pulled out. */
  lemma MaskShape(n: nat, k: nat, size: real)
    requires k < n
    ensures |Mask(n, k, size)| == n && Mask(n, k, size)[k] == size
    ensures forall i :: 0 <= i < n && i != k ==> Mask(n, k, size)[i] == 0.0
    ensures Pulled(Mask(n, k, size)) == if size == 0.0 then {} else {k}
  {
    var m := Mask(n, k, size);
    if size != 0.0 {
      assert k in Pulled(m);
    }
  }

  /** Allocates `[0] * n` and sets slot k to the pull size. */
  method BuildPull(n: nat, k: nat, size: real) returns (pull: array<real>)
    requires k < n
    ensures fresh(pull)
    ensures pull[..] == Mask(n, k, size)
  {
    pull := new real[n](_ => 0.0);
    pull[k] := size;
  }
}
