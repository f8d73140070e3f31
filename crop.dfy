/** The border crop applied to both images before the quality metric is
    computed: `img[c:-c, c:-c]` with `c` the upscaling factor. Python's slice
    semantics are spelled out, including the case `c == 0`, where `-0` is `0`
    and the slice is empty. */
module Crop {
  import opened Common

  /** Python's normalisation of one slice bound against a sequence of length n. */
  function Bound(n: nat, i: int): (r: nat)
    ensures r <= n
    ensures 0 <= i <= n ==> r == i
    ensures -(n as int) <= i < 0 ==> r == n + i
    ensures i > n ==> r == n
    ensures i < -(n as int) ==> r == 0
  {
    if i < 0 then (if n + i < 0 then 0 else n + i)
    else if i > n then n
    else i
  }

  /** Python's `s[i:j]` (step 1). */
  function Slice<T>(s: seq<T>, i: int, j: int): (r: seq<T>)
  {
    var a, b := Bound(|s|, i), Bound(|s|, j);
    if a < b then s[a..b] else []
  }

  /** `img[c:-c, c:-c]`: drop `c` rows at the top and bottom and `c` columns at the
      left and right of every remaining row. */
  function BorderCrop<T>(img: seq<seq<T>>, c: nat): (r: seq<seq<T>>)
    ensures c == 0 ==> r == []
    ensures 0 < c ==> |r| == (if 2 * c < |img| then |img| - 2 * c else 0)
    ensures forall k :: 0 <= k < |r| ==> r[k] == Slice(img[k + c], c, -(c as int))
  {
    var rows := Slice(img, c, -(c as int));
    seq(|rows|, k requires 0 <= k < |rows| => Slice(rows[k], c, -(c as int)))
  }

  /** For a positive margin the crop is the interior of the image: it is
      `2c` smaller in both directions and pixel `(k, l)` of the result is pixel
      `(k + c, l + c)` of the input. */
  lemma CropInterior<T>(img: seq<seq<T>>, width: nat, c: nat)
    requires 0 < c && Rectangular(img, width)
    ensures var r := BorderCrop(img, c);
      && Rectangular(r, if 2 * c < width then width - 2 * c else 0)
      && forall k, l :: 0 <= k < |r| && 0 <= l < |r[k]| ==> r[k][l] == img[k + c][l + c]
  {
    var r := BorderCrop(img, c);
    forall k | 0 <= k < |r|
      ensures |r[k]| == (if 2 * c < width then width - 2 * c else 0)
      ensures forall l :: 0 <= l < |r[k]| ==> r[k][l] == img[k + c][l + c]
    {
      assert |img[k + c]| == width;
    }
  }
}
