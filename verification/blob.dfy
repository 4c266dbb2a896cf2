/**
 * The 4-d tensor the transforms write into (and, for the tensor-to-tensor
 * transform, read from): its shape and its flat channel-major storage.
 */
module Blobs {

  import opened Shapes

  class Blob {
    var num: nat
    var channels: nat
    var height: nat
    var width: nat
    var data: array<real>

    /** The storage holds exactly one value per cell of the shape. */
    predicate Valid()
      reads this
    {
      data.Length == num * channels * height * width
    }

    function Count(): nat
      reads this
    {
      num * channels * height * width
    }

    function GetShape(): Shape
      reads this
    {
      Shape(num, channels, height, width)
    }

    /** `offset(n)`: where item n starts in the storage. */
    function Offset(n: int): int
      reads this
    {
      ItemOffset(n, channels, height, width)
    }

    constructor (n: nat, c: nat, h: nat, w: nat)
      ensures Valid() && fresh(data)
      ensures num == n && channels == c && height == h && width == w
    {
      num, channels, height, width := n, c, h, w;
      data := new real[n * c * h * w];
    }

    /** Gives the blob a new shape and storage for it. */
    method Reshape(n: nat, c: nat, h: nat, w: nat)
      modifies this
      ensures Valid() && fresh(data)
      ensures num == n && channels == c && height == h && width == w
    {
      num, channels, height, width := n, c, h, w;
      data := new real[n * c * h * w];
    }
  }
}
