/** The pixel buffer the CPU path tracer renders into
    (src/path_tracing/render_image.rs): `xSize * ySize` RGBA pixels in row-major
    order. */
module RenderImages {
  import opened Vectors
  import opened RowMajor

  datatype RenderImage = RenderImage(xSize: nat, ySize: nat, pixels: seq<Vec4>)
  {
    /** The buffer holds exactly one pixel per `(x, y)`; `render_scene` indexes it
        with `y * xSize + x` and relies on this. */
    predicate WellSized()
    {
      |pixels| == xSize * ySize
    }
  }

  /** `RenderImage::new`: a zeroed buffer of `xDimension * yDimension` pixels. */
  function NewRenderImage(xDimension: nat, yDimension: nat): (img: RenderImage)
    ensures img.xSize == xDimension && img.ySize == yDimension
    ensures img.WellSized()
    ensures forall i :: 0 <= i < |img.pixels| ==> img.pixels[i] == ZERO4
  {
    RenderImage(xDimension, yDimension, seq(xDimension * yDimension, _ => ZERO4))
  }

  /** Pixel `(x, y)` of a `w x h` image lives at `y * w + x`: in bounds, and the
      column and row are recovered from it by `%` and `/`, so distinct pixels
      have distinct slots. */
  lemma PixelIndex(w: nat, h: nat, x: nat, y: nat)
    requires x < w && y < h
    ensures 0 <= y * w + x < w * h
    ensures (y * w + x) % w == x && (y * w + x) / w == y
  {
    MulMonotone(0, y, w);
    MulMonotone(y + 1, h, w);
    assert (y + 1) * w == y * w + w;
    var i := y * w + x;
    assert i == (i / w) * w + i % w;
    RowMajorUnique(w, y, x, i / w, i % w);
  }

  /** Every slot of a `w x h` image is the index of exactly the pixel
      `(i % w, i / w)`. */
  lemma SlotPixel(w: nat, h: nat, i: int)
    requires 0 <= i < w * h
    ensures w > 0 && i % w < w && i / w < h && i == (i / w) * w + i % w
  {
    assert i == (i / w) * w + i % w;
    MulMonotone(h, i / w, w);
    assert h * w == w * h;
  }
}
