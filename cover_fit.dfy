/** The "object-fit: cover" rectangle computed by `drawFrame` (index.js:105-117). */
module CoverFit {

  /** Where a frame is drawn: top-left corner and size, in canvas pixels. */
  datatype Rect = Rect(x: real, y: real, width: real, height: real)

  /** Scale the frame to fill the whole canvas, keeping its aspect ratio,
      and centre it so the excess is cropped equally on both sides. */
  function Cover(canvasWidth: real, canvasHeight: real, aspect: real): (r: Rect)
    requires canvasWidth >= 0.0 && canvasHeight >= 0.0 && aspect > 0.0
    ensures r.width == r.height * aspect
    ensures r.width >= canvasWidth && r.height >= canvasHeight
    ensures r.width == canvasWidth || r.height == canvasHeight
    ensures r.x == (canvasWidth - r.width) / 2.0 && r.y == (canvasHeight - r.height) / 2.0
    ensures r.x <= 0.0 && r.y <= 0.0
  {
    var widthFitHeight := canvasWidth / aspect;
    if widthFitHeight < canvasHeight then
      var drawWidth := canvasHeight * aspect;
      assert drawWidth >= canvasWidth by {
        assert widthFitHeight * aspect == canvasWidth;
      }
      Rect((canvasWidth - drawWidth) / 2.0, 0.0, drawWidth, canvasHeight)
    else
      assert widthFitHeight * aspect == canvasWidth;
      Rect(0.0, (canvasHeight - widthFitHeight) / 2.0, canvasWidth, widthFitHeight)
  }

  /** Cover fit draws no larger than needed: any rectangle of the same aspect
      ratio that also covers the canvas is at least as large. */
  lemma CoverIsSmallest(canvasWidth: real, canvasHeight: real, aspect: real, w: real, h: real)
    requires canvasWidth >= 0.0 && canvasHeight >= 0.0 && aspect > 0.0
    requires w == h * aspect && w >= canvasWidth && h >= canvasHeight
    ensures Cover(canvasWidth, canvasHeight, aspect).width <= w
    ensures Cover(canvasWidth, canvasHeight, aspect).height <= h
  {
    var r := Cover(canvasWidth, canvasHeight, aspect);
    if r.height == canvasHeight {
      assert r.height * aspect <= h * aspect;
    } else {
      assert r.width == canvasWidth;
      assert r.height * aspect <= h * aspect;
    }
  }
}
