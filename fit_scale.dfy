/**
 * The "contain" fit scale of an image inside a viewport: the zoom at which the
 * whole image is visible and touches the viewport on its binding axis.
 */
module FitScale {
  import opened Geometry

  /**
   * calcInitScale: compare how much the image overflows the viewport on each
   * axis; the axis with the larger overflow ratio decides the scale.
   */
  function CalcInitScale(image: Size, viewport: Size): (s: real)
    requires image.Positive() && viewport.Positive()
    ensures s > 0.0
  {
    var wRatio := image.width / viewport.width;
    var hRatio := image.height / viewport.height;
    if wRatio > hRatio then viewport.width / image.width else viewport.height / image.height
  }

  /** The image scaled by `scale` lies inside the viewport on both axes. */
  predicate FitsIn(image: Size, scale: real, viewport: Size) {
    image.width * scale <= viewport.width && image.height * scale <= viewport.height
  }

  /** For positive quantities, a/b > c/d exactly when a*d > c*b. */
  lemma RatioOrder(a: real, b: real, c: real, d: real)
    requires a > 0.0 && b > 0.0 && c > 0.0 && d > 0.0
    ensures a / b > c / d <==> a * d > c * b
  {
  }

  /**
   * The fit scale is the ratio of the viewport to the image on the axis whose
   * overflow ratio is larger: width when image.width/viewport.width is strictly
   * larger, height otherwise (ties included).
   */
  lemma CalcInitScaleByAxis(image: Size, viewport: Size)
    requires image.Positive() && viewport.Positive()
    ensures image.width / viewport.width > image.height / viewport.height
            ==> CalcInitScale(image, viewport) == viewport.width / image.width
    ensures image.width / viewport.width <= image.height / viewport.height
            ==> CalcInitScale(image, viewport) == viewport.height / image.height
  {
  }

  /** The fit scale is the smaller of the two per-axis viewport/image ratios. */
  lemma CalcInitScaleIsMinRatio(image: Size, viewport: Size)
    requires image.Positive() && viewport.Positive()
    ensures CalcInitScale(image, viewport)
            == Min(viewport.width / image.width, viewport.height / image.height)
  {
    var w, h := viewport.width, viewport.height;
    var iw, ih := image.width, image.height;
    RatioOrder(iw, w, ih, h);
    RatioOrder(h, ih, w, iw);
    assert iw / w > ih / h <==> w / iw < h / ih;
  }

  /**
   * The image scaled by the fit scale lies inside the viewport, and it
   * touches the viewport exactly on at least one axis.
   */
  lemma CalcInitScaleFits(image: Size, viewport: Size)
    requires image.Positive() && viewport.Positive()
    ensures FitsIn(image, CalcInitScale(image, viewport), viewport)
    ensures image.width * CalcInitScale(image, viewport) == viewport.width
            || image.height * CalcInitScale(image, viewport) == viewport.height
  {
  }

  /** No larger scale fits: the fit scale is the largest one that keeps the image inside. */
  lemma CalcInitScaleIsLargestFit(image: Size, viewport: Size, scale: real)
    requires image.Positive() && viewport.Positive()
    requires FitsIn(image, scale, viewport)
    ensures scale <= CalcInitScale(image, viewport)
  {
  }
}
