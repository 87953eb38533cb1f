/**
 * The UIKit objects the zoomable image view drives, reduced to the fields it
 * reads and writes. Their own behaviour (clamping, gestures, rendering) is not modelled:
 * every property is a plain store.
 */
module Native {
  import opened Geometry

  /** A decoded bitmap (UIImage); only its intrinsic size is observable here. */
  class UIImage {
    const size: Size

    constructor (size: Size)
      ensures this.size == size
    {
      this.size := size;
    }
  }

  /** The NativeScript stretch modes ('none', 'aspectFill', 'aspectFit', 'fill'). */
  datatype Stretch = None | AspectFill | AspectFit | Fill

  /** The scrollable container (UIScrollView). */
  class ScrollView {
    var minimumZoomScale: real
    var maximumZoomScale: real
    var zoomScale: real
    /** The size of `bounds`, which the host layout engine sets. */
    var bounds: Size
    var contentSize: Size

    /**
     * A UIScrollView with zoom limits and zoom 1 and no content. `UIScrollView.new()`
     * starts with zero bounds; the `bounds` parameter stands for the placement the
     * host layout engine makes later.
     */
    constructor (bounds: Size)
      ensures minimumZoomScale == 1.0 && maximumZoomScale == 1.0 && zoomScale == 1.0
      ensures this.bounds == bounds && contentSize == Size(0.0, 0.0)
    {
      minimumZoomScale, maximumZoomScale, zoomScale := 1.0, 1.0, 1.0;
      this.bounds := bounds;
      contentSize := Size(0.0, 0.0);
    }
  }

  /** The image surface (UIImageView) inside the scroll view. */
  class ImageView {
    /** The displayed image; `null` is nil (nothing loaded, or a failed decode). */
    var image: UIImage?
    var frame: Rect
    var stretch: Stretch

    /** A fresh UIImageView: no image, an empty frame. */
    constructor (stretch: Stretch)
      ensures image == null && frame == Rect(0.0, 0.0, 0.0, 0.0) && this.stretch == stretch
    {
      image := null;
      frame := Rect(0.0, 0.0, 0.0, 0.0);
      this.stretch := stretch;
    }
  }
}
