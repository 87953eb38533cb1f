# Zoomable image view (iOS) — a Dafny model

This project models the core of the iOS implementation of the NativeScript
`ImageZoom` view (`src/image-zoom.ios.ts`). The view puts a `UIImageView`
inside a `UIScrollView`. It keeps the scroll view's zoom limits, its current
zoom and its content size in step with three declarative properties:
`minZoom`, `maxZoom` and `zoomScale`. These are normalised factors: 1 means
"the image fitted to the viewport".

The model has six modules:

- `Geometry` (geometry.dfy): `Size`, `Rect`, `Max` and `Min` (which `FitScale.CalcInitScaleIsMinRatio` uses to state the fit scale as the smaller ratio), over exact `real`s in place of IEEE doubles.
- `FitScale` (fit_scale.dfy): `calcInitScale` as a pure function. Lemmas prove its "contain" geometry.
- `Native` (native.dfy): the UIKit objects the view touches, as classes with plain fields. `UIImage` keeps only its size; `ScrollView` and `ImageView` keep the fields that are read and written.
- `Source` (source.dfy): the dispatch of the `src` property. It is a pure function from a `Src` value (a string or an object) to a `Load` (named resource, decoded handle, remote fetch, file path). JavaScript's `startsWith` becomes Dafny's prefix test. The string form of `replace` becomes `RemoveFirst`.
- `ScrollModel` (scroll_model.dfy): the native state as a value (`ScrollState`). `Refreshed` gives the effect of `refreshContentSize` and `LaidOut` the effect of `onLayout`. Lemmas state their properties.
- `ImageZoomIos` (image_zoom.dfy): the `ImageZoom` class. Its methods change the two native objects in place. `RefreshContentSize`, `SetMinScale`, `SetMaxScale`, `SetScale` and `OnLayout` are proved to leave exactly the state that the `ScrollModel` functions `Refreshed`, `Fit` and `LaidOut` prescribe. The raw zoom setters and the stretch setter state their field updates on the view's state directly. `SetSrcNative` is specified by `Source.Classify`.

The foreign calls are parameters, gathered in a `Platform` value:
`UIImage.imageNamed`, `UIImage.imageWithContentsOfFile`, `path.join` and
`knownFolders.currentApp().path`.

In two places the code does something other than one might expect from the
component's purpose. The model follows the code:

- Raw zoom setters. One might expect that setting `zoomScale` to z gives
  native zoom fit × z, and likewise for `minZoom` and `maxZoom`. In the code
  (lines 137-153) the native setters write z itself. Only `onLayout` (lines
  33-39, 82-92) writes fit × z. `LayoutScenario` shows both: a layout at
  factor 2 gives native zoom 0.2, and a following raw write gives 2.
- Stretch. One might expect `stretch` to choose the image's content mode.
  The first setter (lines 94-112) is shadowed by the later one. It would have
  set the content mode of the scroll view (`nativeViewProtected`, the view
  `createNativeView` returns at lines 24-26), not of the image. The image
  view's content mode is set once, to aspect-fit (line 23), and no setter
  changes it. The setter that takes effect (line 133) only stores the value
  on the image view's `stretch` property. The model does the same.

## Model

| member | source | states |
|---|---|---|
| Geometry.Max | src/image-zoom.ios.ts:63-68 | the conditional `a > b ? a : b` is at least each operand and equal to one of them |
| FitScale.CalcInitScale | src/image-zoom.ios.ts:73-80 | for a positive image and viewport the fit scale is positive |
| FitScale.CalcInitScaleByAxis | src/image-zoom.ios.ts:73-80 | documents the comparison at line 77: if imageW/viewW > imageH/viewH the scale is viewW/imageW, otherwise (ties included) viewH/imageH |
| FitScale.CalcInitScaleIsMinRatio | src/image-zoom.ios.ts:73-80 | the fit scale equals min(viewW/imageW, viewH/imageH) |
| FitScale.CalcInitScaleFits | src/image-zoom.ios.ts:73-80 | the image scaled by the fit scale fits the viewport on both axes and matches it exactly on at least one |
| FitScale.CalcInitScaleIsLargestFit | src/image-zoom.ios.ts:73-80 | every scale at which the image fits is at most the fit scale ("contain" is the largest fitting zoom) |
| Source.RemoveFirst | src/image-zoom.ios.ts:118 | `replace(pat, '')` never makes a string longer |
| Source.RemoveFirstAt | src/image-zoom.ios.ts:118 | with the first occurrence of the pattern at index i, `replace` yields s[..i] + s[i+|pat|..] |
| Source.RemoveFirstAbsent | src/image-zoom.ios.ts:118 | the general meaning of `replace(pat, '')`: a string without the pattern comes back unchanged (at lines 118 and 126 the preceding prefix test means the pattern is always present) |
| Source.RemoveFirstPrefix | src/image-zoom.ios.ts:118 | for a string starting with the pattern, pattern + result gives back the string |
| Source.Classify | src/image-zoom.ios.ts:116-131 | the ordered tests of the `src` setter, first match wins: only objects give a handle (their `ios` image); a fetch comes only from an `http` string and fetches that string; a named resource comes from `res://` + name; its full meaning is given by `ClassifyKinds` and the per-kind lemmas |
| Source.ClassifyResource | src/image-zoom.ios.ts:117-118 | a `res://` string loads the named resource with the prefix removed; prefix + name is the string |
| Source.ClassifyObject | src/image-zoom.ios.ts:119-120 | an object hands over its `ios` image |
| Source.ClassifyRemote | src/image-zoom.ios.ts:121-124 | an `http` string starts a fetch of that URL |
| Source.ClassifyAppRelative | src/image-zoom.ios.ts:125-126 | a `~` string loads the file at join(app folder, remainder after the `~`) |
| Source.ClassifyAbsolute | src/image-zoom.ios.ts:128-129 | any other string is loaded as a file path, unchanged |
| Source.ClassifyKinds | src/image-zoom.ios.ts:116-131 | each load kind arises exactly from the `src` values the ordered tests send to it (both directions) |
| ScrollModel.Fit | src/image-zoom.ios.ts:74-76 | the fit scale read off the state (the current image's size and the scroll view's bounds) is positive for a layout-ready state |
| ScrollModel.Refreshed | src/image-zoom.ios.ts:57-71 | content is at least the viewport and the zoomed image per axis, and equal to one of them; the frame is (0, 0, content); nothing else changes |
| ScrollModel.RefreshedIsMax | src/image-zoom.ios.ts:59-70 | content size = (max(boundsW, imageW·zoom), max(boundsH, imageH·zoom)) |
| ScrollModel.RefreshedIdempotent | src/image-zoom.ios.ts:57-71 | a second refresh leaves the state unchanged |
| ScrollModel.LaidOut | src/image-zoom.ios.ts:33-39 | a layout pass keeps the image and the viewport, so the next pass can lay out again |
| ScrollModel.Zoomed | src/image-zoom.ios.ts:82-92 | the writes of `setMinScale`, `setMaxScale`, `setScale` and the `refreshContentSize` call (line 38) for a given fit scale: min, max and zoom are fit × factor; content = (max(boundsW, imageW·zoom), max(boundsH, imageH·zoom)) at the new zoom; the frame is (0, 0, content); viewport, image and stretch kept |
| ScrollModel.ZoomedIdempotent | src/image-zoom.ios.ts:82-92 | repeating the min/max/zoom writes and the refresh for the same fit scale changes nothing |
| ScrollModel.LaidOutState | src/image-zoom.ios.ts:33-39 | after onLayout: min = fit·minZoom, max = fit·maxZoom, zoom = fit·zoomScale, content is the per-axis max of viewport and zoomed image, frame = content, viewport/image/stretch kept |
| ScrollModel.LaidOutAtFitShowsWholeImage | src/image-zoom.ios.ts:33-39 | at zoom factor 1 the image fits the viewport and the content size is the viewport |
| ScrollModel.LaidOutIdempotent | src/image-zoom.ios.ts:33-39 | two layout passes with the same factors leave the same state as one |
| ScrollModel.LaidOutExample | src/image-zoom.ios.ts:33-39 | 1000×500 image, 100×100 viewport: fit 0.1; factors 1, 4, 2 give min 0.1, max 0.4, zoom 0.2, content 200×100 |
| Native.ScrollView.constructor | src/image-zoom.ios.ts:24 | a new scroll view has zoom limits and zoom 1, empty content and the given bounds |
| Native.ImageView.constructor | src/image-zoom.ios.ts:21 | a new image view shows no image in an empty frame |
| ImageZoomIos.ImageZoom.RefreshContentSize | src/image-zoom.ios.ts:57-71 | the native state afterwards is `Refreshed` of the state before |
| ImageZoomIos.ImageZoom.SetMinScale | src/image-zoom.ios.ts:82-84 | only the minimum zoom changes, to fit·scale |
| ImageZoomIos.ImageZoom.SetMaxScale | src/image-zoom.ios.ts:86-88 | only the maximum zoom changes, to fit·scale |
| ImageZoomIos.ImageZoom.SetScale | src/image-zoom.ios.ts:90-92 | only the current zoom changes, to fit·scale |
| ImageZoomIos.ImageZoom.OnLayout | src/image-zoom.ios.ts:33-39 | the native state afterwards is `LaidOut` of the state before, for the view's minZoom, maxZoom and zoomScale |
| ImageZoomIos.ImageZoom.SetZoomScaleNative | src/image-zoom.ios.ts:137-141 | with a native view, only its zoom changes, to the raw value; without one, nothing changes |
| ImageZoomIos.ImageZoom.SetMinZoomNative | src/image-zoom.ios.ts:143-147 | with a native view, only its minimum zoom changes, to the raw value; without one, nothing changes |
| ImageZoomIos.ImageZoom.SetMaxZoomNative | src/image-zoom.ios.ts:149-153 | with a native view, only its maximum zoom changes, to the raw value; without one, nothing changes |
| ImageZoomIos.ImageZoom.SetStretchNative | src/image-zoom.ios.ts:133-135 | the image view's stretch becomes the value; image and frame unchanged |
| ImageZoomIos.ImageZoom.SetSrcNative | src/image-zoom.ios.ts:116-131 | the image view shows what `Classify` selects; a URL leaves the image as it was; frame and stretch unchanged |
| ImageZoomIos.LayoutScenario | src/image-zoom.ios.ts:33-39 | a 1000×500 image in a 100×100 view laid out with factor 2 has native zoom 0.2 and content 200×100; a raw zoomScale write of 2 stores 2 |

## Left out

- `createNativeView`, `initNativeView`, `disposeNativeView` (lines 20-31, 50-55): they construct UIKit objects and wire the delegate. The `ImageZoom` constructor takes the two native objects as given.
- `onMeasure` (lines 41-48): it is glue to the host layout engine's `Utils.layout.getMeasureSpecSize`.
- `super.onLayout` and the placement of the native view: these belong to the host layout engine. `OnLayout` reads the bounds the engine has already given the scroll view.
- ImageZoomIos.ImageZoom.SetZoomScaleNative: the zoom-changed notification is not modelled. `initNativeView` registers the delegate (line 54), and UIKit calls `scrollViewDidZoom` after programmatic `zoomScale` writes too. That callback runs `refreshContentSize` (line 176). So in the program a raw write at line 139 on a realised view also refreshes `contentSize` and the image frame, and it throws if the image is nil. The model keeps both unchanged. The same notification follows `SetScale` inside `OnLayout`. There the final `refreshContentSize` call at line 38 leaves the same state, because `Refreshed` is idempotent (`ScrollModel.RefreshedIdempotent`).
- The `UIScrollViewDelegateImpl` bridge (lines 156-178): its behaviour depends on object lifetime through a `WeakRef`. `viewForZoomingInScrollView` and `scrollViewDidZoom` dereference `owner.get()` without a null check (lines 171, 176). They are not modelled as safe no-ops.
- The asynchronous completion of `ImageSource.fromUrl` (lines 122-124), and its race with a later `src` change: this is network I/O. `SetSrcNative` models only that nothing changes at once.
- Image decoding, `path.join` and `knownFolders` (lines 118, 126, 129): these are foreign calls, passed in as the fields of `Platform`.
- `src` values that are neither a string nor an object (numbers, `undefined`), and `null`: `Src` has only `Str` and `Obj`.
- The first `stretch` setter (lines 94-112): it is shadowed by the later definition under the same computed key (line 133).
- UIKit's clamping of `zoomScale` to the zoom limits, and pinch gestures: neither is in the code. Every native property is a plain store.
- ScrollModel.LaidOut: writes the three zoom fields in the source's order. With plain stores and no clamping, that order cannot be observed.
- A missing image at layout or refresh time: when `_image.image` is nil, `image.size` (line 75) and `this._image.image.size` (line 60) throw a TypeError. The model does not have a throwing path. `LayoutReady` (in `ScrollModel`, required by `OnLayout` and the three scale setters) and `RefreshContentSize`'s `requires imageView.image != null` exclude it. This path looks reachable in ordinary use: `onLayout` can run while an `http` fetch is still pending (lines 121-124), and then the image is still nil.
- Zero-size viewports and zero-size images: JavaScript does not throw here, and the results differ by case. For a positive image in a viewport with a zero side, that side's ratio at lines 75-76 is +Infinity. Lines 77-79 then return 0 divided by an image extent, a finite fit scale of 0. Lines 83, 87 and 91 write 0 into all three zoom fields, and the refresh sets the content to the bounds. An image with one zero side in a positive viewport gives a finite scale (0×500 in 100×100 gives 0.2). Infinity appears only for a 0×0 image, and NaN only when the image height and the viewport height are both 0. `LayoutReady` requires positive sizes for all of these, because Dafny's real division has no value at 0; the exclusion is a choice of the model.
- IEEE double rounding: all dimensions and scales are exact `real`s.
- The declarative property definitions and their defaults: `image-zoom.common.ts` is not part of this model. `minZoom`, `maxZoom` and `zoomScale` are plain fields of `ImageZoom`, stored by the property system.
