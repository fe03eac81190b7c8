/**
 * The parts of the napari viewer that the mouse-controls widget reads and
 * writes, as plain state. The real camera, dims and layer subsystems are
 * not modelled: their attributes are fields that the widget assigns.
 */
module ViewerModel {
  import opened DragMapping

  /** A mouse callback installed in one of the viewer's `on_mouse_*` slots.
      `Foreign` stands for any callback the widget did not create (napari's
      own pan/zoom handlers, say); the other three are the widget's own
      closures `our_mouse_press`, `our_mouse_move` and `our_mouse_release`. */
  datatype Handler = Foreign(id: nat) | OurPress | OurMove | OurRelease

  predicate IsOurs(h: Handler) { !h.Foreign? }

  /** A layer of the viewer; only Image layers carry contrast limits that
      windowing adjusts. */
  class Layer {
    const isImage: bool
    var contrastLimits: (real, real)

    constructor (isImage: bool, contrastLimits: (real, real))
      ensures this.isImage == isImage && this.contrastLimits == contrastLimits
    {
      this.isImage := isImage;
      this.contrastLimits := contrastLimits;
    }
  }

  /** The viewer together with its Qt canvas (`viewer.window.qt_viewer`). */
  class Viewer {
    // mouse callbacks of the Qt canvas
    var onMousePress: Handler
    var onMouseMove: Handler
    var onMouseRelease: Handler
    // size of the Qt canvas in pixels
    var width: real
    var height: real
    // camera
    var cameraInteractive: bool
    var zoom: real
    // dims: one range and one current coordinate per dimension
    var dimsRange: seq<Interval>
    var currentStep: seq<real>
    // the layers currently selected, in the order iterating napari's
    // set-like selection visits them
    var selection: seq<Layer>

    /** A canvas that is on screen has a positive size, and napari keeps one
        range per dimension. */
    ghost predicate Valid()
      reads this
    {
      width > 0.0 && height > 0.0 && |dimsRange| == |currentStep|
    }

    /** The three mouse callbacks, press, move and release. */
    ghost function Handlers(): (Handler, Handler, Handler)
      reads this
    {
      (onMousePress, onMouseMove, onMouseRelease)
    }

    constructor (press: Handler, move: Handler, release: Handler, width: real, height: real,
                 zoom: real, dimsRange: seq<Interval>, currentStep: seq<real>, selection: seq<Layer>)
      requires width > 0.0 && height > 0.0 && |dimsRange| == |currentStep|
      ensures Valid()
      ensures onMousePress == press && onMouseMove == move && onMouseRelease == release
      ensures this.width == width && this.height == height
      ensures cameraInteractive && this.zoom == zoom
      ensures this.dimsRange == dimsRange && this.currentStep == currentStep
      ensures this.selection == selection
    {
      onMousePress, onMouseMove, onMouseRelease := press, move, release;
      this.width, this.height := width, height;
      cameraInteractive, this.zoom := true, zoom;
      this.dimsRange, this.currentStep := dimsRange, currentStep;
      this.selection := selection;
    }
  }

  /** The first Image layer in the selection's iteration order, if any:
      the `selected_layers[0]` of the windowing press. */
  function FirstImageLayer(selection: seq<Layer>): (r: Option<nat>)
    ensures r.Some? ==> r.value < |selection| && selection[r.value].isImage &&
                        forall i :: 0 <= i < r.value ==> !selection[i].isImage
    ensures r.None? ==> forall i :: 0 <= i < |selection| ==> !selection[i].isImage
  {
    if |selection| == 0 then None
    else if selection[0].isImage then Some(0)
    else match FirstImageLayer(selection[1..])
         case None => None
         case Some(i) => Some(i + 1)
  }
}
