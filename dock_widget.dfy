/**
 * The `MouseControls` dock widget: four buttons choose what a mouse drag
 * on the canvas does (zoom, step through slices, or adjust contrast), or
 * give the canvas back its own mouse handling ("Default"). The callbacks
 * never look at the button, so a drag with any button is redirected.
 *
 * Choosing a mode activates the widget: it saves the canvas's three mouse
 * callbacks and installs its own press, move and release callbacks, and it
 * switches off the camera's interactive pan/zoom. "Default" deactivates it
 * and puts the saved callbacks back. While a drag is in progress, every
 * move maps the distance from the drag's start point to a new value.
 */
module DockWidget {
  import opened DragMapping
  import opened ViewerModel

  /** `self.mode`: `None` before any button was clicked. */
  datatype Mode = Unset | Zoom | Slicing | Windowing

  /** How `our_mouse_press` ended. In windowing mode it warns and returns
      when no layer is selected; when layers are selected but none of them
      is an Image layer, `selected_layers[0]` raises IndexError. */
  datatype PressOutcome = Pressed | NoLayerSelected | ImageLayerMissing

  /** What a press records for the moves of the same drag. */
  datatype DragStart = DragStart(
    x: real, y: real,            // start_x, start_y
    zoom: real,                  // _start_zoom
    step: seq<real>,             // current_step
    layer: Layer?,               // current_layer (null until a windowing press)
    contrastMin: real,           // start_contrast_limits_minimum
    contrastMax: real)           // start_contrast_limits_maximum

  class MouseControls {
    const viewer: Viewer

    var active: bool
    var mouseDown: bool
    var mode: Mode

    // the canvas's own callbacks, saved by Activate
    var copyOnMousePress: Handler
    var copyOnMouseMove: Handler
    var copyOnMouseRelease: Handler

    // recorded at the press that starts a drag
    var startX: real
    var startY: real
    var startZoom: real
    var currentStep: seq<real>
    var currentLayer: Layer?
    var startContrastMin: real
    var startContrastMax: real

    /** While active, the canvas runs the widget's callbacks, its camera is
        not interactive and the saved callbacks are the canvas's own; while
        inactive, the canvas runs callbacks the widget did not create. A
        drag's step snapshot has one entry per dimension. */
    ghost predicate Valid()
      reads this, viewer
    {
      && viewer.Valid()
      && (active ==>
            && viewer.Handlers() == (OurPress, OurMove, OurRelease)
            && !viewer.cameraInteractive
            && !IsOurs(copyOnMousePress) && !IsOurs(copyOnMouseMove) && !IsOurs(copyOnMouseRelease))
      && (!active ==>
            !IsOurs(viewer.onMousePress) && !IsOurs(viewer.onMouseMove) && !IsOurs(viewer.onMouseRelease))
      && (mouseDown ==> |currentStep| == |viewer.dimsRange|)
    }

    /** The callbacks Activate saved. */
    ghost function Saved(): (Handler, Handler, Handler)
      reads this
    {
      (copyOnMousePress, copyOnMouseMove, copyOnMouseRelease)
    }

    /** The fields a press records. */
    ghost function Start(): DragStart
      reads this
    {
      DragStart(startX, startY, startZoom, currentStep, currentLayer, startContrastMin, startContrastMax)
    }

    /** `__init__` without the Qt layout: inactive, no drag, no mode. The
        model has one widget per viewer, so the canvas cannot yet hold the
        widget's callbacks. */
    constructor (viewer: Viewer)
      requires viewer.Valid()
      requires !IsOurs(viewer.onMousePress) && !IsOurs(viewer.onMouseMove) && !IsOurs(viewer.onMouseRelease)
      ensures Valid()
      ensures this.viewer == viewer
      ensures !active && !mouseDown && mode == Unset && currentLayer == null
    {
      this.viewer := viewer;
      active, mouseDown, mode := false, false, Unset;
      copyOnMousePress, copyOnMouseMove, copyOnMouseRelease := Foreign(0), Foreign(0), Foreign(0);
      startX, startY, startZoom, currentStep := 0.0, 0.0, 0.0, [];
      currentLayer, startContrastMin, startContrastMax := null, 0.0, 0.0;
    }

    /** `_activate`: does nothing when already active, so the saved
        callbacks are never replaced by the widget's own. Otherwise saves the
        canvas's callbacks, installs the widget's, and makes the camera
        non-interactive. */
    method Activate()
      requires Valid()
      modifies this, viewer
      ensures Valid()
      ensures old(active) ==> unchanged(this) && unchanged(viewer)
      ensures active
      ensures !old(active) ==>
                && Saved() == old(viewer.Handlers())
                && viewer.Handlers() == (OurPress, OurMove, OurRelease)
                && !viewer.cameraInteractive
      ensures mouseDown == old(mouseDown) && mode == old(mode) && Start() == old(Start())
      ensures viewer.zoom == old(viewer.zoom) && viewer.currentStep == old(viewer.currentStep)
      ensures viewer.dimsRange == old(viewer.dimsRange) && viewer.selection == old(viewer.selection)
      ensures viewer.width == old(viewer.width) && viewer.height == old(viewer.height)
    {
      if active {
        return;
      }
      copyOnMousePress := viewer.onMousePress;
      copyOnMouseMove := viewer.onMouseMove;
      copyOnMouseRelease := viewer.onMouseRelease;
      viewer.onMousePress := OurPress;
      viewer.onMouseMove := OurMove;
      viewer.onMouseRelease := OurRelease;
      viewer.cameraInteractive := false;
      active := true;
    }

    /** `_deactivate` (the "Default" button): does nothing when inactive.
        Otherwise puts the saved callbacks back and makes the camera
        interactive again. */
    method Deactivate()
      requires Valid()
      modifies this, viewer
      ensures Valid()
      ensures !old(active) ==> unchanged(this) && unchanged(viewer)
      ensures !active
      ensures old(active) ==> viewer.Handlers() == Saved() && viewer.cameraInteractive
      ensures Saved() == old(Saved())
      ensures mouseDown == old(mouseDown) && mode == old(mode) && Start() == old(Start())
      ensures viewer.zoom == old(viewer.zoom) && viewer.currentStep == old(viewer.currentStep)
      ensures viewer.dimsRange == old(viewer.dimsRange) && viewer.selection == old(viewer.selection)
      ensures viewer.width == old(viewer.width) && viewer.height == old(viewer.height)
    {
      if !active {
        return;
      }
      viewer.onMousePress := copyOnMousePress;
      viewer.onMouseMove := copyOnMouseMove;
      viewer.onMouseRelease := copyOnMouseRelease;
      viewer.cameraInteractive := true;
      active := false;
    }

    /** `_zoom`, `_slicing` and `_windowing`: activate, then choose the
        mode. When the widget was already active only the mode changes. */
    method SelectMode(m: Mode)
      requires Valid() && m != Unset
      modifies this, viewer
      ensures Valid()
      ensures active && mode == m
      ensures old(active) ==> unchanged(viewer) && Saved() == old(Saved())
      ensures !old(active) ==> Saved() == old(viewer.Handlers())
      ensures mouseDown == old(mouseDown) && Start() == old(Start())
      ensures viewer.zoom == old(viewer.zoom) && viewer.currentStep == old(viewer.currentStep)
      ensures viewer.dimsRange == old(viewer.dimsRange) && viewer.selection == old(viewer.selection)
      ensures viewer.width == old(viewer.width) && viewer.height == old(viewer.height)
    {
      Activate();
      mode := m;
    }

    /** `_zoom` */
    method SelectZoom()
      requires Valid()
      modifies this, viewer
      ensures Valid()
      ensures active && mode == Zoom
      ensures old(active) ==> unchanged(viewer) && Saved() == old(Saved())
      ensures !old(active) ==> Saved() == old(viewer.Handlers())
      ensures mouseDown == old(mouseDown) && Start() == old(Start())
      ensures viewer.zoom == old(viewer.zoom) && viewer.currentStep == old(viewer.currentStep)
      ensures viewer.dimsRange == old(viewer.dimsRange) && viewer.selection == old(viewer.selection)
      ensures viewer.width == old(viewer.width) && viewer.height == old(viewer.height)
    {
      SelectMode(Zoom);
    }

    /** `_slicing` */
    method SelectSlicing()
      requires Valid()
      modifies this, viewer
      ensures Valid()
      ensures active && mode == Slicing
      ensures old(active) ==> unchanged(viewer) && Saved() == old(Saved())
      ensures !old(active) ==> Saved() == old(viewer.Handlers())
      ensures mouseDown == old(mouseDown) && Start() == old(Start())
      ensures viewer.zoom == old(viewer.zoom) && viewer.currentStep == old(viewer.currentStep)
      ensures viewer.dimsRange == old(viewer.dimsRange) && viewer.selection == old(viewer.selection)
      ensures viewer.width == old(viewer.width) && viewer.height == old(viewer.height)
    {
      SelectMode(Slicing);
    }

    /** `_windowing` */
    method SelectWindowing()
      requires Valid()
      modifies this, viewer
      ensures Valid()
      ensures active && mode == Windowing
      ensures old(active) ==> unchanged(viewer) && Saved() == old(Saved())
      ensures !old(active) ==> Saved() == old(viewer.Handlers())
      ensures mouseDown == old(mouseDown) && Start() == old(Start())
      ensures viewer.zoom == old(viewer.zoom) && viewer.currentStep == old(viewer.currentStep)
      ensures viewer.dimsRange == old(viewer.dimsRange) && viewer.selection == old(viewer.selection)
      ensures viewer.width == old(viewer.width) && viewer.height == old(viewer.height)
    {
      SelectMode(Windowing);
    }

    /** `our_mouse_press` at canvas position (x, y). In windowing mode it
        first needs a selected Image layer, whose contrast limits it
        records; it then starts the drag and records the position, the
        current step and the zoom. */
    method Press(x: real, y: real) returns (outcome: PressOutcome)
      requires Valid()
      modifies this
      ensures Valid()
      ensures outcome == NoLayerSelected <==> mode == Windowing && |viewer.selection| == 0
      ensures outcome == ImageLayerMissing <==>
                mode == Windowing && |viewer.selection| > 0 && FirstImageLayer(viewer.selection).None?
      ensures outcome != Pressed ==> unchanged(this)
      ensures active == old(active) && mode == old(mode) && Saved() == old(Saved())
      ensures outcome == Pressed ==>
                && mouseDown
                && startX == x && startY == y
                && currentStep == viewer.currentStep
                && startZoom == viewer.zoom
                && (mode != Windowing ==>
                      currentLayer == old(currentLayer) &&
                      startContrastMin == old(startContrastMin) && startContrastMax == old(startContrastMax))
                && (mode == Windowing ==>
                      && currentLayer == viewer.selection[FirstImageLayer(viewer.selection).value]
                      && (startContrastMin, startContrastMax) == currentLayer.contrastLimits)
    {
      if mode == Windowing {
        if |viewer.selection| == 0 {
          return NoLayerSelected;
        }
        var first := FirstImageLayer(viewer.selection);
        if first.None? {
          return ImageLayerMissing;
        }
        currentLayer := viewer.selection[first.value];
        startContrastMin := currentLayer.contrastLimits.0;
        startContrastMax := currentLayer.contrastLimits.1;
      }
      mouseDown := true;
      startX := x;
      startY := y;
      currentStep := viewer.currentStep;
      startZoom := viewer.zoom;
      outcome := Pressed;
    }

    /** `_handle_move` for the mouse at (x, y) during a drag. `completed`
        is false only in windowing mode when no windowing press ever
        recorded a layer: that press is also what records the start
        contrast limits, so the source fails on reading the first of them
        before writing anything. */
    method HandleMove(x: real, y: real) returns (completed: bool)
      requires Valid() && mouseDown
      modifies viewer, currentLayer
      ensures Valid()
      ensures completed <==> !(mode == Windowing && currentLayer == null)
      ensures var relY := Relative(y - startY, viewer.height);
              viewer.zoom == if mode == Zoom then ZoomAfterDrag(startZoom, relY) else old(viewer.zoom)
      ensures var relX, relY := Relative(x - startX, viewer.width), Relative(y - startY, viewer.height);
              viewer.currentStep ==
                if mode == Slicing && HasSliceAxes(|currentStep|)
                then SlicedStep(currentStep, viewer.dimsRange, relX, relY)
                else old(viewer.currentStep)
      ensures currentLayer != null ==>
                var relX, relY := Relative(x - startX, viewer.width), Relative(y - startY, viewer.height);
                currentLayer.contrastLimits ==
                  if mode == Windowing
                  then WindowedLimits(startContrastMin, startContrastMax, relX, relY)
                  else old(currentLayer.contrastLimits)
      ensures viewer.Handlers() == old(viewer.Handlers()) && viewer.cameraInteractive == old(viewer.cameraInteractive)
      ensures viewer.dimsRange == old(viewer.dimsRange) && viewer.selection == old(viewer.selection)
      ensures viewer.width == old(viewer.width) && viewer.height == old(viewer.height)
    {
      var relX := Relative(x - startX, viewer.width);
      var relY := Relative(y - startY, viewer.height);
      completed := true;
      if mode == Zoom {
        viewer.zoom := ZoomAfterDrag(startZoom, relY);
      } else if mode == Slicing {
        var newDims := NewDims(currentStep, viewer.dimsRange, relX, relY);
        if newDims.Some? {
          viewer.currentStep := newDims.value;
        }
      } else if mode == Windowing {
        if currentLayer == null {
          return false;
        }
        currentLayer.contrastLimits := WindowedLimits(startContrastMin, startContrastMax, relX, relY);
      }
    }

    /** `our_mouse_move`: outside a drag it does nothing at all. */
    method Move(x: real, y: real)
      requires Valid()
      modifies viewer, currentLayer
      ensures Valid()
      ensures !mouseDown ==> unchanged(viewer) && (currentLayer != null ==> unchanged(currentLayer))
      ensures mouseDown ==>
                var relY := Relative(y - startY, viewer.height);
                viewer.zoom == if mode == Zoom then ZoomAfterDrag(startZoom, relY) else old(viewer.zoom)
      ensures mouseDown ==>
                var relX, relY := Relative(x - startX, viewer.width), Relative(y - startY, viewer.height);
                viewer.currentStep ==
                  if mode == Slicing && HasSliceAxes(|currentStep|)
                  then SlicedStep(currentStep, viewer.dimsRange, relX, relY)
                  else old(viewer.currentStep)
      ensures mouseDown && currentLayer != null ==>
                var relX, relY := Relative(x - startX, viewer.width), Relative(y - startY, viewer.height);
                currentLayer.contrastLimits ==
                  if mode == Windowing
                  then WindowedLimits(startContrastMin, startContrastMax, relX, relY)
                  else old(currentLayer.contrastLimits)
      ensures viewer.Handlers() == old(viewer.Handlers()) && viewer.cameraInteractive == old(viewer.cameraInteractive)
      ensures viewer.dimsRange == old(viewer.dimsRange) && viewer.selection == old(viewer.selection)
      ensures viewer.width == old(viewer.width) && viewer.height == old(viewer.height)
    {
      if !mouseDown {
        return;
      }
      var _ := HandleMove(x, y);
    }

    /** `our_mouse_release`: outside a drag it does nothing at all;
        otherwise it handles the last move and ends the drag. The drag stays
        open only when that move failed (see HandleMove). */
    method Release(x: real, y: real)
      requires Valid()
      modifies this, viewer, currentLayer
      ensures Valid()
      ensures active == old(active) && mode == old(mode) && Saved() == old(Saved()) && Start() == old(Start())
      ensures viewer.Handlers() == old(viewer.Handlers()) && viewer.cameraInteractive == old(viewer.cameraInteractive)
      ensures viewer.dimsRange == old(viewer.dimsRange) && viewer.selection == old(viewer.selection)
      ensures viewer.width == old(viewer.width) && viewer.height == old(viewer.height)
      ensures !old(mouseDown) ==> unchanged(this) && unchanged(viewer) && (currentLayer != null ==> unchanged(currentLayer))
      ensures !mouseDown <==> !old(mouseDown) || !(mode == Windowing && currentLayer == null)
      ensures old(mouseDown) ==>
                var relY := Relative(y - startY, viewer.height);
                viewer.zoom == if mode == Zoom then ZoomAfterDrag(startZoom, relY) else old(viewer.zoom)
      ensures old(mouseDown) ==>
                var relX, relY := Relative(x - startX, viewer.width), Relative(y - startY, viewer.height);
                viewer.currentStep ==
                  if mode == Slicing && HasSliceAxes(|currentStep|)
                  then SlicedStep(currentStep, viewer.dimsRange, relX, relY)
                  else old(viewer.currentStep)
      ensures old(mouseDown) && currentLayer != null ==>
                var relX, relY := Relative(x - startX, viewer.width), Relative(y - startY, viewer.height);
                currentLayer.contrastLimits ==
                  if mode == Windowing
                  then WindowedLimits(startContrastMin, startContrastMax, relX, relY)
                  else old(currentLayer.contrastLimits)
    {
      if !mouseDown {
        return;
      }
      var completed := HandleMove(x, y);
      if completed {
        mouseDown := false;
      }
    }
  }

  /** Choosing a mode and then "Default" gives the canvas back exactly the
      callbacks it had and makes its camera interactive. */
  method ModeThenDefault(w: MouseControls, m: Mode)
    requires w.Valid() && !w.active && m != Unset
    modifies w, w.viewer
    ensures w.Valid()
    ensures w.viewer.Handlers() == old(w.viewer.Handlers())
    ensures w.viewer.cameraInteractive && !w.active && w.mode == m
  {
    w.SelectMode(m);
    w.Deactivate();
  }

  /** Clicking mode buttons repeatedly never loses the canvas's callbacks:
      "Default" afterwards still restores them. */
  method ModesThenDefault(w: MouseControls, m1: Mode, m2: Mode)
    requires w.Valid() && !w.active && m1 != Unset && m2 != Unset
    modifies w, w.viewer
    ensures w.Valid()
    ensures w.viewer.Handlers() == old(w.viewer.Handlers())
    ensures w.viewer.cameraInteractive && !w.active && w.mode == m2
  {
    w.SelectMode(m1);
    w.SelectMode(m2);
    w.Deactivate();
  }
}
