# napari-mouse-controls: the drag logic of `MouseControls`

`MouseControls` is a napari dock widget that changes what a mouse drag on
the canvas does, which helps on touch screens. The class docstring speaks of
the left button only, but the callbacks never test the button, so a drag with
any button is redirected. Its buttons select one of
three modes:

- **Zoom**: dragging down zooms in and dragging up zooms out.
- **Slicing**: dragging vertically moves through z. On 4-d data, dragging
  horizontally also moves through t.
- **Windowing**: dragging changes the contrast limits of the selected image
  layer. The vertical drag sets the window width and the horizontal drag
  sets the window position.

A fourth button, "Default", hands the mouse back to the canvas's own
pan/zoom handling.

The model has three modules:

- `DragMapping` (`drag_mapping.dfy`) holds the arithmetic of `_handle_move`
  as functions over `real`s:
  - the pixel delta as a fraction of the canvas size;
  - the zoom scaling;
  - the choice of z/t axes and the clamping into each axis range. The
    imperative construction of `new_dims` is the method `NewDims`, proved
    equal to the function `SlicedStep`;
  - the window width and position scaling of the contrast limits.
- `ViewerModel` (`viewer.dfy`) is the part of the napari viewer that the
  widget touches, as plain state:
  - the three mouse-callback slots of the Qt canvas, holding opaque handler
    tokens;
  - the canvas size;
  - `camera.interactive` and `camera.zoom`;
  - `dims.range` and `dims.current_step`;
  - the selected layers, each carrying its contrast limits. napari's
    selection is a set-like container that the code only counts and
    iterates; the model's `selection` sequence is its iteration order.
- `DockWidget` (`dock_widget.dfy`) is the widget itself, a class whose
  methods update its fields and the viewer's fields in place:
  - `_activate` and `_deactivate`;
  - the three mode buttons;
  - the press, move and release callbacks;
  - `_handle_move`.

  The object invariant `Valid()` says:
  - while active, the canvas runs the widget's own callbacks and the saved
    callbacks are callbacks the widget did not create;
  - while inactive, the canvas runs callbacks the widget did not create.

  That the saved callbacks are exactly the canvas's originals is stated by
  `Activate`, which saves the callbacks the canvas held before the call.

Two behaviours of the code are kept as written:

- In windowing mode, `our_mouse_press` may find layers selected but none of
  them an Image layer. The code then indexes an empty list and raises
  IndexError before it changes anything. `Press` returns `ImageLayerMissing`
  for this case and leaves the state unchanged.
- A drag can reach `_handle_move` in windowing mode without any earlier
  windowing press. This happens when the mode button is changed during a
  drag. `current_layer` is then unset, and the code raises before it writes
  anything. In `our_mouse_release` this skips `mouse_down = False`. The
  model keeps this: `HandleMove` reports `completed == false`, and `Release`
  then leaves `mouseDown` true. In every other case a release ends the drag.

## Model

| member | source | states |
|---|---|---|
| `DragMapping.Relative` | src/napari_mouse_controls/_dock_widget.py:68-72 | The relative delta times the canvas extent gives back the pixel delta. Its sign is the sign of the delta, and it is zero exactly when the delta is zero. |
| `DragMapping.ZoomAfterDrag` | src/napari_mouse_controls/_dock_widget.py:75 | A drag with no vertical component leaves the zoom at the start zoom, and a start zoom of zero stays zero whatever the drag. |
| `DragMapping.ZoomKeepsSign` | src/napari_mouse_controls/_dock_widget.py:75 | Take a positive start zoom. Dragging down zooms in and dragging up zooms out. The zoom stays positive while the upward drag is shorter than the canvas height. |
| `DragMapping.ZoomMonotone` | src/napari_mouse_controls/_dock_widget.py:75 | Take a non-negative start zoom. Dragging further down never gives a smaller zoom. |
| `DragMapping.Clamp` | src/napari_mouse_controls/_dock_widget.py:101-104 | The two-step clamp never exceeds `hi` and is at least `lo` when `lo <= hi`. A value already in range is unchanged, a value below an ordered range becomes `lo`, a value above `hi` becomes `hi`, and on an empty range (`lo > hi`) the result is `hi`. |
| `DragMapping.Shifted` | src/napari_mouse_controls/_dock_widget.py:100 | With no drag the coordinate stays where it was. |
| `DragMapping.SetClamped` | src/napari_mouse_controls/_dock_widget.py:100-104 | The write-then-raise-then-lower sequence on one list entry gives back the list with only that entry replaced by `Clamp` of the written value. |
| `DragMapping.ZAxis` | src/napari_mouse_controls/_dock_widget.py:81-87 | The z axis picked for 3 or 4 dimensions is always a valid index. |
| `DragMapping.SlicedStep` | src/napari_mouse_controls/_dock_widget.py:97-110 | The new step has the snapshot's length. With 3 dimensions only index 0 can differ from the snapshot, and with 4 dimensions only indices 0 and 1. Every moved coordinate lies in its axis range when that range is ordered. With no drag, each moved coordinate is its snapshot value clamped into range. |
| `DragMapping.SlicedZMonotone` | src/napari_mouse_controls/_dock_widget.py:100-104 | Dragging further down never gives a larger z coordinate, for any range. |
| `DragMapping.SlicedZFollowsDrag` | src/napari_mouse_controls/_dock_widget.py:100-104 | While the target stays inside the z range, z moves by exactly minus the range's span times the relative vertical drag. |
| `DragMapping.SlicedTMonotone` | src/napari_mouse_controls/_dock_widget.py:105-109 | With 4 dimensions, dragging further right never gives a smaller t coordinate, for any range. |
| `DragMapping.SlicedTFollowsDrag` | src/napari_mouse_controls/_dock_widget.py:105-109 | With 4 dimensions, while the target stays inside the t range, t moves by exactly the range's span times the relative horizontal drag. |
| `DragMapping.NewDims` | src/napari_mouse_controls/_dock_widget.py:78-110 | The imperative list construction returns a list exactly when there are 3 or 4 dimensions. That list equals `SlicedStep`. Otherwise there is nothing to write. |
| `DragMapping.WindowFactor` | src/napari_mouse_controls/_dock_widget.py:125-132 | The factor on the window width and the factor on the window position are positive on both branches, and each is 1 when there is no drag in its direction. |
| `DragMapping.WindowFactorDirection` | src/napari_mouse_controls/_dock_widget.py:125-132 | A positive drag shorter than one canvas extent gives a factor below 1 and a negative drag a factor above 1. From one full extent on, the factor is at least 2. The factor never increases over drags shorter than one extent, and never decreases from one extent on. |
| `DragMapping.WindowedLimits` | src/napari_mouse_controls/_dock_widget.py:123-137 | The new limits are symmetric about the scaled window position, and their difference is the scaled window width. With no horizontal drag the position is kept. With no vertical drag the width is kept. |
| `DragMapping.WindowingZeroDrag` | src/napari_mouse_controls/_dock_widget.py:123-137 | With zero x and y delta, the new contrast limits equal the start limits. |
| `DragMapping.WindowingWidthDirection` | src/napari_mouse_controls/_dock_widget.py:123-136 | For a non-empty window, dragging down by less than the canvas height narrows the window, and dragging up widens it. |
| `DragMapping.WindowingKeepsOrder` | src/napari_mouse_controls/_dock_widget.py:123-137 | Ordered start limits stay ordered, and strictly ordered limits stay strictly ordered. The window position keeps its sign, and a position of zero cannot be moved. |
| `ViewerModel.FirstImageLayer` | src/napari_mouse_controls/_dock_widget.py:168 | The layer picked is the first Image layer in the selection's iteration order. There is none exactly when no selected layer is an Image layer. |
| `DockWidget.MouseControls.constructor` | src/napari_mouse_controls/_dock_widget.py:20-27 | A new widget is inactive, has no drag in progress and has no mode. |
| `DockWidget.MouseControls.Activate` | src/napari_mouse_controls/_dock_widget.py:151-204 | When already active, nothing changes. Otherwise the canvas's three callbacks are saved and the widget's are installed. The camera becomes non-interactive and the widget becomes active. No other field changes. |
| `DockWidget.MouseControls.Deactivate` | src/napari_mouse_controls/_dock_widget.py:206-214 | When inactive, nothing changes. Otherwise the saved callbacks are put back, the camera becomes interactive and the widget becomes inactive. No other field changes. |
| `DockWidget.MouseControls.SelectMode` | src/napari_mouse_controls/_dock_widget.py:139-149 | After a mode button the widget is active and in that mode. If it was already active, only the mode changes. On a first click it activates as `Activate` does, and the zoom, current step, ranges, selection and canvas size are unchanged. |
| `DockWidget.MouseControls.SelectZoom` | src/napari_mouse_controls/_dock_widget.py:139-141 | `_zoom` leaves the widget active in Zoom mode. A repeated click changes only the mode. A first click saves the canvas's callbacks and leaves the zoom, current step, ranges, selection and canvas size unchanged. |
| `DockWidget.MouseControls.SelectWindowing` | src/napari_mouse_controls/_dock_widget.py:143-145 | `_windowing` leaves the widget active in Windowing mode. A repeated click changes only the mode. A first click saves the canvas's callbacks and leaves the zoom, current step, ranges, selection and canvas size unchanged. |
| `DockWidget.MouseControls.SelectSlicing` | src/napari_mouse_controls/_dock_widget.py:147-149 | `_slicing` leaves the widget active in Slicing mode. A repeated click changes only the mode. A first click saves the canvas's callbacks and leaves the zoom, current step, ranges, selection and canvas size unchanged. |
| `DockWidget.MouseControls.Press` | src/napari_mouse_controls/_dock_widget.py:159-185 | In Windowing mode, an empty selection or a selection with no Image layer returns without changing any field. Otherwise the press records the first Image layer and its limits. This happens only in Windowing mode; in other modes the layer and start limits are kept. Every successful press sets `mouse_down` and records the start position, the current step and the zoom. |
| `DockWidget.MouseControls.HandleMove` | src/napari_mouse_controls/_dock_widget.py:67-137 | Zoom mode writes only the zoom, as `ZoomAfterDrag`. Slicing mode writes only `dims.current_step`, as `SlicedStep`, and only with 3 or 4 dimensions. Windowing mode writes only the recorded layer's limits, as `WindowedLimits`. It fails without writing when no layer was recorded. The callbacks, camera mode, ranges, selection and canvas size are unchanged. |
| `DockWidget.MouseControls.Move` | src/napari_mouse_controls/_dock_widget.py:187-191 | When no drag is in progress, a move changes nothing. During a drag it has the effect of `HandleMove`, and it never touches the widget's own fields. |
| `DockWidget.MouseControls.Release` | src/napari_mouse_controls/_dock_widget.py:193-198 | When no drag is in progress, a release changes nothing. During a drag it has the effect of `HandleMove`, then ends the drag, unless that move failed. The mode, active flag, saved callbacks and drag start are unchanged. |
| `DockWidget.ModeThenDefault` | src/napari_mouse_controls/_dock_widget.py:139-214 | Choosing a mode and then "Default" restores the canvas's original press, move and release callbacks. The camera is interactive and the widget is inactive afterwards. |
| `DockWidget.ModesThenDefault` | src/napari_mouse_controls/_dock_widget.py:139-214 | After two mode clicks in a row and then "Default", the original callbacks are still restored, so a second activation never overwrites the saved originals. |

## Left out

- Qt widget construction, layout, buttons, icons and the icon file lookup (src/napari_mouse_controls/_dock_widget.py:29-64): these are user interface and file-system I/O.
- The napari plugin hook (src/napari_mouse_controls/_dock_widget.py:217-219): it is a call into the plugin framework.
- `print` and `warnings.warn`: they are diagnostics only. A warning is modelled as an early return, reported through `PressOutcome`.
- The canvas calling whichever callback is in its slots: the model has no dispatch. `Press`, `Move` and `Release` are the widget's closures, and the slots hold tokens for them.
- The mouse event object: only its `x()` and `y()` are used, as the `real` parameters of `Press`, `Move` and `Release`. The button it reports is only printed.
- napari's own camera, dims and layer subsystems: their attributes are plain fields. Any rounding, clamping or validation that napari's setters apply to `dims.current_step`, `camera.zoom` or `contrast_limits` is not modelled.
- The step size in each `dims.range` entry: `_handle_move` does not use it.
- IEEE floating point: deltas, ranges, zoom and contrast limits are exact `real`s.
- A canvas of width or height 0: the division in `_handle_move` would raise ZeroDivisionError. `Viewer.Valid()` requires both to be positive.
- A change in the number of dimensions during a drag: the model's viewer keeps `dims.range` fixed. `MouseControls.Valid()` states that a drag's step snapshot has one entry per range.
- The unused `t_range` that the code computes for 3-d data from `range[-1]`: it is never read.
- Several `MouseControls` widgets on one viewer: the model assumes one widget per viewer. The tokens `OurPress`, `OurMove` and `OurRelease` do not say which widget installed them. The code lets a second widget activate and save the first widget's closures as its originals; the model does not capture this.
- The second `len(selection) == 0` test ("Multiple layers selected", src/napari_mouse_controls/_dock_widget.py:165-167): it repeats the first test, so it can never fire.
- The `isinstance` re-test of `selected_layers[0]` (src/napari_mouse_controls/_dock_widget.py:169-171): the list holds only Image layers, so this test can never fire. When the list is empty, indexing it raises IndexError, which `Press` returns as `ImageLayerMissing`.
