# Screen-Pencil annotation state machine in Dafny

Screen-Pencil is a full-screen overlay. It shows a screenshot and lets the user draw on it: freehand strokes, highlighter marks, straight lines, rectangles and circles. This project models the state machine behind the drawing, from `ScreenDrawApp` in `pencil.py`.

The state has two parts:

- Document state: the strokes (`lines`), the shapes (`shapes`) and the undo history. The history is a stack of `("line" | "shape", index)` entries.
- Tool state: the mode, the `drawing` flag, the anchor point of a shape, the pen size, the current colour and its alpha, the zoom and the panel visibility.

The pointer handlers, erasing, undo, clearing, mode and colour changes and the keyboard dispatch all change this state.

Modules:

- `Sequences` (sequences.dfy): order-preserving filter, removal by index, index ranges.
- `Geometry` (geometry.dfy): integer points, the strict-radius test and the normalized-box test.
- `Colors` (colors.dfy): colours as values, the palette, and the darken/lighten clamps of the tool buttons.
- `Annotations` (annotations.dfy): strokes, shapes, history entries and the document value `Canvas`. Each document-changing operation is defined here as a function.
- `History` (history.dfy): the history invariant `Consistent` (the "line" entries hold exactly the indices 0..|lines|-1 in order, and likewise for "shape"), which operations keep it, and when undo is a true inverse.
- `Erasing` (erasing.dfy): exactly what an erase removes and keeps.
- `Tools` (tools.dfy): the six modes and the highlighter alpha rule.
- `Shortcuts` (shortcuts.dfy): the two key tables of `keyPressEvent` and the order in which they are checked.
- `Pencil` (pencil.dfy): class `ScreenDrawApp`. Its fields are the ones the source mutates, and its methods are proved against the `Annotations` functions on `Document()`.
- `Sessions` (sessions.dfy): clients composed from the method contracts: a completed stroke or shape followed by undo, a mode key followed by a press, a palette pick.

The main results:

- Drawing, moving, releasing, undoing and clearing keep `Consistent`.
- Under `Consistent`, undo always removes the newest element of the tagged list and never skips an entry.
- After N drawing actions, k ≤ N undos give exactly the canvas after N − k actions.
- An erase keeps `Consistent` only when it removes nothing. `History.EraseThenUndo` shows how undo then goes wrong: the first undo does nothing, and the second removes a stroke whose own entry was the one skipped.
- Ctrl+C in `keyPressEvent` selects circle mode and never reaches `clear_canvas`, because the plain table is checked first. The Clear button's own Ctrl+C shortcut (pencil.py:267) is outside this model.

Inputs that the model takes as parameters:

- Handler positions are already zoom-adjusted integer points.
- Mouse buttons and the Control modifier are booleans.
- A key is one of the keys the two tables name, or some other key.

## Model

| member | source | states |
|---|---|---|
| `Sequences.Filter` | pencil.py:594-597 | Every element of the result passes the test, and the result is never longer than the input. |
| `Sequences.FilterSelects` | pencil.py:594-597 | The filter keeps exactly the positions whose element passes the test, in strictly increasing order, and nothing else. |
| `Sequences.FilterUnchanged` | pencil.py:600-615 | The filter returns its input unchanged exactly when every element passes, which is also exactly when it drops nothing. |
| `Sequences.RemoveAt` | pencil.py:465 | `list.pop(i)`: one element shorter; elements before i stay in place and elements after i move down by one. |
| `Geometry.Near` | pencil.py:596 | The eraser's proximity test, with no contract of its own: squared distance strictly below the squared radius, in unbounded integers as in Python. Its properties are `Geometry.NearSelf` and the erase lemmas. |
| `Geometry.InBox` | pencil.py:608-609 | Containment in the normalized box of two corners, inclusive on all edges, with no contract of its own. Its properties are `Geometry.BoxNormalized` and `Erasing.ErasedShapes`. |
| `Geometry.BoxNormalized` | pencil.py:608-609 | The normalized box does not depend on which corner came first, and it contains both corners. |
| `Geometry.NearSelf` | pencil.py:591-596 | The eraser position is within its own radius exactly when the radius is nonzero. `Erasing.EraseRemovesTouched` builds on it. |
| `Colors.PaletteOpaque` | pencil.py:313-320 | The ten palette colours are opaque, and the initial colour is the first of them. `Tools.PalettePickMatchesMode` builds on it. |
| `Colors.DarkenChannel` | pencil.py:64 | A channel becomes at most 30 darker, and less than 30 only when clamped at 0. |
| `Colors.LightenChannel` | pencil.py:69 | A channel becomes at most 30 lighter, and less than 30 only when clamped at 255. |
| `Colors.Darken` | pencil.py:61-64 | No channel gets lighter. |
| `Colors.Lighten` | pencil.py:66-69 | No channel gets darker. |
| `Colors.LightenDarken` | pencil.py:61-69 | Lighten after darken gives each channel raised to at least 30. Darken after lighten gives each channel lowered to at most 225. Away from the clamps the two undo each other. |
| `Annotations.PushStroke` | pencil.py:549-551 | A press in free or highlighter mode, as a definition with no contract of its own: append the stroke and push ("line", its index). Its properties are the `History` lemmas on it. |
| `Annotations.ExtendLast` | pencil.py:566 | A move in free or highlighter mode, as a definition with no contract of its own: append the point to the last stroke. Its properties are `History.ExtendLastConsistent` and `History.ExtendPushedStroke`. |
| `Annotations.PushShape` | pencil.py:582-583 | A release in a shape mode, as a definition with no contract of its own: append the shape and push ("shape", its index). Its properties are `History.PushShapeConsistent` and `History.UndoPushShape`. |
| `Annotations.Undo` | pencil.py:462-467 | Undo as a definition with no contract of its own: pop the newest entry and remove its index from the tagged list when in bounds. Its properties are `History.UndoAtMostOne`, `History.UndoRemovesNewest` and `History.UndoConsistent`. |
| `Annotations.EraseRadius` | pencil.py:591 | The erase radius, twice the pen size; a definition with no contract of its own. |
| `Annotations.StrokeHit` | pencil.py:596 | A stroke is hit when some point is `Near` the eraser; a definition with no contract of its own. `Erasing.ErasedStrokes` states what it selects. |
| `Annotations.ShapeHit` | pencil.py:603-610 | A line shape is hit through either endpoint, a rect or circle through its normalized box; a definition with no contract of its own. `Erasing.ErasedShapes` states what it selects. |
| `Annotations.SurvivingStrokes` | pencil.py:594-597 | The strokes that are not hit, in order; a definition with no contract of its own. |
| `Annotations.SurvivingShapes` | pencil.py:600-615 | The shapes that are not hit, in order; a definition with no contract of its own. |
| `Annotations.Erase` | pencil.py:589-615 | erase_at as a definition with no contract of its own: keep the unhit strokes and shapes, leave the history. Its properties are the `Erasing` lemmas and `History.EraseConsistent`. |
| `Tools.ShapeKindOf` | pencil.py:581-582 | A release stores its shape mode as the shape kind: line, rect or circle. |
| `Tools.ModeAlpha` | pencil.py:419-425 | The alpha is 100 exactly for highlighter mode and 255 exactly for every other mode. |
| `Tools.Chosen` | pencil.py:427-431 | The chosen colour keeps its RGB. It keeps its alpha unless the mode is highlighter, where the alpha becomes 100. |
| `Tools.PalettePickMatchesMode` | pencil.py:313-331 | A palette button yields, in every mode, a colour with the alpha the mode calls for and the button's own channels (palette colours being values here, see Left out). |
| `Shortcuts.PlainShortcut` | pencil.py:619-628 | The plain table of keyPressEvent (H, F, L, N, R, C, E, Escape), as a definition with no contract of its own. |
| `Shortcuts.CtrlShortcut` | pencil.py:632-637 | The Ctrl table (D, C, Z, S), as a definition with no contract of its own. |
| `Shortcuts.Dispatch` | pencil.py:630-640 | The plain table first, then the Ctrl table when Ctrl is held, else nothing; a definition with no contract of its own. Its properties are `Shortcuts.DispatchOrder`. |
| `Shortcuts.DispatchOrder` | pencil.py:617-640 | Ctrl+C selects circle mode. No key press through `keyPressEvent` clears the canvas (the Clear button's own Ctrl+C shortcut, pencil.py:265-267, is outside this model). Plain keys ignore Ctrl. Toggle-draw, undo and save need Ctrl. Without Ctrl only the plain table can act. |
| `History.Consistent` | pencil.py:549-583 | The history invariant, a predicate with no contract of its own: the "line" entries hold exactly the indices 0..|lines|-1 in push order, and likewise for "shape". This is what makes undo at pencil.py:462-467 remove the newest element. |
| `History.BlankConsistent` | pencil.py:182-184 | The empty document satisfies the history invariant. |
| `History.PushStrokeConsistent` | pencil.py:549-551 | Appending a stroke and pushing ("line", its index) keeps the invariant. |
| `History.PushShapeConsistent` | pencil.py:581-583 | Appending a shape and pushing ("shape", its index) keeps the invariant. |
| `History.ExtendLastConsistent` | pencil.py:565-566 | Extending the last stroke keeps the invariant exactly when it held before. |
| `History.UndoAtMostOne` | pencil.py:459-467 | An empty history: undo changes nothing. Otherwise the history loses exactly its newest entry. At most one of the two lists changes, and it changes only by removing the recorded index from the tagged list when that index is in bounds. In every other case both lists stay as they were. |
| `History.UndoRemovesNewest` | pencil.py:459-467 | Under the invariant, the popped entry always names the last element of its list, and undo removes exactly that element. It never skips. |
| `History.UndoConsistent` | pencil.py:459-467 | Undo keeps the invariant. |
| `History.UndoPushStroke` | pencil.py:549-551 | Undo right after a stroke was added restores the previous document exactly, whatever the history held. |
| `History.UndoPushShape` | pencil.py:581-583 | Undo right after a shape was added restores the previous document exactly. |
| `History.ExtendPushedStroke` | pencil.py:565-566 | Moves after a press only grow the newest stroke. The document is still "previous document plus one stroke". |
| `History.UndoReplay` | pencil.py:462-467 | After N drawing actions, k ≤ N undos give exactly the document after the first N − k actions. |
| `History.ReplayConsistent` | pencil.py:549-583 | Any sequence of drawing actions from a consistent document yields a consistent document. |
| `History.EraseConsistent` | pencil.py:589-615 | On a consistent document, an erase keeps the invariant exactly when it removes nothing. |
| `History.EraseThenUndo` | pencil.py:459-467 | Draw a at the origin and b far away, then erase at the origin. The first undo does nothing. The second removes b, although it was b's entry that the first undo popped. |
| `Erasing.ErasedStrokes` | pencil.py:591-597 | The surviving strokes are, in their original order, exactly those with no point whose squared distance to p is below radius². `EraseAt` uses radius 2·pen_size. |
| `Erasing.ErasedShapes` | pencil.py:600-615 | The surviving shapes are, in their original order: the lines with neither endpoint strictly within the radius, and the rectangles and circles whose normalized box does not contain p. |
| `Erasing.EraseRemovesTouched` | pencil.py:591-615 | With a nonzero radius, an erase leaves no stroke through the eraser position and no shape with an endpoint or corner there. |
| `Erasing.EraseShrinks` | pencil.py:589-615 | An erase never touches the history and never adds strokes or shapes. |
| `Erasing.EraseIdempotent` | pencil.py:589-615 | A second erase at the same point removes nothing more. |
| `Pencil.CollectSurvivingStrokes` | pencil.py:594-597 | The comprehension over the strokes returns exactly the surviving strokes. |
| `Pencil.CollectSurvivingShapes` | pencil.py:600-615 | The accumulating loop over the shapes returns exactly the surviving shapes. |
| `Pencil.ScreenDrawApp.constructor` | pencil.py:174-188 | The initial state: nothing drawn, free mode, colour #e74c3c at alpha 255, pen size 5, zoom 1.0, panel shown, not drawing. The history invariant and the alpha rule hold. |
| `Pencil.ScreenDrawApp.ToggleDrawMode` | pencil.py:390-407 | Flips drawing mode. Turning it on captures a background and leaves the document as it was. Turning it off resets: no background, empty document, zoom 1.0. |
| `Pencil.ScreenDrawApp.TogglePanel` | pencil.py:411-417 | Flips panel visibility and changes nothing else. |
| `Pencil.ScreenDrawApp.SetMode` | pencil.py:419-425 | Sets the mode and sets the current colour's alpha to 100 for highlighter and 255 otherwise. Afterwards the alpha matches the mode. |
| `Pencil.ScreenDrawApp.ChangeColor` | pencil.py:427-431 | Installs the chosen colour, forcing alpha 100 in highlighter mode. Afterwards the alpha matches the mode exactly when the mode is highlighter or the chosen colour is opaque. |
| `Pencil.ScreenDrawApp.UpdatePenSize` | pencil.py:433-436 | Sets the pen size. |
| `Pencil.ScreenDrawApp.UpdateZoom` | pencil.py:438-442 | Sets the zoom, kept as the slider value in tenths. |
| `Pencil.ScreenDrawApp.ClearCanvas` | pencil.py:444-449 | Strokes, shapes and history are empty afterwards, whatever they held before. Nothing else changes. |
| `Pencil.ScreenDrawApp.ResetDrawingState` | pencil.py:451-457 | Like clearing, and also no background and zoom 1.0. |
| `Pencil.ScreenDrawApp.Undo` | pencil.py:459-470 | The new document is the undo of the old one. The history invariant is kept. The tool state is not touched. |
| `Pencil.ScreenDrawApp.EraseAt` | pencil.py:589-615 | The new document is the old one with the hit strokes and shapes dropped, for radius 2·pen_size. The invariant survives exactly when nothing was removed. |
| `Pencil.ScreenDrawApp.MousePress` | pencil.py:538-555 | Does nothing unless drawing mode is on and the left button is pressed. Otherwise it sets drawing and both anchor points. In free or highlighter mode it appends a one-point stroke with the current colour and pen size and records it. In eraser mode it erases and records nothing. Outside eraser mode the invariant is kept. |
| `Pencil.ScreenDrawApp.MouseMove` | pencil.py:557-571 | Does nothing unless drawing mode is on, a drag is active and the left button is held. In free or highlighter mode it appends the point to the last stroke only. In eraser mode it erases. In shape modes nothing changes. |
| `Pencil.ScreenDrawApp.MouseRelease` | pencil.py:573-587 | Does nothing unless drawing mode is on and it is the left button. In line, rect or circle mode it appends (mode, anchor, p, colour, size) and pushes ("shape", its index). In every mode it ends with drawing off and no anchor. The invariant is kept. |
| `Pencil.ScreenDrawApp.KeyPress` | pencil.py:617-640 | Performs the dispatched command and touches nothing else: it never changes the drawing flag, the anchor, the last point or the pen size, so `Valid()` carries over. The panel toggle changes only the panel. Mode selection sets the mode and its alpha and keeps the document, panel, draw mode, background and zoom. The draw-mode toggle flips draw mode and behaves as `ToggleDrawMode`, keeping mode, colour and panel. Undo is the document's undo and keeps all tool state. Escape, save and unknown keys leave the state unchanged. The invariant is kept. |
| `Sessions.StrokeThenUndo` | pencil.py:538-587 | Press, two moves, release and then undo in free/highlighter mode leave the document exactly as it was. |
| `Sessions.ShapeThenUndo` | pencil.py:538-587 | Press, move, release and then undo in a shape mode leave the document exactly as it was. |
| `Sessions.HighlightThenPress` | pencil.py:617-627 | Key L and then a press add one stroke at the press point, with the pen size, the colour's channels and the highlighter alpha 100. |
| `Sessions.PickPaletteColor` | pencil.py:329-335 | Pressing a palette button in any mode leaves the alpha rule holding and installs the button's channels; mode and document are kept. |

## Left out

- Painting, style sheets, layout, tooltips and the `CompactPanel`, `ColorButton` and `CompactSlider` widgets: these are rendering and toolkit glue with no state logic.
- Screen capture and export: `grabWindow` is modelled only as "a background is now held" (`hasBackground`). `save_png` (file dialog, render, PNG write, hiding the panel for the capture) and closing the window are I/O. `KeyPress` treats Escape and Ctrl+S as leaving the modelled state unchanged.
- Error dialogs and the `try/except` wrappers: they only report errors.
- Zoom arithmetic: `value / 10.0` and `int(pos / zoom_factor)` are floating point. The handlers receive already-adjusted integer points, and the zoom is kept as the slider's integer value in tenths.
- `Geometry.InBox`: Qt's `QRect(start, end).normalized().contains(p)` is modelled as inclusive min/max bounds on both axes. Qt's own edge rules for degenerate rectangles, such as an end corner exactly one pixel left of or above the start, are not modelled, because the Qt source is not part of this model.
- Colour aliasing: in the source, strokes, shapes, palette entries and `current_color` share one mutable `QColor`. A later `setAlpha` therefore also changes the alpha of items already drawn and of palette entries. The model deliberately treats colours as values, so a stroke keeps the colour it was drawn with. For the same reason the model's palette stays opaque, while in the source a palette entry picked in highlighter mode keeps alpha 100.
- Hex parsing of `QColor("#rrggbb")` is library code. Colours arrive already parsed, and `Darken`/`Lighten` return the RGB triple rather than the `rgb(r, g, b)` string.
- Shape kinds other than line, rect and circle: a shape is only ever created by a release in one of those three modes. The model's `ShapeKind` therefore has exactly three values, and the "other kinds are kept" branch of `erase_at` cannot occur.
- `Pencil.ScreenDrawApp.MouseMove`: requires a non-empty stroke list when it would extend a stroke. In the source, `lines[-1]` raises only when the stroke list is empty, for instance when a drag began in another mode on an empty document or every stroke was undone mid-drag. That crash is excluded rather than modelled. When the list is not empty the source extends whatever stroke is last, even an older unrelated one, and the model does the same.
- `Pencil.ScreenDrawApp.MouseRelease`: requires an active drag when a shape would be recorded. The source assumes `start_point` was set by a press; without a press it stores `None` as the corner, and a later erase crashes on it.
- `last_point` is stored but not used by any modelled logic.
- Event delivery itself (Qt's event loop) is not modelled. Each handler is a method that the environment may call in any order.
