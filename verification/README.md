# Window-measurement intake: reference detection and the admin measuring editor

This project models the two pieces of pure logic in the window-measurement
intake service, and proves properties about them in Dafny.

- **The placeholder reference-object detector** (`detect_reference_object`).
  It returns no box when the photo cannot be decoded. Otherwise it returns a
  box a fifth of the image's width and height, centred in the image. The model
  reduces the decoded image to its pixel dimensions (`Option<Dimensions>`).
- **The admin canvas editor's measuring rules.** Here an operator:
  - drags a rectangle over a reference object (an A4 sheet, or an ID-1 credit
    card);
  - draws a line across the window;
  - gets the line's length in millimetres.

  Each length goes into one of three width fields or three height fields, and
  each group shows its rounded average. The model turns the editor's globals
  and input fields into an immutable `EditorState` record. Each event handler
  becomes a pure transition on that record. Drawing and DOM updates are not part
  of the model.

Modules, one per file:

| module | file | models |
|---|---|---|
| `Options` | options.dfy | `null`/`None` as `Option` |
| `Numbers` | numbers.dfy | JavaScript numbers as exact reals plus ±Infinity and NaN; `Math.round` as `Floor(x + 0.5)`; division by zero |
| `Geometry` | geometry.dfy | points, the reference box, the line; box normalisation; canvas/image mapping, zoom, pan, wheel |
| `Calibration` | calibration.dfy | reference length by type, calibration side, millimetre value of a line |
| `Slots` | slots.dfy | the three input fields per axis, placement of a new value, the average |
| `Status` | status.dfy | request status labels and their badge colours |
| `Editor` | editor.dfy | the editor-state record and every event handler modelled |
| `ReferenceDetector` | reference_detector.dfy | `detect_reference_object` |

Notes on how the model reads the code:

- JavaScript numbers are exact `real`s. Infinity and NaN are modelled only where
  the code can produce them. A reference box with zero extent (a click without a
  drag) makes `pixelsPerMm` zero. The division `linePx / pixelsPerMm` is then
  +Infinity, or NaN when the line also has zero length. The page markup of the
  fields w1 to h3 is not part of this model. The model assumes they are plain
  text inputs, which keep the text "Infinity" or "NaN". Under that assumption
  the field is non-empty, takes a slot, and `parseFloat` reads the value back.
  An "Infinity" entry then makes the average +Infinity, and a "NaN" entry is
  ignored.
- An input field is either blank or holds text together with what `parseFloat`
  reads from it (`Slots.Field`). A measurement of 0 mm is written as the
  non-empty text "0". It fills a slot but does not count in the average.
- A measurement line's length (`Math.sqrt(dx*dx + dy*dy)`) is a parameter.
  `Editor.IsLineLength` constrains it to the non-negative root.
- The handlers receive the pointer already in image coordinates. `getMousePos`
  itself is `Geometry.ToImage`.
- The three request statuses are the stored Korean labels "자료업로드"
  (uploaded), "분석완료" (analysed) and "견적완료" (quoted). They are written
  as `\U{…}` escapes in status.dfy.
- `autoDetect` calls a server action, `images:analyzeImage`, whose code is not
  part of this model.

## Model

| member | source | states |
|---|---|---|
| ReferenceDetector.DetectReferenceObject | utils/image_processing.py:3-26 | no box exactly when the image cannot be decoded; otherwise the box is W//5 by H//5, centred, with a non-negative origin, and inside the image |
| ReferenceDetector.CentredStart | utils/image_processing.py:18-23 | the start offset of a fifth-length span is non-negative, the span fits inside the image, and its midpoint is the image midpoint |
| ReferenceDetector.DetectedIsUniqueCentredFifth | utils/image_processing.py:15-26 | the detector's box is the one and only fifth-size box centred in the image (both directions) |
| ReferenceDetector.IgnoresReferenceType | utils/image_processing.py:3-26 | the result depends only on the image, never on the reference type |
| Numbers.Round | static/js/admin_analysis.js:459 | Math.round gives the integer within one half of x, with halves rounded up |
| Numbers.DivNonNegative | static/js/admin_analysis.js:459 | dividing non-negative numbers gives the exact quotient for a positive divisor; +Infinity for a positive numerator over zero; NaN for 0/0 |
| Numbers.RoundedQuotientError | static/js/admin_analysis.js:459 | rounding a quotient by a positive divisor gives a non-negative whole number whose product with the divisor is within half the divisor of the dividend |
| Numbers.RoundNum | static/js/admin_analysis.js:459 | rounding a finite number gives a whole number within one half of it; Infinity and NaN pass through unchanged |
| Geometry.NormalizeBox | static/js/admin_analysis.js:409-412 | after mouse-up the box has non-negative sides and covers the same x and y intervals as the dragged box; a box that already has non-negative sides is unchanged |
| Geometry.NormalizeIdempotent | static/js/admin_analysis.js:409-412 | normalising a second time changes nothing |
| Geometry.ToImage | static/js/admin_analysis.js:363-369 | the image point found under a canvas position is drawn at that canvas position |
| Geometry.ToImageToCanvas | static/js/admin_analysis.js:363-369 | mapping an image point to the canvas and back returns the point |
| Geometry.ZoomToPoint | static/js/admin_analysis.js:230-236 | the zoom becomes 4x and the clicked image point is drawn at the canvas centre |
| Geometry.Pan | static/js/admin_analysis.js:394-396 | panning keeps the zoom and the canvas size, and moves every image point on the canvas by the mouse movement |
| Geometry.Wheel | static/js/admin_analysis.js:437-443 | scrolling down multiplies the zoom by 0.9 and any other scroll by 1.1; the zoom stays positive and the offset and canvas size stay the same |
| Calibration.ReferenceLength | static/js/admin_analysis.js:451 | the reference length is 85.6 mm exactly for CREDIT_CARD and 297 mm for every other type |
| Calibration.CalibrationSide | static/js/admin_analysis.js:452-453 | calibration uses the longer absolute side of the box; on a tie it uses the height |
| Calibration.PixelsPerMm | static/js/admin_analysis.js:454 | pixels per millimetre times the reference length gives the calibration side; it is positive exactly when that side is |
| Calibration.MeasuredValue | static/js/admin_analysis.js:456-459 | the value is finite exactly when the box has extent; a finite value is a non-negative whole number of millimetres within half a millimetre of the line's length; otherwise it is +Infinity, or NaN for a zero-length line |
| Calibration.MeasureRoundTrip | static/js/admin_analysis.js:451-459 | on a picture at k pixels per mm, with the reference box matching the reference object, a line over an object mm millimetres long measures mm rounded |
| Slots.TargetSlot | static/js/admin_analysis.js:461-469 | the chosen slot is the first empty slot among the first two, otherwise the third |
| Slots.Place | static/js/admin_analysis.js:461-469 | the value goes into the chosen slot and the other two slots keep their contents |
| Slots.PlaceFillsFirstBlank | static/js/admin_analysis.js:461-469 | a new value fills the first empty slot, or overwrites the third when all three are full |
| Slots.PositiveValues | static/js/admin_analysis.js:475 | the kept finite values are the fields that parse to a number greater than zero, each kept as many times as it was entered |
| Slots.Average | static/js/admin_analysis.js:474-476 | the average is 0 when nothing is kept, +Infinity exactly when an entry is +Infinity, and otherwise the mean of the kept entries rounded to a whole number |
| Slots.AverageWithinBounds | static/js/admin_analysis.js:474-476 | if every kept entry lies between lo and hi, the average lies between their roundings |
| Slots.AverageBetweenKeptExtremes | static/js/admin_analysis.js:474-476 | for whole-number entries the average lies between the smallest and the largest kept entry |
| Slots.AverageIgnoresUnkept | static/js/admin_analysis.js:475 | swapping one entry the average ignores (blank, not a number, or not positive) for another such entry leaves the kept values and the average unchanged |
| Status.Parse | static/js/admin_analysis.js:203-208 | a text is a known status exactly when it is that status's label |
| Status.ParseLabel | static/js/admin_analysis.js:203-208 | every status label reads back as its own status |
| Status.ClassOf | static/js/admin_analysis.js:203-208 | no known status gets the default class |
| Status.StatusColor | static/js/admin_analysis.js:203-208 | each of the three known statuses maps to its own colour class; any other text, and only such text, maps to the default class |
| Status.StatusColorsDistinct | static/js/admin_analysis.js:203-208 | distinct statuses get distinct colours |
| Status.DisplayStatus | static/js/admin_analysis.js:88 | a request with no status, or an empty one, is shown as uploaded; otherwise it is shown with its stored status |
| Editor.UpdateAverages | static/js/admin_analysis.js:473-485 | afterwards the shown averages are those of the current fields, and nothing else changes |
| Editor.SetTool | static/js/admin_analysis.js:355-361 | the chosen tool becomes active and nothing else changes |
| Editor.OnKeyDown | static/js/admin_analysis.js:34-39 | Space in a drawing tool stores that tool and switches to select; any other key, or Space in select, changes nothing |
| Editor.OnKeyUp | static/js/admin_analysis.js:40-44 | releasing Space in select switches back to the stored tool when it is a drawing tool; in every other case nothing changes |
| Editor.SpaceRepeatIsHarmless | static/js/admin_analysis.js:34-39 | a repeated Space keydown has the same effect as a single one |
| Editor.SpaceRestoresTool | static/js/admin_analysis.js:34-44 | pressing and releasing Space in a drawing tool restores that tool |
| Editor.SpaceInSelectSwitchesToRememberedTool | static/js/admin_analysis.js:40-44 | the stored tool is never cleared, so Space pressed and released in select mode switches to the tool that was stored earlier |
| Editor.OnMouseDownAsWritten | static/js/admin_analysis.js:371-388 | as written, a press in reference mode on a locked box still starts a drag; in every other case it behaves like the corrected handler |
| Editor.OnMouseDown | static/js/admin_analysis.js:371-388 | the corrected press handler (the code as written is Editor.OnMouseDownAsWritten). In reference mode: a locked existing box changes nothing and starts no drag; below 2x zoom the editor zooms to 4x with the clicked point at the canvas centre, keeps the canvas size, records the press point and starts no box or drag; otherwise a zero-size box starts at the pointer. In measure mode a zero-length line starts at the pointer. In select mode a pan starts |
| Editor.OnMouseMove | static/js/admin_analysis.js:390-405 | a drag pans the view, or stretches the box so that its width and height are the pointer's offset from the press point (for a box started at the press, its far corner follows the pointer), or moves the line's end to the pointer; with no drag, or nothing to change, nothing changes |
| Editor.OnMouseUp | static/js/admin_analysis.js:407-417 | the drag ends and any box is normalised to non-negative sides; nothing else changes |
| Editor.OnWheel | static/js/admin_analysis.js:437-443 | only the zoom changes, by the wheel step of Geometry.Wheel; it stays positive and shrinks exactly when scrolling down |
| Editor.ToggleRefLock | static/js/admin_analysis.js:210-222 | the lock flips and nothing else changes |
| Editor.DragDrawsReferenceBox | static/js/admin_analysis.js:371-412 | a press, a drag and a release in reference mode (unlocked, at 2x zoom or more) leave a box spanning exactly the rectangle between the press point and the release point |
| Editor.LockedBoxSurvivesDrag | static/js/admin_analysis.js:371-412 | with the corrected press handler, a press, a drag and a release leave a locked box unchanged |
| Editor.LockedBoxResizedAsWritten | static/js/admin_analysis.js:371-405 | with the press handler as written, a drag resizes a locked box to the drag distance |
| Editor.LockedBoxResizedViaSpace | static/js/admin_analysis.js:34-44 | even with the corrected press, holding Space, pressing, releasing Space and then moving stretches a locked box, as in the source |
| Editor.LockedBoxKeptByEvents | static/js/admin_analysis.js:371-417 | a locked, normalised box with no reference-tool drag under way is kept, and stays out of a drag's reach, through every press, move, release, wheel, Space-down and measurement; also through Space-up and tool changes when no drag is under way |
| Editor.CalculateRealSize | static/js/admin_analysis.js:445-471 | with the box or the line missing nothing changes; otherwise the value goes to the width slots exactly when abs(dx) > abs(dy) (to the height slots otherwise), the other axis is untouched, and both averages are recomputed |
| Editor.ResetAnalysis | static/js/admin_analysis.js:487-493 | if not confirmed nothing changes; once confirmed the box, the line and all six fields are cleared, both averages are 0, and the tool, view and lock are kept |
| Editor.EventsKeepAveragesCurrent | static/js/admin_analysis.js:473-493 | after every modelled event the shown averages still match the fields |

## Findings

| source | as written | input that shows it | evidently intended | confidence | as-written member | corrected member |
|---|---|---|---|---|---|---|
| static/js/admin_analysis.js:371-383 | `onMouseDown` sets `isDragging` and `startPos` before it returns early for a locked reference box, so `onMouseMove` (397-399) then rewrites the locked box's width and height | reference tool, locked box (10, 10, 50, 30), press at (0, 0), drag to (5, 5): the box becomes (10, 10, 5, 5) | a press in reference mode on a locked box starts no drag. The Space-key path to the same resize stays open in the corrected model, as in the source (Editor.LockedBoxResizedViaSpace) | high, not executed | Editor.OnMouseDownAsWritten (exhibited by Editor.LockedBoxResizedAsWritten) | Editor.OnMouseDown (proved by Editor.LockedBoxSurvivesDrag) |

## Left out

- DOM and canvas work is not modelled: `draw`, `drawOverlaysToCtx`, the floating button, loading overlays, `renderGallery`, `resizeCanvas` and `resetZoom`. The canvas size is part of `Geometry.View`.
- `alert` is modelled only as "no state change". `confirm` becomes a boolean parameter of `Editor.ResetAnalysis`.
- Network and Convex calls are not modelled: `init`, `initConvex`, `loadRequests`, `loadRequestDetail`, `saveResult`, and `autoDetect`, which can install a reference box from the server.
- Image loading is not modelled: `selectImage` and `fitImageToCanvas` depend on loading a picture. The reference type is a field of the state.
- `downloadImage` and `copyImageToClipboard` are export I/O and are not modelled.
- `Math.sqrt` is not modelled. The line length is a parameter, constrained by `Editor.IsLineLength`.
- IEEE 754 rounding and overflow are not modelled: numbers are exact reals. Infinity and NaN appear only where division by zero produces them.
- The text written into a field is assumed to read back through `parseFloat` as the same value. This holds for whole numbers, and, for plain text inputs, for "Infinity" and "NaN".
- Slots.Average: assumes the six fields are plain text inputs, because their markup is not part of this model; a number input would clear "Infinity", so the average could never be +Infinity.
- Editor.CalculateRealSize: assumes plain text inputs too; a number input would clear an "Infinity" or "NaN" result, so that slot would stay blank.
- Text an operator types into a field is represented only by what `parseFloat` reads from it.
- `cv2.imread` and the pixel data are not modelled: the detector sees only the image's dimensions, or their absence.
- `convex/http.ts` (HTTP routing and storage proxying) and `database.py` (a schema with no behaviour) are not part of this model.
