/**
 The admin canvas editor as an immutable state record and pure event
 transitions. The record holds what the page keeps in globals and in its
 input fields; drawing, DOM updates and server calls are not part of it.
 */
module Editor {

  import opened Options
  import opened Numbers
  import opened Geometry
  import opened Calibration
  import opened Slots

  /** The editing tools: pan, draw the reference box, draw a measuring line. */
  datatype Tool = Select | Ref | Measure

  datatype EditorState = EditorState(
    mode: Tool,
    previousMode: Tool,
    view: View,
    dragging: bool,
    startPos: Point,
    refBox: Option<Box>,
    locked: bool,
    measureLine: Option<Line>,
    refType: string,
    widths: Slots,
    heights: Slots,
    avgWidth: Num,
    avgHeight: Num)

  /** The averages shown are those of the current fields. */
  predicate AveragesCurrent(s: EditorState)
  {
    s.avgWidth == Average(s.widths) && s.avgHeight == Average(s.heights)
  }

  /** `updateAverages`: recomputes both averages from the fields. */
  function UpdateAverages(s: EditorState): (r: EditorState)
    ensures AveragesCurrent(r)
    ensures r.(avgWidth := s.avgWidth, avgHeight := s.avgHeight) == s
  {
    s.(avgWidth := Average(s.widths), avgHeight := Average(s.heights))
  }

  /** `setTool`: selects a tool and changes nothing else. */
  function SetTool(s: EditorState, t: Tool): (r: EditorState)
    ensures r.mode == t
    ensures r.(mode := s.mode) == s
  {
    s.(mode := t)
  }

  const SpaceCode: string := "Space"

  /** Space pressed in a drawing tool remembers that tool and switches to panning. */
  function OnKeyDown(s: EditorState, code: string): (r: EditorState)
    ensures code == SpaceCode && s.mode != Select ==> r.mode == Select && r.previousMode == s.mode
    ensures code != SpaceCode || s.mode == Select ==> r == s
    ensures r.(mode := s.mode, previousMode := s.previousMode) == s
  {
    if code == SpaceCode && s.mode != Select then
      SetTool(s.(previousMode := s.mode), Select)
    else
      s
  }

  /** Space released while panning goes back to the remembered tool, if it is a drawing tool. */
  function OnKeyUp(s: EditorState, code: string): (r: EditorState)
    ensures code == SpaceCode && s.mode == Select && s.previousMode != Select ==> r.mode == s.previousMode
    ensures !(code == SpaceCode && s.mode == Select && s.previousMode != Select) ==> r == s
    ensures r.(mode := s.mode) == s
  {
    if code == SpaceCode && s.mode == Select && s.previousMode != Select then
      SetTool(s, s.previousMode)
    else
      s
  }

  /** Holding Space down (a repeated keydown) switches once: the remembered tool is kept. */
  lemma SpaceRepeatIsHarmless(s: EditorState)
    ensures OnKeyDown(OnKeyDown(s, SpaceCode), SpaceCode) == OnKeyDown(s, SpaceCode)
  {
  }

  /** Pressing and releasing Space in a drawing tool returns to that tool. */
  lemma SpaceRestoresTool(s: EditorState)
    requires s.mode != Select
    ensures OnKeyDown(s, SpaceCode).mode == Select
    ensures OnKeyUp(OnKeyDown(s, SpaceCode), SpaceCode) == s.(previousMode := s.mode)
  {
  }

  /**
   The remembered tool is never cleared, so once Space has been used, pressing
   and releasing it while the select tool is active switches to that old tool.
   */
  lemma SpaceInSelectSwitchesToRememberedTool(s: EditorState)
    requires s.mode == Select && s.previousMode != Select
    ensures OnKeyUp(OnKeyDown(s, SpaceCode), SpaceCode).mode == s.previousMode
  {
  }

  /** Zoom at which a reference-mode click starts drawing instead of zooming in. */
  const DrawZoomThreshold: real := 2.0

  /** A reference box exists and the lock is on. */
  predicate BoxLocked(s: EditorState)
  {
    s.locked && s.refBox.Some?
  }

  /** The branches of `onMouseDown` that do not involve the lock. */
  function PressUnlocked(s: EditorState, pos: Point): EditorState
  {
    var s1 := s.(dragging := true, startPos := pos);
    match s.mode
    case Ref =>
      if s.view.scale < DrawZoomThreshold then
        s1.(view := ZoomToPoint(s.view, pos), dragging := false)
      else
        s1.(refBox := Some(Box(pos.x, pos.y, 0.0, 0.0)))
    case Measure =>
      s1.(measureLine := Some(Line(pos.x, pos.y, pos.x, pos.y)))
    case Select =>
      s1
  }

  /**
   `onMouseDown` as the source writes it: the drag starts before the lock is
   checked, so a locked box is left where it is but the drag stays armed.
   */
  function OnMouseDownAsWritten(s: EditorState, pos: Point): (r: EditorState)
    ensures s.mode == Ref && BoxLocked(s) ==> r == s.(dragging := true, startPos := pos)
    ensures !(s.mode == Ref && BoxLocked(s)) ==> r == OnMouseDown(s, pos)
  {
    if s.mode == Ref && BoxLocked(s) then s.(dragging := true, startPos := pos)
    else PressUnlocked(s, pos)
  }

  /**
   `onMouseDown`, with the lock honoured: in reference mode a locked box
   leaves the editor untouched; below 2x zoom the click zooms to 4x centred on
   the clicked point without starting a drag; otherwise a zero-size box starts
   at the pointer. In the measuring tool a zero-length line starts at the pointer.
   */
  function OnMouseDown(s: EditorState, pos: Point): (r: EditorState)
    ensures s.mode == Ref && BoxLocked(s) ==> r == s
    ensures s.mode == Ref && !BoxLocked(s) && s.view.scale < DrawZoomThreshold ==>
              && r.view == ZoomToPoint(s.view, pos)
              && r.view.scale == ZoomTarget
              && ToCanvas(r.view, pos) == Point(s.view.canvasWidth / 2.0, s.view.canvasHeight / 2.0)
              && !r.dragging && r.startPos == pos
              && r.refBox == s.refBox
              && r.(view := s.view, dragging := s.dragging, startPos := s.startPos) == s
    ensures s.mode == Ref && !BoxLocked(s) && s.view.scale >= DrawZoomThreshold ==>
              && r.dragging && r.startPos == pos
              && r.refBox == Some(Box(pos.x, pos.y, 0.0, 0.0))
              && r.(refBox := s.refBox, dragging := s.dragging, startPos := s.startPos) == s
    ensures s.mode == Measure ==>
              && r.dragging && r.startPos == pos
              && r.measureLine == Some(Line(pos.x, pos.y, pos.x, pos.y))
              && r.(measureLine := s.measureLine, dragging := s.dragging, startPos := s.startPos) == s
    ensures s.mode == Select ==> r == s.(dragging := true, startPos := pos)
  {
    if s.mode == Ref && BoxLocked(s) then s
    else PressUnlocked(s, pos)
  }

  /**
   `onMouseMove` while dragging: the select tool pans by the mouse movement,
   the reference tool sets the box's width and height to the pointer's offset
   from the press point (for a box started at the press, its far corner
   follows the pointer), the measuring tool moves the line's end to the pointer. With no box or line
   to change, the source throws and nothing changes.
   */
  function OnMouseMove(s: EditorState, pos: Point, movement: Point): (r: EditorState)
    ensures !s.dragging ==> r == s
    ensures s.dragging && s.mode == Select ==> r == s.(view := Pan(s.view, movement))
    ensures s.dragging && s.mode == Ref && s.refBox.Some? ==>
              && r.refBox.Some?
              && r.refBox.value.x == s.refBox.value.x && r.refBox.value.y == s.refBox.value.y
              && s.startPos.x + r.refBox.value.w == pos.x && s.startPos.y + r.refBox.value.h == pos.y
              && r.(refBox := s.refBox) == s
    ensures s.dragging && s.mode == Measure && s.measureLine.Some? ==>
              && r.measureLine.Some?
              && r.measureLine.value.x1 == s.measureLine.value.x1
              && r.measureLine.value.y1 == s.measureLine.value.y1
              && r.measureLine.value.x2 == pos.x && r.measureLine.value.y2 == pos.y
              && r.(measureLine := s.measureLine) == s
    ensures s.mode == Ref && s.refBox.None? ==> r == s
    ensures s.mode == Measure && s.measureLine.None? ==> r == s
  {
    if !s.dragging then s
    else
      match s.mode
      case Select => s.(view := Pan(s.view, movement))
      case Ref =>
        if s.refBox.None? then s
        else s.(refBox := Some(s.refBox.value.(w := pos.x - s.startPos.x, h := pos.y - s.startPos.y)))
      case Measure =>
        if s.measureLine.None? then s
        else s.(measureLine := Some(s.measureLine.value.(x2 := pos.x, y2 := pos.y)))
  }

  /** `onMouseUp`: ends the drag and normalises the reference box to non-negative sides. */
  function OnMouseUp(s: EditorState): (r: EditorState)
    ensures !r.dragging
    ensures s.refBox.None? <==> r.refBox.None?
    ensures r.refBox.Some? ==> r.refBox.value.w >= 0.0 && r.refBox.value.h >= 0.0
    ensures r.refBox.Some? ==> r.refBox == Some(NormalizeBox(s.refBox.value))
    ensures r.(dragging := s.dragging, refBox := s.refBox) == s
  {
    var box := if s.refBox.Some? then Some(NormalizeBox(s.refBox.value)) else None;
    s.(dragging := false, refBox := box)
  }

  /** `onWheel`: zooms the view; nothing else changes. */
  function OnWheel(s: EditorState, deltaY: real): (r: EditorState)
    ensures r.view == Wheel(s.view, deltaY)
    ensures r.(view := s.view) == s
    ensures r.view.offset == s.view.offset
    ensures r.view.canvasWidth == s.view.canvasWidth && r.view.canvasHeight == s.view.canvasHeight
    ensures s.view.scale > 0.0 ==> r.view.scale > 0.0 && (r.view.scale < s.view.scale <==> deltaY > 0.0)
  {
    s.(view := Wheel(s.view, deltaY))
  }

  /** `toggleRefLock`: flips the lock and nothing else. */
  function ToggleRefLock(s: EditorState): (r: EditorState)
    ensures r.locked != s.locked
    ensures r.(locked := s.locked) == s
  {
    s.(locked := !s.locked)
  }

  /**
   Dragging out a box in reference mode (unlocked, zoomed in to at least 2x)
   leaves, after release, the box with non-negative sides spanning exactly the
   rectangle between the press point and the release point.
   */
  lemma DragDrawsReferenceBox(s: EditorState, p: Point, q: Point, movement: Point)
    requires s.mode == Ref && !BoxLocked(s) && s.view.scale >= DrawZoomThreshold
    ensures var t := OnMouseUp(OnMouseMove(OnMouseDown(s, p), q, movement));
            && t.refBox.Some? && !t.dragging
            && t.refBox.value.x == Min(p.x, q.x) && t.refBox.value.x + t.refBox.value.w == Max(p.x, q.x)
            && t.refBox.value.y == Min(p.y, q.y) && t.refBox.value.y + t.refBox.value.h == Max(p.y, q.y)
  {
    var s1 := OnMouseDown(s, p);
    var s2 := OnMouseMove(s1, q, movement);
    assert s2.refBox.value == Box(p.x, p.y, q.x - p.x, q.y - p.y);
  }

  /** With the lock honoured, a press, a drag and a release leave a locked, normalised box as it was. */
  lemma LockedBoxSurvivesDrag(s: EditorState, p: Point, q: Point, movement: Point)
    requires s.mode == Ref && BoxLocked(s) && !s.dragging
    requires s.refBox.value.w >= 0.0 && s.refBox.value.h >= 0.0
    ensures OnMouseUp(OnMouseMove(OnMouseDown(s, p), q, movement)).refBox == s.refBox
  {
  }

  /**
   As written, the same press and drag resize a locked box: its width becomes
   the horizontal drag distance.
   */
  lemma LockedBoxResizedAsWritten(s: EditorState, p: Point, q: Point, movement: Point)
    requires s.mode == Ref && BoxLocked(s) && !s.dragging
    requires q.x - p.x != s.refBox.value.w
    ensures OnMouseMove(OnMouseDownAsWritten(s, p), q, movement).refBox != s.refBox
    ensures OnMouseMove(OnMouseDownAsWritten(s, p), q, movement).refBox.value.w == q.x - p.x
  {
  }

  /**
   The corrected press does not close every path: holding Space switches to the
   select tool, a press there arms a pan, and releasing Space mid-drag returns
   to the reference tool, so the next move stretches the locked box. The
   source behaves the same way.
   */
  lemma LockedBoxResizedViaSpace(s: EditorState, p: Point, q: Point, movement: Point)
    requires s.mode == Ref && BoxLocked(s) && !s.dragging
    requires q.x - p.x != s.refBox.value.w
    ensures var t := OnMouseMove(OnKeyUp(OnMouseDown(OnKeyDown(s, SpaceCode), p), SpaceCode), q, movement);
            && t.refBox.Some? && t.refBox.value.w == q.x - p.x
            && t.refBox != s.refBox
  {
  }

  /** A locked, normalised box that no reference-tool drag is under way on. */
  predicate LockedAndIdle(s: EditorState)
  {
    && BoxLocked(s)
    && s.refBox.value.w >= 0.0 && s.refBox.value.h >= 0.0
    && !(s.dragging && s.mode == Ref)
  }

  /**
   With the corrected press, pointer, wheel, Space-down and measuring events
   leave a locked box as it is and keep it out of reach of a drag. Releasing
   Space or choosing a tool does so when no drag is under way; releasing Space
   during a drag is the path shown by `LockedBoxResizedViaSpace`.
   */
  lemma LockedBoxKeptByEvents(s: EditorState, pos: Point, movement: Point, code: string,
                              deltaY: real, linePx: real, t: Tool)
    requires LockedAndIdle(s)
    requires IsLineLength(s.measureLine, linePx)
    ensures OnMouseDown(s, pos).refBox == s.refBox && LockedAndIdle(OnMouseDown(s, pos))
    ensures OnMouseMove(s, pos, movement).refBox == s.refBox && LockedAndIdle(OnMouseMove(s, pos, movement))
    ensures OnMouseUp(s).refBox == s.refBox && LockedAndIdle(OnMouseUp(s))
    ensures OnKeyDown(s, code).refBox == s.refBox && LockedAndIdle(OnKeyDown(s, code))
    ensures OnWheel(s, deltaY).refBox == s.refBox && LockedAndIdle(OnWheel(s, deltaY))
    ensures CalculateRealSize(s, linePx).refBox == s.refBox && LockedAndIdle(CalculateRealSize(s, linePx))
    ensures !s.dragging ==> OnKeyUp(s, code).refBox == s.refBox && LockedAndIdle(OnKeyUp(s, code))
    ensures !s.dragging ==> SetTool(s, t).refBox == s.refBox && LockedAndIdle(SetTool(s, t))
  {
  }

  /** A measured line is a width when it runs more horizontally than vertically; ties are heights. */
  predicate IsWidthLine(line: Line)
  {
    Abs(line.Dx()) > Abs(line.Dy())
  }

  /** `linePx` is the line's Euclidean length (the model's stand-in for `Math.sqrt`). */
  predicate IsLineLength(line: Option<Line>, linePx: real)
  {
    linePx >= 0.0 && (line.Some? ==> linePx * linePx == line.value.Dx() * line.value.Dx() + line.value.Dy() * line.value.Dy())
  }

  /**
   `calculateRealSize`: with both a reference box and a measuring line, the
   line's length in millimetres goes to the width fields or the height fields
   and both averages are recomputed; with either missing nothing changes.
   */
  function CalculateRealSize(s: EditorState, linePx: real): (r: EditorState)
    requires IsLineLength(s.measureLine, linePx)
    ensures s.refBox.None? || s.measureLine.None? ==> r == s
    ensures s.refBox.Some? && s.measureLine.Some? ==>
              var v := MeasuredValue(linePx, s.refBox.value, s.refType);
              && (IsWidthLine(s.measureLine.value) ==> r.widths == Place(s.widths, v) && r.heights == s.heights)
              && (!IsWidthLine(s.measureLine.value) ==> r.heights == Place(s.heights, v) && r.widths == s.widths)
              && AveragesCurrent(r)
    ensures r.(widths := s.widths, heights := s.heights, avgWidth := s.avgWidth, avgHeight := s.avgHeight) == s
  {
    if s.refBox.None? || s.measureLine.None? then s
    else
      var v := MeasuredValue(linePx, s.refBox.value, s.refType);
      if IsWidthLine(s.measureLine.value) then UpdateAverages(s.(widths := Place(s.widths, v)))
      else UpdateAverages(s.(heights := Place(s.heights, v)))
  }

  /** `resetAnalysis`: once confirmed, drops the box and the line and empties every field. */
  function ResetAnalysis(s: EditorState, confirmed: bool): (r: EditorState)
    ensures !confirmed ==> r == s
    ensures confirmed ==>
              && r.refBox.None? && r.measureLine.None?
              && r.widths == EmptySlots && r.heights == EmptySlots
              && r.avgWidth == Finite(0.0) && r.avgHeight == Finite(0.0)
              && r.(refBox := s.refBox, measureLine := s.measureLine, widths := s.widths,
                    heights := s.heights, avgWidth := s.avgWidth, avgHeight := s.avgHeight) == s
  {
    if !confirmed then s
    else
      assert PositiveValues(EmptySlots) == [];
      UpdateAverages(s.(refBox := None, measureLine := None, widths := EmptySlots, heights := EmptySlots))
  }

  /** Every modelled editor event keeps the shown averages equal to those of the fields. */
  lemma EventsKeepAveragesCurrent(s: EditorState, pos: Point, movement: Point, code: string,
                                  deltaY: real, linePx: real, confirmed: bool, t: Tool)
    requires AveragesCurrent(s)
    requires IsLineLength(s.measureLine, linePx)
    ensures AveragesCurrent(OnMouseDown(s, pos))
    ensures AveragesCurrent(OnMouseMove(s, pos, movement))
    ensures AveragesCurrent(OnMouseUp(s))
    ensures AveragesCurrent(OnKeyDown(s, code)) && AveragesCurrent(OnKeyUp(s, code))
    ensures AveragesCurrent(SetTool(s, t)) && AveragesCurrent(ToggleRefLock(s))
    ensures AveragesCurrent(OnWheel(s, deltaY))
    ensures AveragesCurrent(CalculateRealSize(s, linePx))
    ensures AveragesCurrent(ResetAnalysis(s, confirmed))
  {
  }
}
