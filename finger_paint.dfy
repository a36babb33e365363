/** The finger-paint screen (screens/finger_paint.py): a canvas above a
    toolbar of eight colour swatches, three brush sizes and three stamps,
    with a clear button in the top-right corner. The canvas is modelled as
    the list of marks painted on it since it was last cleared. */
module FingerPaint {
  import opened Kit
  import opened Router
  import Menus


  const Palette: seq<Rgb> := [
    Rgb(220, 30, 30), Rgb(255, 140, 0), Rgb(255, 220, 0), Rgb(30, 180, 50),
    Rgb(30, 100, 220), Rgb(130, 40, 200), Rgb(255, 100, 180), Rgb(255, 255, 255)]
  const BrushSizes: seq<int> := [6, 14, 24]

  const ToolbarHeight: int := 90
  const ToolbarY: int := Height - ToolbarHeight
  const SwatchPad: int := 6
  const BrushBtnSize: int := 40
  const StampBtnSize: int := 56
  const ClearBtnW: int := 90
  const ClearBtnH: int := 44
  /** `_clear_rect`. */
  const ClearRect: Rect := Rect(Width - ClearBtnW - 12, 16, ClearBtnW, ClearBtnH)

  datatype Stamp = StarStamp | HeartStamp | PawStamp
  const Stamps: seq<Stamp> := [StarStamp, HeartStamp, PawStamp]

  /** The toolbar geometry is a function of the swatch size: the source
      uses 60-pixel swatches, which push the stamp buttons off the screen
      (see `HeartAndPawUnreachable`); with 40-pixel swatches the toolbar
      fits the 720-pixel width exactly (see `EveryStampReachable`). The
      screen takes its swatch size when it is built. */
  const SwatchSizeAsWritten: int := 60
  const SwatchSizeCorrected: int := 40

  /** Swatch `i` of the palette row. */
  function SwatchRect(sw: int, i: nat): Rect {
    Rect(SwatchPad + i * (sw + SwatchPad), ToolbarY + (ToolbarHeight - sw) / 2, sw, sw)
  }

  function SwatchRects(sw: int): (r: seq<Rect>)
    ensures |r| == |Palette| && forall i :: 0 <= i < |Palette| ==> r[i] == SwatchRect(sw, i)
  {
    seq(|Palette|, i requires 0 <= i < |Palette| => SwatchRect(sw, i))
  }

  /** `palette_end_x`. */
  function PaletteEnd(sw: int): int {
    SwatchPad + 8 * (sw + SwatchPad) + 10
  }

  /** The centre of brush button `i`. */
  function BrushCentre(sw: int, i: nat): Point {
    Point(PaletteEnd(sw) + i * (BrushBtnSize + 8) + BrushBtnSize / 2, ToolbarY + ToolbarHeight / 2)
  }

  /** `math.hypot(mx - cx, my - cy) <= BRUSH_BTN_SIZE // 2 + 4`, on squares. */
  predicate BrushHit(sw: int, i: nat, p: Point) {
    var c := BrushCentre(sw, i);
    (p.x - c.x) * (p.x - c.x) + (p.y - c.y) * (p.y - c.y) <= (BrushBtnSize / 2 + 4) * (BrushBtnSize / 2 + 4)
  }

  /** Stamp button `i`: a square centred on its button centre. */
  function StampRect(sw: int, i: nat): Rect {
    var baseX := PaletteEnd(sw) + 3 * (BrushBtnSize + 8) + 12;
    var cx := baseX + i * (StampBtnSize + 6) + StampBtnSize / 2;
    var cy := ToolbarY + ToolbarHeight / 2;
    Rect(cx - StampBtnSize / 2, cy - StampBtnSize / 2, StampBtnSize, StampBtnSize)
  }

  function StampRects(sw: int): (r: seq<Rect>)
    ensures |r| == |Stamps| && forall i :: 0 <= i < |Stamps| ==> r[i] == StampRect(sw, i)
  {
    seq(|Stamps|, i requires 0 <= i < |Stamps| => StampRect(sw, i))
  }

  predicate OnScreen(p: Point) {
    0 <= p.x < Width && 0 <= p.y < Height
  }

  /** As written, the heart and paw stamp buttons start at x = 762 and
      x = 824, beyond the right edge of the 720-pixel screen: no tap can
      select them. */
  lemma HeartAndPawUnreachable(p: Point)
    requires OnScreen(p)
    ensures !StampRect(SwatchSizeAsWritten, 1).Contains(p) && !StampRect(SwatchSizeAsWritten, 2).Contains(p)
    ensures StampRect(SwatchSizeAsWritten, 1).x >= Width && StampRect(SwatchSizeAsWritten, 2).x >= Width
  {
  }

  /** The two geometries disagree well before the stamps: the tap
      (500, 675) lies in swatch 7 of the source's toolbar, but in no swatch
      of the corrected one, where it is on brush 2. */
  lemma ToolbarsDisagree()
    ensures SwatchRect(SwatchSizeAsWritten, 7).Contains(Point(500, 675))
    ensures forall j :: 0 <= j < |Palette| ==> !SwatchRect(SwatchSizeCorrected, j).Contains(Point(500, 675))
    ensures BrushHit(SwatchSizeCorrected, 2, Point(500, 675))
  {
  }

  /** A toolbar tap reaches stamp `i` when it is in that button and in no
      swatch and no brush button, which are tried first. */
  predicate SelectsStamp(sw: int, i: nat, p: Point) {
    && OnScreen(p) && p.y >= ToolbarY && StampRect(sw, i).Contains(p)
    && (forall j :: 0 <= j < |Palette| ==> !SwatchRect(sw, j).Contains(p))
    && (forall j :: 0 <= j < |BrushSizes| ==> !BrushHit(sw, j, p))
    && (forall j :: 0 <= j < i ==> !StampRect(sw, j).Contains(p))
  }

  /** With the corrected swatch size every stamp has an on-screen point
      that selects it: the centre of its button. */
  lemma EveryStampReachable(i: nat)
    requires i < |Stamps|
    ensures exists p :: SelectsStamp(SwatchSizeCorrected, i, p)
  {
    var r := StampRect(SwatchSizeCorrected, i);
    var p := Point(r.x + StampBtnSize / 2, r.y + StampBtnSize / 2);
    assert r.x == 540 + 62 * i;
    forall j | 0 <= j < |BrushSizes|
      ensures !BrushHit(SwatchSizeCorrected, j, p)
    {
      var c := BrushCentre(SwatchSizeCorrected, j);
      assert c.x == 404 + 48 * j && c.y == p.y;
      assert p.x - c.x >= 40;
    }
    assert SelectsStamp(SwatchSizeCorrected, i, p);
  }

  /** What the canvas receives. */
  datatype Mark =
    | Dot(at: Point, colour: Rgb, radius: int)
    | Line(from: Point, to: Point, colour: Rgb, width: int)
    | StampMark(kind: Stamp, at: Point, colour: Rgb)

  /** The first brush within reach of the point: the brush loop. */
  method FindBrush(sw: int, p: Point) returns (k: Option<nat>)
    ensures k.Some? ==> k.value < |BrushSizes| && BrushHit(sw, k.value, p)
    ensures k.Some? ==> forall j :: 0 <= j < k.value ==> !BrushHit(sw, j, p)
    ensures k.None? ==> forall j :: 0 <= j < |BrushSizes| ==> !BrushHit(sw, j, p)
  {
    var i := 0;
    while i < |BrushSizes|
      invariant 0 <= i <= |BrushSizes|
      invariant forall j :: 0 <= j < i ==> !BrushHit(sw, j, p)
    {
      if BrushHit(sw, i, p) {
        return Some(i);
      }
      i := i + 1;
    }
    return None;
  }

  class FingerPaintScreen {
    /** The toolbar's swatch size: `SwatchSizeAsWritten` for the source's
        screen. */
    const swatch: int
    var canvas: seq<Mark>
    var drawing: bool
    var lastPos: Option<Point>
    var colour: Rgb
    var brushSize: int
    var brushIndex: nat
    var stampMode: Option<Stamp>

    /** The brush size is always that of the selected brush, the colour a
        palette colour, and a stroke position is recorded only while
        drawing, and only on the canvas. */
    ghost predicate Valid() reads this {
      && brushIndex < |BrushSizes| && brushSize == BrushSizes[brushIndex]
      && colour in Palette
      && (lastPos.Some? ==> drawing && lastPos.value.y < ToolbarY)
    }

    constructor (sw: int)
      ensures swatch == sw
      ensures Valid() && canvas == [] && !drawing && lastPos == None
      ensures colour == Palette[4] && brushIndex == 1 && brushSize == 14 && stampMode == None
    {
      swatch := sw;
      canvas := [];
      drawing, lastPos := false, None;
      colour := Palette[4];
      brushSize, brushIndex := BrushSizes[1], 1;
      stampMode := None;
    }

    /** `on_enter`: a white canvas, blue, the medium brush, no stamp, not
        drawing. */
    method OnEnter()
      modifies this
      ensures Valid() && canvas == [] && !drawing && lastPos == None
      ensures colour == Palette[4] && brushIndex == 1 && brushSize == 14 && stampMode == None
    {
      canvas := [];
      drawing, lastPos := false, None;
      colour := Palette[4];
      brushSize, brushIndex := BrushSizes[1], 1;
      stampMode := None;
    }

    /** `_handle_toolbar_tap`: the first swatch hit picks its colour, else
        the first brush within reach picks its size, else a stamp button
        toggles its stamp. Picking a colour or a brush ends stamp mode. */
    method ToolbarTap(p: Point)
      requires Valid()
      modifies this
      ensures Valid() && canvas == old(canvas) && drawing == old(drawing) && lastPos == old(lastPos)
      ensures (exists j :: 0 <= j < |Palette| && SwatchRect(swatch, j).Contains(p)) ==>
        exists i :: (
          && 0 <= i < |Palette| && SwatchRect(swatch, i).Contains(p)
          && (forall j :: 0 <= j < i ==> !SwatchRect(swatch, j).Contains(p))
          && colour == Palette[i] && stampMode == None
          && brushIndex == old(brushIndex) && brushSize == old(brushSize))
      ensures ((forall j :: 0 <= j < |Palette| ==> !SwatchRect(swatch, j).Contains(p))
        && (exists j :: 0 <= j < |BrushSizes| && BrushHit(swatch, j, p))) ==>
        exists i :: (
          && 0 <= i < |BrushSizes| && BrushHit(swatch, i, p)
          && (forall j :: 0 <= j < i ==> !BrushHit(swatch, j, p))
          && brushIndex == i && brushSize == BrushSizes[i] && stampMode == None && colour == old(colour))
      ensures forall i :: 0 <= i < |Stamps| && SelectsStamp(swatch, i, p) ==>
        stampMode == (if old(stampMode) == Some(Stamps[i]) then None else Some(Stamps[i]))
        && colour == old(colour) && brushIndex == old(brushIndex) && brushSize == old(brushSize)
      ensures ((forall j :: 0 <= j < |Palette| ==> !SwatchRect(swatch, j).Contains(p))
        && (forall j :: 0 <= j < |BrushSizes| ==> !BrushHit(swatch, j, p))
        && (forall j :: 0 <= j < |Stamps| ==> !StampRect(swatch, j).Contains(p))) ==>
        unchanged(this)
    {
      var s := Menus.FirstContaining(SwatchRects(swatch), p);
      if s.Some? {
        colour := Palette[s.value];
        stampMode := None;
        return;
      }
      var b := FindBrush(swatch, p);
      if b.Some? {
        brushIndex := b.value;
        brushSize := BrushSizes[b.value];
        stampMode := None;
        return;
      }
      var t := Menus.FirstContaining(StampRects(swatch), p);
      if t.Some? {
        var stamp := Stamps[t.value];
        stampMode := if stampMode != Some(stamp) then Some(stamp) else None;
      }
    }

    /** `handle_event`. A left press goes to the back button, then the
        clear button, then the toolbar, then the canvas, where it stamps
        in stamp mode and otherwise starts a stroke with a dot. A motion
        while drawing extends the stroke on the canvas and breaks it over
        the toolbar. A left release ends the stroke. */
    method HandleEvent(e: Event) returns (nav: Nav)
      requires Valid()
      modifies this
      ensures Valid()
      ensures nav == (if e.MouseDown? && e.button == 1 && BackRect.Contains(e.pos) then GoBack else Stay)
      ensures nav == GoBack ==> unchanged(this)
      ensures e.MouseDown? && e.button == 1 && !BackRect.Contains(e.pos) && ClearRect.Contains(e.pos) ==>
        && canvas == [] && drawing == old(drawing) && lastPos == old(lastPos) && stampMode == old(stampMode)
        && colour == old(colour) && brushIndex == old(brushIndex) && brushSize == old(brushSize)
      // A toolbar tap picks the first swatch hit, else the first brush in
      // reach, else toggles the stamp whose button it selects.
      ensures (e.MouseDown? && e.button == 1 && !BackRect.Contains(e.pos) && !ClearRect.Contains(e.pos)
               && e.pos.y >= ToolbarY) ==>
        && ((exists j :: 0 <= j < |Palette| && SwatchRect(swatch, j).Contains(e.pos)) ==>
              exists i :: (
                && 0 <= i < |Palette| && SwatchRect(swatch, i).Contains(e.pos)
                && (forall j :: 0 <= j < i ==> !SwatchRect(swatch, j).Contains(e.pos))
                && colour == Palette[i] && stampMode == None
                && brushIndex == old(brushIndex) && brushSize == old(brushSize)))
        && (((forall j :: 0 <= j < |Palette| ==> !SwatchRect(swatch, j).Contains(e.pos))
             && (exists j :: 0 <= j < |BrushSizes| && BrushHit(swatch, j, e.pos))) ==>
              exists i :: (
                && 0 <= i < |BrushSizes| && BrushHit(swatch, i, e.pos)
                && (forall j :: 0 <= j < i ==> !BrushHit(swatch, j, e.pos))
                && brushIndex == i && brushSize == BrushSizes[i] && stampMode == None && colour == old(colour)))
        && (forall i :: 0 <= i < |Stamps| && SelectsStamp(swatch, i, e.pos) ==>
              stampMode == (if old(stampMode) == Some(Stamps[i]) then None else Some(Stamps[i]))
              && colour == old(colour) && brushIndex == old(brushIndex) && brushSize == old(brushSize))
        && (((forall j :: 0 <= j < |Palette| ==> !SwatchRect(swatch, j).Contains(e.pos))
             && (forall j :: 0 <= j < |BrushSizes| ==> !BrushHit(swatch, j, e.pos))
             && (forall j :: 0 <= j < |Stamps| ==> !StampRect(swatch, j).Contains(e.pos))) ==>
              unchanged(this))
      ensures e.MouseDown? && e.button == 1 && !BackRect.Contains(e.pos) && !ClearRect.Contains(e.pos) ==> (
        if e.pos.y >= ToolbarY then canvas == old(canvas) && drawing == old(drawing) && lastPos == old(lastPos)
        else
          && colour == old(colour) && brushIndex == old(brushIndex) && brushSize == old(brushSize)
          && if old(stampMode).Some? then
               canvas == old(canvas) + [StampMark(old(stampMode).value, e.pos, old(colour))]
               && drawing == old(drawing) && lastPos == old(lastPos) && stampMode == old(stampMode)
             else
               canvas == old(canvas) + [Dot(e.pos, old(colour), old(brushSize))]
               && drawing && lastPos == Some(e.pos) && stampMode == None)
      ensures e.MouseMotion? && old(drawing) ==> (
        && drawing && stampMode == old(stampMode) && colour == old(colour)
        && brushIndex == old(brushIndex) && brushSize == old(brushSize)
        && if e.pos.y < ToolbarY then
             && lastPos == Some(e.pos)
             && canvas == old(canvas) + [Dot(e.pos, colour, brushSize)]
                + (if old(lastPos).Some? then [Line(old(lastPos).value, e.pos, colour, 2 * brushSize)] else [])
           else lastPos == None && canvas == old(canvas))
      ensures e.MouseUp? && e.button == 1 ==>
        && !drawing && lastPos == None && canvas == old(canvas) && stampMode == old(stampMode)
        && colour == old(colour) && brushIndex == old(brushIndex) && brushSize == old(brushSize)
      ensures (e.MouseMotion? && !old(drawing)) || (e.MouseUp? && e.button != 1) || (e.MouseDown? && e.button != 1) || e.OtherEvent? ==>
        unchanged(this)
    {
      nav := Stay;
      match e
      case MouseDown(pos, button) =>
        if button != 1 {
          return;
        }
        if BackRect.Contains(pos) {
          nav := GoBack;
          return;
        }
        if ClearRect.Contains(pos) {
          canvas := [];
          return;
        }
        if pos.y >= ToolbarY {
          ToolbarTap(pos);
          return;
        }
        if stampMode.Some? {
          canvas := canvas + [StampMark(stampMode.value, pos, colour)];
        } else {
          drawing := true;
          lastPos := Some(pos);
          canvas := canvas + [Dot(pos, colour, brushSize)];
        }
      case MouseMotion(pos) =>
        if !drawing {
          return;
        }
        if pos.y < ToolbarY {
          var marks := [Dot(pos, colour, brushSize)];
          if lastPos.Some? {
            marks := marks + [Line(lastPos.value, pos, colour, 2 * brushSize)];
          }
          canvas := canvas + marks;
          lastPos := Some(pos);
        } else {
          lastPos := None;
        }
      case MouseUp(_, button) =>
        if button == 1 {
          drawing := false;
          lastPos := None;
        }
      case OtherEvent =>
    }
  }
}
