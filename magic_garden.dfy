/** Magic garden (screens/magic_garden.py): pick a tool (flower, tree,
    butterfly, bee) and tap to plant it, up to 30 items; each planting
    throws ten sparkles. A clear button empties the garden. */
module MagicGarden {
  import opened Kit
  import opened Router

  const MaxItems: nat := 30
  /** Where the grass starts (`HEIGHT - 200`). */
  const GrassTop: int := Height - 200
  /** Taps at or above this height never plant (the tool bar). */
  const PlantMinY: int := 90
  const SparklesPerPlant: nat := 10
  const TreeColour: Rgb := Rgb(100, 200, 80)
  const BeeColour: Rgb := Rgb(255, 220, 60)
  const ClearRect: Rect := Rect(Width - 80 - 12, 16, 80, 50)

  datatype Tool = Flower | Tree | Butterfly | Bee

  /** A planted item: its kind, its planting point, its age, and the colour
      its sparkles were based on. Butterflies and bees flutter around the
      planting point with sine curves, which are not modelled. */
  datatype Item = Item(kind: Tool, x: int, baseY: int, age: real, colour: Rgb)

  datatype Sparkle = Sparkle(x: real, y: real, vx: real, vy: real, colour: Rgb,
                             life: real, maxLife: real, radius: real)
  /** The random parts of one sparkle, and its colour jitter. */
  datatype SparkleDraw = SparkleDraw(vx: real, vy: real, life: real, radius: real,
                                     dr: int, dg: int, db: int)

  /** The tool under button index `i` of `TOOL_DEFS`. */
  function ToolAt(i: nat): (t: Tool)
    requires i < 4
    ensures i == 0 <==> t == Flower
    ensures i == 1 <==> t == Tree
    ensures i == 2 <==> t == Butterfly
    ensures i == 3 <==> t == Bee
  {
    [Flower, Tree, Butterfly, Bee][i]
  }

  /** The four tool buttons as laid out by `draw`. */
  function ToolRects(): (rs: seq<Rect>)
    ensures |rs| == 4
    ensures forall i :: 0 <= i < 4 ==> rs[i] == Rect(110 + i * 130, 10, 120, 62)
  {
    seq(4, i => Rect(110 + i * 130, 10, 120, 62))
  }

  /** `min(255, max(0, v))`. */
  function Channel(v: int): (c: int)
    ensures 0 <= c <= 255
    ensures 0 <= v <= 255 ==> c == v
    ensures v < 0 ==> c == 0
    ensures v > 255 ==> c == 255
  {
    Min(255, Max(0, v))
  }

  /** One sparkle at the planting point, its colour the jittered base
      colour with every channel clamped to [0, 255]. */
  function NewSparkle(x: int, y: int, c: Rgb, d: SparkleDraw): (s: Sparkle)
    ensures 0 <= s.colour.red <= 255 && 0 <= s.colour.green <= 255 && 0 <= s.colour.blue <= 255
    ensures s.x == x as real && s.y == y as real && s.life == s.maxLife == d.life
  {
    Sparkle(x as real, y as real, d.vx, d.vy,
            Rgb(Channel(c.red + d.dr), Channel(c.green + d.dg), Channel(c.blue + d.db)),
            d.life, d.life, d.radius)
  }

  /** A sparkle after a frame: it keeps its sideways speed, colour and
      size, ages and falls ever faster. */
  function SparkleTick(s: Sparkle, dt: real): (r: Sparkle)
    ensures r.(x := s.x, y := s.y, vy := s.vy, life := s.life) == s
    ensures dt >= 0.0 ==> r.life <= s.life && r.vy >= s.vy
  {
    s.(x := s.x + s.vx * dt, y := s.y + s.vy * dt, vy := s.vy + 120.0 * dt, life := s.life - dt)
  }

  predicate SparklesLive(ss: seq<Sparkle>) { forall s :: s in ss ==> s.life > 0.0 }

  /** Sparkles move and fall; spent ones go. */
  function SparklesFrame(ss: seq<Sparkle>, dt: real): (r: seq<Sparkle>)
    ensures SparklesLive(r) && |r| <= |ss|
    ensures forall s :: s in ss && s.life - dt > 0.0 ==> SparkleTick(s, dt) in r
    ensures forall q :: q in r ==> exists s :: s in ss && q == SparkleTick(s, dt)
  {
    var moved := Map(ss, (s: Sparkle) => SparkleTick(s, dt));
    assert forall s :: s in ss ==> SparkleTick(s, dt) in moved by {
      forall s | s in ss ensures SparkleTick(s, dt) in moved {
        var i :| 0 <= i < |ss| && ss[i] == s;
        assert moved[i] == SparkleTick(s, dt);
      }
    }
    assert forall q :: q in moved ==> exists s :: s in ss && q == SparkleTick(s, dt) by {
      forall q | q in moved ensures exists s :: s in ss && q == SparkleTick(s, dt) {
        var i :| 0 <= i < |moved| && moved[i] == q;
        assert ss[i] in ss;
      }
    }
    Filter(moved, (s: Sparkle) => s.life > 0.0)
  }

  /** Every item grows one frame older; nothing else about it changes. */
  function AgeItems(items: seq<Item>, dt: real): (r: seq<Item>)
    ensures |r| == |items|
    ensures forall i :: 0 <= i < |items| ==>
      r[i].age == items[i].age + dt && r[i] == items[i].(age := r[i].age)
  {
    Map(items, (it: Item) => it.(age := it.age + dt))
  }

  /** The planting point of a tap with `tool`: flowers sit at least 10 px
      into the grass, trees 20 px; butterflies and bees where tapped. */
  function PlantY(tool: Tool, y: int): (py: int)
    ensures tool == Flower ==> py >= GrassTop + 10 && (y >= GrassTop + 10 ==> py == y)
    ensures tool == Tree ==> py >= GrassTop + 20 && (y >= GrassTop + 20 ==> py == y)
    ensures tool in {Butterfly, Bee} ==> py == y
    ensures py >= y
  {
    match tool
    case Flower => Max(GrassTop + 10, y)
    case Tree => Max(GrassTop + 20, y)
    case _ => y
  }

  /** The base colour of the sparkles: the flower's petal colour or the
      butterfly's wing colour (both drawn at random: `drawn`), else fixed. */
  function SparkleBase(tool: Tool, drawn: Rgb): (r: Rgb)
    ensures tool == Flower || tool == Butterfly ==> r == drawn
    ensures tool == Tree ==> r == TreeColour
    ensures tool == Bee ==> r == BeeColour
    ensures 0 <= drawn.red <= 255 && 0 <= drawn.green <= 255 && 0 <= drawn.blue <= 255 ==>
      0 <= r.red <= 255 && 0 <= r.green <= 255 && 0 <= r.blue <= 255
  {
    match tool
    case Flower => drawn
    case Tree => TreeColour
    case Butterfly => drawn
    case Bee => BeeColour
  }

  /** The first tool button containing `p`, if any. */
  method FindTool(rects: seq<Rect>, p: Point) returns (k: Option<nat>)
    ensures k.Some? ==> k.value < |rects| && rects[k.value].Contains(p)
    ensures k.Some? ==> forall j :: 0 <= j < k.value ==> !rects[j].Contains(p)
    ensures k.None? ==> forall j :: 0 <= j < |rects| ==> !rects[j].Contains(p)
  {
    var i := 0;
    while i < |rects|
      invariant 0 <= i <= |rects|
      invariant forall j :: 0 <= j < i ==> !rects[j].Contains(p)
    {
      if rects[i].Contains(p) {
        return Some(i);
      }
      i := i + 1;
    }
    return None;
  }

  /** What a press does, in order of precedence. */
  datatype Outcome = Back | Cleared | Picked(tool: Tool) | Planted | Ignored

  class MagicGardenScreen {
    var items: seq<Item>
    var sparkles: seq<Sparkle>
    var selectedTool: Tool
    var time: real
    /** The rectangles `draw` records; empty until the first draw. */
    var backRect: Option<Rect>
    var toolRects: seq<Rect>
    var clearRect: Option<Rect>

    /** Never more than 30 items; tool buttons, once drawn, are the four. */
    ghost predicate Valid() reads this {
      |items| <= MaxItems && (toolRects == [] || toolRects == ToolRects())
    }

    constructor ()
      ensures Valid() && items == [] && sparkles == [] && selectedTool == Flower && time == 0.0
      ensures backRect == None && toolRects == [] && clearRect == None
    {
      items, sparkles := [], [];
      selectedTool := Flower;
      time := 0.0;
      backRect, toolRects, clearRect := None, [], None;
    }

    /** The state `draw` changes: the rectangles of back, tools and clear. */
    method Draw()
      requires Valid()
      modifies this
      ensures Valid()
      ensures backRect == Some(BackRect) && toolRects == ToolRects() && clearRect == Some(ClearRect)
      ensures items == old(items) && sparkles == old(sparkles)
      ensures selectedTool == old(selectedTool) && time == old(time)
    {
      backRect := Some(BackRect);
      toolRects := ToolRects();
      clearRect := Some(ClearRect);
    }

    /** An empty garden, the flower tool, time zero. */
    method OnEnter()
      requires Valid()
      modifies this
      ensures Valid() && items == [] && sparkles == [] && selectedTool == Flower && time == 0.0
      ensures backRect == old(backRect) && toolRects == old(toolRects) && clearRect == old(clearRect)
    {
      items, sparkles := [], [];
      selectedTool := Flower;
      time := 0.0;
    }

    /** A press (any button): back, then clear (items and sparkles go),
        then a tool button (it becomes the tool), then planting, which
        happens only below y = 90 and while fewer than 30 items exist. */
    method HandleEvent(e: Event, drawn: Rgb, spark: nat -> SparkleDraw) returns (nav: Nav, out: Outcome)
      requires Valid()
      modifies this
      ensures Valid()
      ensures nav == (if out == Back then GoBack else Stay)
      ensures !e.MouseDown? ==> out == Ignored
      ensures e.MouseDown? ==> (
        if old(backRect).Some? && old(backRect).value.Contains(e.pos) then out == Back
        else if old(clearRect).Some? && old(clearRect).value.Contains(e.pos) then out == Cleared
        else if exists i :: 0 <= i < |old(toolRects)| && old(toolRects)[i].Contains(e.pos) then out.Picked?
        else if e.pos.y > PlantMinY && |old(items)| < MaxItems then out == Planted
        else out == Ignored)
      ensures out == Cleared ==> items == [] && sparkles == []
      ensures out.Picked? ==> (
        && selectedTool == out.tool && items == old(items) && sparkles == old(sparkles)
        && exists i :: (
          && 0 <= i < |old(toolRects)| && old(toolRects)[i].Contains(e.pos)
          && (forall j :: 0 <= j < i ==> !old(toolRects)[j].Contains(e.pos))
          && out.tool == ToolAt(i)))
      ensures out == Planted ==>
        var y := PlantY(old(selectedTool), e.pos.y);
        var base := SparkleBase(old(selectedTool), drawn);
        && items == old(items) + [Item(old(selectedTool), e.pos.x, y, 0.0, base)]
        && sparkles == old(sparkles) + Draws(SparklesPerPlant, j => NewSparkle(e.pos.x, y, base, spark(j)))
        && forall j :: |old(sparkles)| <= j < |sparkles| ==> (
          && 0 <= sparkles[j].colour.red <= 255 && 0 <= sparkles[j].colour.green <= 255
          && 0 <= sparkles[j].colour.blue <= 255)
      ensures !out.Picked? ==> selectedTool == old(selectedTool)
      ensures out in {Back, Ignored} ==> items == old(items) && sparkles == old(sparkles)
      ensures time == old(time) && backRect == old(backRect)
      ensures toolRects == old(toolRects) && clearRect == old(clearRect)
    {
      nav, out := Stay, Ignored;
      if !e.MouseDown? {
        return;
      }
      var pos := e.pos;
      if backRect.Some? && backRect.value.Contains(pos) {
        return GoBack, Back;
      }
      if clearRect.Some? && clearRect.value.Contains(pos) {
        items, sparkles := [], [];
        return Stay, Cleared;
      }
      var k := FindTool(toolRects, pos);
      if k.Some? {
        selectedTool := ToolAt(k.value);
        return Stay, Picked(selectedTool);
      }
      if pos.y > PlantMinY && |items| < MaxItems {
        Plant(pos, drawn, spark);
        out := Planted;
      }
    }

    /** Plant the selected tool's item at the tap and throw ten sparkles. */
    method Plant(pos: Point, drawn: Rgb, spark: nat -> SparkleDraw)
      requires Valid() && |items| < MaxItems
      modifies this
      ensures Valid()
      ensures var y := PlantY(selectedTool, pos.y);
        var base := SparkleBase(selectedTool, drawn);
        && items == old(items) + [Item(selectedTool, pos.x, y, 0.0, base)]
        && sparkles == old(sparkles) + Draws(SparklesPerPlant, j => NewSparkle(pos.x, y, base, spark(j)))
      ensures |sparkles| == |old(sparkles)| + SparklesPerPlant && sparkles[..|old(sparkles)|] == old(sparkles)
      ensures forall j :: |old(sparkles)| <= j < |sparkles| ==> (
        && 0 <= sparkles[j].colour.red <= 255 && 0 <= sparkles[j].colour.green <= 255
        && 0 <= sparkles[j].colour.blue <= 255)
      ensures selectedTool == old(selectedTool) && time == old(time) && backRect == old(backRect)
      ensures toolRects == old(toolRects) && clearRect == old(clearRect)
    {
      var y := PlantY(selectedTool, pos.y);
      var base := SparkleBase(selectedTool, drawn);
      sparkles := sparkles + Draws(SparklesPerPlant, j => NewSparkle(pos.x, y, base, spark(j)));
      assert sparkles[..|old(sparkles)|] == old(sparkles);
      forall j | |old(sparkles)| <= j < |sparkles|
        ensures 0 <= sparkles[j].colour.red <= 255 && 0 <= sparkles[j].colour.green <= 255
        ensures 0 <= sparkles[j].colour.blue <= 255
      {
        assert sparkles[j] == NewSparkle(pos.x, y, base, spark(j - |old(sparkles)|));
      }
      items := items + [Item(selectedTool, pos.x, y, 0.0, base)];
    }

    /** One frame: time and every item's age advance by `dt`; sparkles
        move and spent ones go. */
    method Update(dt: real)
      requires Valid()
      modifies this
      ensures Valid() && time == old(time) + dt
      ensures items == AgeItems(old(items), dt)
      ensures sparkles == SparklesFrame(old(sparkles), dt) && SparklesLive(sparkles)
      ensures selectedTool == old(selectedTool) && backRect == old(backRect)
      ensures toolRects == old(toolRects) && clearRect == old(clearRect)
    {
      time := time + dt;
      items := AgeItems(items, dt);
      sparkles := SparklesFrame(sparkles, dt);
    }
  }
}
