/** The shape sorter (screens/shape_sorter.py): five shapes are dragged onto
    their outlined targets, snap into place when released close enough, and
    the board rebuilds itself after a short celebration once all are placed. */
module ShapeSorter {
  import opened Kit
  import opened Router

  const ShapeCount: nat := 5
  const ShapeSize: int := 70
  const SnapDist: int := 55
  /** Length of the snap grow-and-settle animation, in seconds. */
  const SnapTime: real := 0.3
  const CelebrateTime: real := 2.5
  /** Targets sit in one row, `WIDTH // 6` apart, at `HEIGHT - 150`. */
  const Spacing: int := Width / (ShapeCount + 1)
  const TargetY: int := Height - 150
  /** Particles per snap and confetti pieces per win. */
  const SparksPerSnap: nat := 12
  const ConfettiPerWin: nat := 80

  /** One shape; `kind` indexes circle, square, triangle, star, hexagon. */
  datatype Shape = Shape(
    kind: nat,
    startX: int, startY: int,
    x: int, y: int,
    targetX: int, targetY: int,
    placed: bool, dragging: bool,
    snapAnim: real, snapping: bool)

  /** A snap particle: it flies, falls and fades. */
  datatype Spark = Spark(x: real, y: real, vx: real, vy: real, life: real)

  /** A piece of confetti (its spin is drawing only). */
  datatype Confetti = Confetti(x: real, y: real, vx: real, vy: real)

  /** A freshly built shape: at its start, not placed, not moving. */
  function NewShape(kind: nat, start: Point, target: Point): Shape {
    Shape(kind, start.x, start.y, start.x, start.y, target.x, target.y, false, false, 0.0, false)
  }

  /** What the screen keeps true of every shape: the snap clock stays
      within one animation, only placed shapes snap, and a placed shape
      sits exactly on its target. */
  predicate ShapeOk(s: Shape) {
    0.0 <= s.snapAnim <= SnapTime
    && (s.snapping ==> s.placed)
    && (s.placed ==> s.x == s.targetX && s.y == s.targetY)
  }

  /** `Shape.reset`: back to the start position with every flag cleared. */
  function Reset(s: Shape): (r: Shape)
    ensures r.x == s.startX && r.y == s.startY
    ensures !r.placed && !r.dragging && !r.snapping && r.snapAnim == 0.0
    ensures r.kind == s.kind && r.startX == s.startX && r.startY == s.startY
    ensures r.targetX == s.targetX && r.targetY == s.targetY
  {
    s.(x := s.startX, y := s.startY, placed := false, dragging := false,
       snapAnim := 0.0, snapping := false)
  }

  /** A reset shape satisfies the shape invariant, and resetting twice is
      resetting once. */
  lemma ResetOk(s: Shape)
    ensures ShapeOk(Reset(s)) && Reset(Reset(s)) == Reset(s)
  {
  }

  /** `Shape.get_scale`: 1.0 at rest; while snapping it grows to 1.3 over
      the first 40 % of the animation and settles back to 1.0. */
  function Scale(s: Shape): (r: real)
    ensures !s.snapping ==> r == 1.0
    ensures 0.0 <= s.snapAnim <= SnapTime ==> 1.0 <= r <= 1.3
  {
    if !s.snapping then 1.0
    else
      var t := s.snapAnim / SnapTime;
      if t < 0.4 then 1.0 + 0.3 * (t / 0.4)
      else 1.3 - 0.3 * ((t - 0.4) / 0.6)
  }

  /** `_point_in_shape`: every shape is hit-tested as a circle of radius
      `size + 10`; `hypot(dx, dy) <= size + 10` as squared distances. A
      point in the shape is within `size + 10` of its centre on each axis. */
  predicate PointInShape(p: Point, cx: int, cy: int, size: int)
    ensures PointInShape(p, cx, cy, size) && size + 10 >= 0 ==>
      -(size + 10) <= p.x - cx <= size + 10 && -(size + 10) <= p.y - cy <= size + 10
  {
    (if size + 10 >= 0 then DiscBoundAtMost(p.x - cx, p.y - cy, size + 10); true else true)
    && (p.x - cx) * (p.x - cx) + (p.y - cy) * (p.y - cy) <= (size + 10) * (size + 10)
  }

  /** A shape a press at `p` may pick up. */
  predicate Grabbable(s: Shape, p: Point) {
    !s.placed && PointInShape(p, s.x, s.y, ShapeSize)
  }

  /** Released within `SNAP_DIST` of its target (`dist < 55`), so within
      55 px of it on each axis. */
  predicate NearTarget(s: Shape)
    ensures NearTarget(s) ==>
      -SnapDist < s.x - s.targetX < SnapDist && -SnapDist < s.y - s.targetY < SnapDist
  {
    DiscBound(s.x - s.targetX, s.y - s.targetY, SnapDist);
    (s.x - s.targetX) * (s.x - s.targetX) + (s.y - s.targetY) * (s.y - s.targetY) < SnapDist * SnapDist
  }

  predicate AllPlaced(ss: seq<Shape>) {
    forall i :: 0 <= i < |ss| ==> ss[i].placed
  }

  function Kinds(ss: seq<Shape>): (ks: seq<nat>)
    ensures |ks| == |ss| && forall i :: 0 <= i < |ss| ==> ks[i] == ss[i].kind
  {
    seq(|ss|, i requires 0 <= i < |ss| => ss[i].kind)
  }

  /** `shapes.remove(shape); shapes.append(shape)`, with the picked shape
      updated on the way. */
  function MoveToEnd(ss: seq<Shape>, k: nat, s: Shape): (r: seq<Shape>)
    requires k < |ss|
    ensures |r| == |ss| && r[|r| - 1] == s
    ensures forall j :: 0 <= j < k ==> r[j] == ss[j]
    ensures forall j :: k <= j < |ss| - 1 ==> r[j] == ss[j + 1]
  {
    ss[..k] + ss[k + 1..] + [s]
  }

  /** Moving a shape to the end, marked as dragged, keeps the same shapes:
      the kinds are a permutation of the old ones. */
  lemma MoveToEndKinds(ss: seq<Shape>, k: nat)
    requires k < |ss|
    ensures multiset(Kinds(MoveToEnd(ss, k, ss[k].(dragging := true)))) == multiset(Kinds(ss))
  {
    var r := MoveToEnd(ss, k, ss[k].(dragging := true));
    assert ss == ss[..k] + [ss[k]] + ss[k + 1..];
    assert Kinds(ss) == Kinds(ss[..k]) + [ss[k].kind] + Kinds(ss[k + 1..]);
    assert Kinds(r) == Kinds(ss[..k]) + Kinds(ss[k + 1..]) + [ss[k].kind];
  }

  /** The shape a press at `p` picks up: the top-most (last) grabbable one,
      and none only when no shape can be grabbed there. */
  function LastGrab(ss: seq<Shape>, p: Point): (k: Option<nat>)
    ensures k.Some? ==> k.value < |ss| && Grabbable(ss[k.value], p)
    ensures k.Some? ==> forall j :: k.value < j < |ss| ==> !Grabbable(ss[j], p)
    ensures k.None? ==> forall j :: 0 <= j < |ss| ==> !Grabbable(ss[j], p)
  {
    if ss == [] then None
    else if Grabbable(ss[|ss| - 1], p) then Some(|ss| - 1)
    else LastGrab(ss[..|ss| - 1], p)
  }

  /** Pick-up scan: the `reversed(self.shapes)` loop. */
  method FindGrab(ss: seq<Shape>, p: Point) returns (k: Option<nat>)
    ensures k == LastGrab(ss, p)
  {
    var i := |ss|;
    while i > 0
      invariant 0 <= i <= |ss|
      invariant forall j :: i <= j < |ss| ==> !Grabbable(ss[j], p)
    {
      i := i - 1;
      if ss[i].placed {
        continue;
      }
      if PointInShape(p, ss[i].x, ss[i].y, ShapeSize) {
        return Some(i);
      }
    }
    return None;
  }

  /** One frame of a shape's snap animation: it never moves the shape,
      changes only the animation, and never restarts one. */
  function AnimTick(s: Shape, dt: real): (r: Shape)
    ensures r.(snapAnim := s.snapAnim, snapping := s.snapping) == s
    ensures r.snapping ==> s.snapping
  {
    if !s.snapping then s
    else if s.snapAnim + dt >= SnapTime then s.(snapAnim := SnapTime, snapping := false)
    else s.(snapAnim := s.snapAnim + dt)
  }

  /** The animation step keeps the shape invariant, never moves a shape,
      and a frame long enough to finish the animation ends it. */
  lemma AnimTickOk(s: Shape, dt: real)
    requires ShapeOk(s) && dt >= 0.0
    ensures ShapeOk(AnimTick(s, dt))
    ensures AnimTick(s, dt).(snapAnim := s.snapAnim, snapping := s.snapping) == s
    ensures s.snapping && dt >= SnapTime - s.snapAnim ==> !AnimTick(s, dt).snapping
  {
  }

  /** A sparkle after a frame: it keeps its sideways speed, ages and falls
      ever faster. */
  function SparkTick(p: Spark, dt: real): (r: Spark)
    ensures r.vx == p.vx
    ensures dt >= 0.0 ==> r.life <= p.life && r.vy >= p.vy
  {
    Spark(p.x + p.vx * dt, p.y + p.vy * dt, p.vx, p.vy + 150.0 * dt, p.life - dt)
  }

  /** The draws a fallen piece is re-dropped with: `uniform(-40, -10)` for
      its height, `uniform(0, WIDTH)` for its column and `uniform(100, 300)`
      for its fall speed. */
  predicate RedropOk(c: Confetti) {
    -40.0 <= c.y <= -10.0 && 0.0 <= c.x <= Width as real && 100.0 <= c.vy <= 300.0
  }

  /** Confetti falls; a piece more than 20 px below the screen is re-dropped
      from above with the supplied new position and speed. */
  function ConfettiTick(c: Confetti, dt: real, redrop: Confetti): (r: Confetti)
    ensures r.vx == c.vx
    ensures c.y + c.vy * dt <= (Height + 20) as real ==>
      r.x == c.x + c.vx * dt && r.y == c.y + c.vy * dt && r.vy == c.vy
    ensures c.y + c.vy * dt > (Height + 20) as real ==>
      r.x == redrop.x && r.y == redrop.y && r.vy == redrop.vy
    ensures c.y + c.vy * dt > (Height + 20) as real && RedropOk(redrop) ==> RedropOk(r)
    ensures RedropOk(redrop) ==> r.y <= (Height + 20) as real
  {
    var m := c.(x := c.x + c.vx * dt, y := c.y + c.vy * dt);
    if m.y > (Height + 20) as real then m.(y := redrop.y, x := redrop.x, vy := redrop.vy) else m
  }

  /** One celebration frame of the confetti: every piece falls, and a piece
      gone past the bottom is re-dropped with its own draw. */
  function ConfettiFrame(cs: seq<Confetti>, dt: real, redrop: nat -> Confetti): (r: seq<Confetti>)
    ensures |r| == |cs| && forall j :: 0 <= j < |cs| ==> r[j] == ConfettiTick(cs[j], dt, redrop(j))
  {
    seq(|cs|, j requires 0 <= j < |cs| => ConfettiTick(cs[j], dt, redrop(j)))
  }

  /** With re-drops drawn from the source's ranges, no piece is left more
      than 20 px below the screen after a frame, so confetti keeps falling
      for as long as the celebration lasts. */
  lemma ConfettiFrameStays(cs: seq<Confetti>, dt: real, redrop: nat -> Confetti)
    requires forall j: nat :: RedropOk(redrop(j))
    ensures forall j :: 0 <= j < |cs| ==> ConfettiFrame(cs, dt, redrop)[j].y <= (Height + 20) as real
  {
    forall j | 0 <= j < |cs|
      ensures ConfettiFrame(cs, dt, redrop)[j].y <= (Height + 20) as real
    {
      assert RedropOk(redrop(j));
    }
  }

  /** The five shapes of a new round: targets evenly spaced along one row,
      starts as drawn. */
  function BuildShapes(starts: seq<Point>): (ss: seq<Shape>)
    requires |starts| == ShapeCount
    ensures |ss| == ShapeCount && Kinds(ss) == [0, 1, 2, 3, 4]
    ensures forall i :: 0 <= i < ShapeCount ==>
      ss[i] == NewShape(i, starts[i], Point(Spacing * (i + 1), TargetY))
  {
    seq(ShapeCount, i requires 0 <= i < ShapeCount =>
      NewShape(i, starts[i], Point(Spacing * (i + 1), TargetY)))
  }

  /** A fresh round has nothing placed, so it is not already won, and
      every shape satisfies the shape invariant. */
  lemma BuildShapesFresh(starts: seq<Point>)
    requires |starts| == ShapeCount
    ensures !AllPlaced(BuildShapes(starts))
    ensures forall i :: 0 <= i < ShapeCount ==> ShapeOk(BuildShapes(starts)[i]) && !BuildShapes(starts)[i].dragging
  {
    assert !BuildShapes(starts)[0].placed;
  }

  /** Start positions come from `randint(120, WIDTH - 120)` and
      `randint(130, 300)`. */
  predicate StartsInRange(starts: seq<Point>) {
    forall i :: 0 <= i < |starts| ==>
      120 <= starts[i].x <= Width - 120 && 130 <= starts[i].y <= 300
  }

  class ShapeSorterScreen {
    var shapes: seq<Shape>
    var sparks: seq<Spark>
    var confetti: seq<Confetti>
    /** Index of the dragged shape; it is always the last one. */
    var dragged: Option<nat>
    var dragOffset: Point
    var celebrating: bool
    var celebrateTimer: real
    /** Set by the first draw. */
    var backRect: Option<Rect>

    /** The dragged shape is the last one, flagged and not placed;
        every shape keeps the shape invariant; a celebration means every
        shape is placed and nothing is held. */
    ghost predicate Valid() reads this {
      (dragged.Some? ==>
        |shapes| > 0 && dragged.value == |shapes| - 1
        && shapes[|shapes| - 1].dragging && !shapes[|shapes| - 1].placed)
      && (forall i :: 0 <= i < |shapes| ==> ShapeOk(shapes[i]))
      && (celebrating ==> AllPlaced(shapes) && dragged.None?)
    }

    constructor ()
      ensures Valid()
      ensures shapes == [] && sparks == [] && confetti == [] && dragged == None
      ensures !celebrating && celebrateTimer == 0.0 && backRect == None
    {
      shapes, sparks, confetti := [], [], [];
      dragged := None;
      dragOffset := Point(0, 0);
      celebrating := false;
      celebrateTimer := 0.0;
      backRect := None;
    }

    /** The only state drawing changes: the back button's rectangle. */
    method Draw()
      modifies this
      ensures backRect == Some(BackRect)
      ensures shapes == old(shapes) && dragged == old(dragged) && celebrating == old(celebrating)
      ensures sparks == old(sparks) && confetti == old(confetti)
      ensures dragOffset == old(dragOffset) && celebrateTimer == old(celebrateTimer)
      ensures Valid() <==> old(Valid())
    {
      backRect := Some(BackRect);
    }

    /** `_build_shapes`: a new round with everything else cleared. */
    method Build(starts: seq<Point>)
      requires |starts| == ShapeCount && StartsInRange(starts)
      modifies this
      ensures Valid()
      ensures shapes == BuildShapes(starts)
      ensures sparks == [] && confetti == [] && dragged == None
      ensures !celebrating && celebrateTimer == 0.0 && backRect == old(backRect)
      ensures dragOffset == old(dragOffset)
    {
      shapes := BuildShapes(starts);
      BuildShapesFresh(starts);
      sparks, confetti := [], [];
      celebrating := false;
      celebrateTimer := 0.0;
      dragged := None;
    }

    method OnEnter(starts: seq<Point>)
      requires |starts| == ShapeCount && StartsInRange(starts)
      modifies this
      ensures Valid() && shapes == BuildShapes(starts)
      ensures sparks == [] && confetti == [] && dragged == None && !celebrating
      ensures celebrateTimer == 0.0 && backRect == old(backRect) && dragOffset == old(dragOffset)
    {
      Build(starts);
    }

    /** Press, drag and release. While celebrating every event is ignored.
        A press on the back button goes back; any other press picks up the
        top-most unplaced shape under it and moves it to the end of the
        list. A release near the target snaps the shape onto it, adds 12
        sparks, and a release that completes the board starts the
        celebration with 80 pieces of confetti. */
    method HandleEvent(e: Event, spark: nat -> Spark, drop: nat -> Confetti) returns (nav: Nav)
      requires Valid()
      modifies this
      ensures Valid()
      ensures multiset(Kinds(shapes)) == multiset(Kinds(old(shapes)))
      ensures nav == GoBack <==>
        (!old(celebrating) && e.MouseDown? && e.button == 1
         && old(backRect).Some? && old(backRect).value.Contains(e.pos))
      ensures nav != GoBack ==> nav == Stay
      ensures nav == GoBack ==> unchanged(this)
      ensures backRect == old(backRect)
      // A press off the back button picks up the last unplaced shape under
      // the finger, or nothing when no shape can be grabbed there.
      ensures (!old(celebrating) && e.MouseDown? && e.button == 1
               && !(old(backRect).Some? && old(backRect).value.Contains(e.pos))) ==>
        && sparks == old(sparks) && confetti == old(confetti) && !celebrating
        && celebrateTimer == old(celebrateTimer)
        && var k := LastGrab(old(shapes), e.pos);
           if k.Some? then
             && shapes == MoveToEnd(old(shapes), k.value, old(shapes)[k.value].(dragging := true))
             && dragged == Some(|shapes| - 1)
             && dragOffset == Point(old(shapes)[k.value].x - e.pos.x, old(shapes)[k.value].y - e.pos.y)
           else
             shapes == old(shapes) && dragged == old(dragged) && dragOffset == old(dragOffset)
      // A drag moves the held shape to the finger plus the recorded offset.
      ensures !old(celebrating) && e.MouseMotion? && old(dragged).Some? ==>
        var last := |old(shapes)| - 1;
        && shapes == old(shapes)[last := old(shapes)[last].(x := e.pos.x + dragOffset.x, y := e.pos.y + dragOffset.y)]
        && dragged == old(dragged) && dragOffset == old(dragOffset)
        && sparks == old(sparks) && confetti == old(confetti) && celebrating == old(celebrating)
        && celebrateTimer == old(celebrateTimer)
      // A release lets go; within 55 px it snaps the shape onto its target
      // with 12 sparks, and completing the board starts the celebration.
      ensures !old(celebrating) && e.MouseUp? && e.button == 1 && old(dragged).Some? ==>
        && dragged.None? && dragOffset == old(dragOffset)
        && (var s := old(shapes)[|old(shapes)| - 1];
            if NearTarget(s) then
              shapes == old(shapes)[|old(shapes)| - 1 := s.(x := s.targetX, y := s.targetY,
                placed := true, dragging := false, snapping := true, snapAnim := 0.0)]
              && sparks == old(sparks) + Draws(SparksPerSnap, j => spark(j).(x := s.targetX as real, y := s.targetY as real))
            else
              shapes == old(shapes)[|old(shapes)| - 1 := s.(dragging := false)] && sparks == old(sparks))
        && (celebrating <==> AllPlaced(shapes))
        && (celebrating ==> celebrateTimer == CelebrateTime && confetti == old(confetti) + Draws(ConfettiPerWin, drop))
        && (!celebrating ==> confetti == old(confetti) && celebrateTimer == old(celebrateTimer))
      // While celebrating every event is ignored, and so is any other event.
      ensures (|| old(celebrating)
               || (e.MouseDown? && e.button != 1)
               || (e.MouseMotion? && old(dragged).None?)
               || (e.MouseUp? && (e.button != 1 || old(dragged).None?))
               || e.OtherEvent?) ==>
        && shapes == old(shapes) && sparks == old(sparks) && confetti == old(confetti)
        && dragged == old(dragged) && dragOffset == old(dragOffset)
        && celebrating == old(celebrating) && celebrateTimer == old(celebrateTimer)
    {
      nav := Stay;
      if celebrating {
        return;
      }
      match e {
        case MouseDown(pos, button) =>
          if button != 1 {
            return;
          }
          if backRect.Some? && backRect.value.Contains(pos) {
            return GoBack;
          }
          Press(pos);
        case MouseMotion(pos) =>
          if dragged.Some? {
            Drag(pos);
          }
        case MouseUp(pos, button) =>
          if button == 1 && dragged.Some? {
            Release(spark, drop);
          }
        case OtherEvent =>
      }
    }

    /** A press off the back button: pick up the shape `LastGrab` names,
        if any. */
    method Press(pos: Point)
      requires Valid() && !celebrating
      modifies this
      ensures Valid()
      ensures multiset(Kinds(shapes)) == multiset(Kinds(old(shapes)))
      ensures sparks == old(sparks) && confetti == old(confetti) && !celebrating
      ensures celebrateTimer == old(celebrateTimer) && backRect == old(backRect)
      ensures var k := LastGrab(old(shapes), pos);
        if k.Some? then
          && shapes == MoveToEnd(old(shapes), k.value, old(shapes)[k.value].(dragging := true))
          && dragged == Some(|shapes| - 1)
          && dragOffset == Point(old(shapes)[k.value].x - pos.x, old(shapes)[k.value].y - pos.y)
        else
          shapes == old(shapes) && dragged == old(dragged) && dragOffset == old(dragOffset)
    {
      var k := FindGrab(shapes, pos);
      if k.Some? {
        PickUp(k.value, pos);
      }
    }

    /** A drag: the held shape follows the finger, keeping its offset. */
    method Drag(pos: Point)
      requires Valid() && dragged.Some? && !celebrating
      modifies this
      ensures Valid()
      ensures var last := |old(shapes)| - 1;
        shapes == old(shapes)[last := old(shapes)[last].(x := pos.x + dragOffset.x, y := pos.y + dragOffset.y)]
      ensures multiset(Kinds(shapes)) == multiset(Kinds(old(shapes)))
      ensures dragged == old(dragged) && dragOffset == old(dragOffset)
      ensures sparks == old(sparks) && confetti == old(confetti) && !celebrating
      ensures celebrateTimer == old(celebrateTimer) && backRect == old(backRect)
    {
      var last := shapes[|shapes| - 1];
      var moved := last.(x := pos.x + dragOffset.x, y := pos.y + dragOffset.y);
      assert Kinds(shapes[|shapes| - 1 := moved]) == Kinds(shapes);
      shapes := shapes[|shapes| - 1 := moved];
    }

    /** Grab shape `i` at `pos`: it becomes the dragged last shape and keeps
        the offset between itself and the finger. A shape that was being
        dragged by an earlier press keeps its `dragging` flag. */
    method PickUp(i: nat, pos: Point)
      requires Valid() && !celebrating
      requires i < |shapes| && Grabbable(shapes[i], pos)
      modifies this
      ensures Valid()
      ensures shapes == MoveToEnd(old(shapes), i, old(shapes)[i].(dragging := true))
      ensures dragged == Some(|shapes| - 1)
      ensures dragOffset == Point(old(shapes)[i].x - pos.x, old(shapes)[i].y - pos.y)
      ensures multiset(Kinds(shapes)) == multiset(Kinds(old(shapes)))
      ensures sparks == old(sparks) && confetti == old(confetti) && !celebrating
      ensures celebrateTimer == old(celebrateTimer) && backRect == old(backRect)
    {
      var s := shapes[i];
      MoveToEndKinds(shapes, i);
      shapes := MoveToEnd(shapes, i, s.(dragging := true));
      dragged := Some(|shapes| - 1);
      dragOffset := Point(s.x - pos.x, s.y - pos.y);
    }

    /** Let go of the dragged shape. */
    method Release(spark: nat -> Spark, drop: nat -> Confetti)
      requires Valid() && dragged.Some? && !celebrating
      modifies this
      ensures Valid() && dragged.None?
      ensures var s := old(shapes)[|old(shapes)| - 1];
        if NearTarget(s) then
          shapes == old(shapes)[|old(shapes)| - 1 := s.(x := s.targetX, y := s.targetY,
            placed := true, dragging := false, snapping := true, snapAnim := 0.0)]
          && sparks == old(sparks) + Draws(SparksPerSnap, j => spark(j).(x := s.targetX as real, y := s.targetY as real))
        else
          shapes == old(shapes)[|old(shapes)| - 1 := s.(dragging := false)] && sparks == old(sparks)
      ensures celebrating <==> AllPlaced(shapes)
      ensures celebrating ==>
        celebrateTimer == CelebrateTime && confetti == old(confetti) + Draws(ConfettiPerWin, drop)
      ensures !celebrating ==> confetti == old(confetti) && celebrateTimer == old(celebrateTimer)
      ensures multiset(Kinds(shapes)) == multiset(Kinds(old(shapes)))
      ensures backRect == old(backRect) && dragOffset == old(dragOffset)
    {
      var last := |shapes| - 1;
      var s := shapes[last].(dragging := false);
      dragged := None;
      if NearTarget(s) {
        s := s.(x := s.targetX, y := s.targetY, placed := true, snapping := true, snapAnim := 0.0);
        sparks := sparks + Draws(SparksPerSnap, j => spark(j).(x := s.targetX as real, y := s.targetY as real));
      }
      assert Kinds(shapes[last := s]) == Kinds(shapes);
      shapes := shapes[last := s];
      if AllPlaced(shapes) {
        celebrating := true;
        celebrateTimer := CelebrateTime;
        confetti := confetti + Draws(ConfettiPerWin, drop);
      }
    }

    /** One frame: snap animations advance, spent sparks are dropped, and
        during a celebration the timer runs down and confetti falls; when
        the timer runs out a new round is built. */
    method Update(dt: real, redrop: nat -> Confetti, starts: seq<Point>)
      requires Valid() && dt >= 0.0
      requires forall j: nat :: RedropOk(redrop(j))
      requires |starts| == ShapeCount && StartsInRange(starts)
      modifies this
      ensures Valid()
      ensures forall i :: 0 <= i < |sparks| ==> sparks[i].life > 0.0
      ensures backRect == old(backRect)
      // The celebration ends when its timer runs out: a new round.
      ensures old(celebrating) && old(celebrateTimer) - dt <= 0.0 ==>
        && shapes == BuildShapes(starts) && !celebrating && celebrateTimer == 0.0
        && confetti == [] && sparks == [] && dragged == None
      ensures !(old(celebrating) && old(celebrateTimer) - dt <= 0.0) ==>
        && |shapes| == |old(shapes)|
        && (forall i :: 0 <= i < |shapes| ==> shapes[i] == AnimTick(old(shapes)[i], dt))
        && sparks == Filter(Map(old(sparks), (p: Spark) => SparkTick(p, dt)), (p: Spark) => p.life > 0.0)
        && celebrating == old(celebrating)
        && dragged == old(dragged) && dragOffset == old(dragOffset)
      // Before that the timer counts down by the frame and the confetti
      // falls, none of it left more than 20 px below the screen.
      ensures old(celebrating) && old(celebrateTimer) - dt > 0.0 ==>
        && celebrateTimer == old(celebrateTimer) - dt
        && confetti == ConfettiFrame(old(confetti), dt, redrop)
        && forall j :: 0 <= j < |confetti| ==> confetti[j].y <= (Height + 20) as real
      // Outside a celebration neither the timer nor the confetti moves.
      ensures !old(celebrating) ==>
        celebrateTimer == old(celebrateTimer) && confetti == old(confetti)
    {
      Animate(dt);
      sparks := Filter(Map(sparks, (p: Spark) => SparkTick(p, dt)), (p: Spark) => p.life > 0.0);
      assert forall k :: 0 <= k < |sparks| ==> sparks[k] in sparks;
      if celebrating {
        Celebrate(dt, redrop, starts);
      }
    }

    /** The celebration part of a frame: the timer runs down and the
        confetti falls; once the timer runs out a new round is built. */
    method Celebrate(dt: real, redrop: nat -> Confetti, starts: seq<Point>)
      requires Valid() && celebrating
      requires forall j: nat :: RedropOk(redrop(j))
      requires |starts| == ShapeCount && StartsInRange(starts)
      modifies this
      ensures Valid() && backRect == old(backRect)
      ensures old(celebrateTimer) - dt <= 0.0 ==>
        && shapes == BuildShapes(starts) && !celebrating && celebrateTimer == 0.0
        && confetti == [] && sparks == [] && dragged == None
      ensures old(celebrateTimer) - dt > 0.0 ==>
        && celebrating && celebrateTimer == old(celebrateTimer) - dt
        && confetti == ConfettiFrame(old(confetti), dt, redrop)
        && (forall j :: 0 <= j < |confetti| ==> confetti[j].y <= (Height + 20) as real)
        && shapes == old(shapes) && sparks == old(sparks)
        && dragged == old(dragged) && dragOffset == old(dragOffset)
    {
      celebrateTimer := celebrateTimer - dt;
      ConfettiFrameStays(confetti, dt, redrop);
      confetti := ConfettiFrame(confetti, dt, redrop);
      if celebrateTimer <= 0.0 {
        Build(starts);
      }
    }

    /** The `for shape in self.shapes` loop of `update`: every snap
        animation advances. */
    method Animate(dt: real)
      requires Valid() && dt >= 0.0
      modifies this
      ensures Valid()
      ensures |shapes| == |old(shapes)|
      ensures forall i :: 0 <= i < |shapes| ==> shapes[i] == AnimTick(old(shapes)[i], dt)
      ensures sparks == old(sparks) && confetti == old(confetti) && celebrating == old(celebrating)
      ensures celebrateTimer == old(celebrateTimer) && backRect == old(backRect)
      ensures dragged == old(dragged) && dragOffset == old(dragOffset)
    {
      var ss := shapes;
      var i := 0;
      while i < |ss|
        invariant 0 <= i <= |ss| == |shapes|
        invariant forall j :: 0 <= j < i ==> ss[j] == AnimTick(shapes[j], dt)
        invariant forall j :: i <= j < |ss| ==> ss[j] == shapes[j]
      {
        ss := ss[i := AnimTick(ss[i], dt)];
        i := i + 1;
      }
      forall j | 0 <= j < |ss| ensures ShapeOk(ss[j]) {
        AnimTickOk(shapes[j], dt);
      }
      shapes := ss;
    }
  }
}
