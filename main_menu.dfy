/** The main menu (screens/main_menu.py): three large buttons leading to
    the games, the shows and the videos, behind a dozen decorative shapes
    drifting left to right. There is no back button. */
module MainMenu {
  import opened Kit
  import opened Router
  import opened Menus
  import Ui

  const ButtonCount: nat := 3
  /** `games_btn`, `shows_btn`, `videos_btn`. */
  const Buttons: seq<Rect> := [Rect(110, 300, 500, 100), Rect(110, 430, 500, 100), Rect(110, 560, 500, 100)]
  /** `states`: button `i` leads to `States[i]`. */
  const States: seq<ScreenId> := [Kit.GamesMenu, Kit.Shows, Kit.Videos]
  const ShapeCount: nat := 12
  /** A shape is sent back to the left once its x passes this line. */
  const WrapX: real := 760.0

  /** The three buttons are stacked with gaps, so at most one contains a
      point. */
  lemma ButtonsDisjoint(i: nat, j: nat, p: Point)
    requires i < j < ButtonCount
    ensures !(Buttons[i].Contains(p) && Buttons[j].Contains(p))
  {
  }

  datatype ShapeKind = Star | Heart | Circle

  /** The six pastel colours `reset` chooses from. */
  const Pastels: seq<Rgb> := [
    Rgb(255, 200, 220), Rgb(200, 220, 255), Rgb(255, 255, 180),
    Rgb(220, 200, 255), Rgb(180, 255, 220), Rgb(255, 180, 200)]

  /** The random values `FloatingShape.reset` draws. */
  datatype ShapeDraw = ShapeDraw(
    x: real, y: real, speedX: real, speedY: real, size: int,
    phase: real, spin: real, alpha: int, colour: Rgb, kind: ShapeKind)

  /** The ranges of those draws. */
  predicate DrawOk(d: ShapeDraw) {
    && -40.0 <= d.x <= -10.0 && 50.0 <= d.y <= (Height - 50) as real
    && 15.0 <= d.speedX <= 40.0 && -8.0 <= d.speedY <= 8.0
    && 8 <= d.size <= 18 && 0.5 <= d.spin <= 2.0 && 40 <= d.alpha <= 100
    && d.colour in Pastels
  }

  /** The x of a shape after one frame: it drifts right by its speed,
      and once past the wrap line it restarts at `restartX`. */
  function DriftX(x: real, speedX: real, dt: real, restartX: real): (r: real)
    ensures r <= WrapX || r == restartX
    ensures r == restartX || r == x + speedX * dt
    ensures speedX >= 0.0 && dt >= 0.0 && x + speedX * dt <= WrapX ==> r >= x
  {
    if x + speedX * dt > WrapX then restartX else x + speedX * dt
  }

  /** One frame of a shape, on its attribute values (a `ShapeDraw` holds
      exactly those): it drifts by its speeds plus a wobble of `0.3 * wave`,
      and once past the wrap line every value is replaced by the draw `d`. */
  function ShapeStep(s: ShapeDraw, dt: real, wave: real, d: ShapeDraw): (r: ShapeDraw)
    ensures r.x == DriftX(s.x, s.speedX, dt, d.x)
    ensures s.x + s.speedX * dt > WrapX ==> r == d
    ensures s.x + s.speedX * dt <= WrapX ==>
      r.y == s.y + s.speedY * dt + wave * 0.3
      && r.(x := s.x, y := s.y) == s
  {
    if s.x + s.speedX * dt > WrapX then d
    else s.(x := DriftX(s.x, s.speedX, dt, d.x), y := s.y + s.speedY * dt + wave * 0.3)
  }

  /** A star, heart or circle drifting right across the menu. */
  class FloatingShape {
    var x: real
    var y: real
    var speedX: real
    var speedY: real
    var size: int
    var phase: real
    var spin: real
    var alpha: int
    var colour: Rgb
    var kind: ShapeKind

    /** The drawn ranges hold, and the shape is never past the wrap line
        after a frame. */
    ghost predicate Valid() reads this {
      && 15.0 <= speedX <= 40.0 && -8.0 <= speedY <= 8.0
      && 8 <= size <= 18 && 0.5 <= spin <= 2.0 && 40 <= alpha <= 100
      && colour in Pastels && x <= WrapX
    }

    /** The shape's current attribute values. */
    function Values(): ShapeDraw reads this {
      ShapeDraw(x, y, speedX, speedY, size, phase, spin, alpha, colour, kind)
    }

    /** `__init__`: a reset, then a start anywhere on screen. */
    constructor (d: ShapeDraw, startX: real, startY: real)
      requires DrawOk(d) && 0.0 <= startX <= Width as real && 0.0 <= startY <= Height as real
      ensures Valid() && x == startX && y == startY
      ensures speedX == d.speedX && speedY == d.speedY && size == d.size && phase == d.phase
      ensures spin == d.spin && alpha == d.alpha && colour == d.colour && kind == d.kind
    {
      x, y := startX, startY;
      speedX, speedY := d.speedX, d.speedY;
      size, phase, spin, alpha := d.size, d.phase, d.spin, d.alpha;
      colour, kind := d.colour, d.kind;
    }

    /** `reset`: re-enter just off the left edge with new random values. */
    method Reset(d: ShapeDraw)
      requires DrawOk(d)
      modifies this
      ensures Valid() && -40.0 <= x <= -10.0
      ensures x == d.x && y == d.y && speedX == d.speedX && speedY == d.speedY && size == d.size
      ensures phase == d.phase && spin == d.spin && alpha == d.alpha && colour == d.colour && kind == d.kind
    {
      x, y := d.x, d.y;
      speedX, speedY := d.speedX, d.speedY;
      size, phase, spin, alpha := d.size, d.phase, d.spin, d.alpha;
      colour, kind := d.colour, d.kind;
    }

    /** `update`: drift by the speed, plus a vertical wobble of at most 0.3
        (`wave` stands for `sin(time * spin + phase)`); past the wrap line
        the shape is reset with the draw `d`. */
    method Update(dt: real, wave: real, d: ShapeDraw)
      requires Valid() && DrawOk(d) && dt >= 0.0 && -1.0 <= wave <= 1.0
      modifies this
      ensures Valid()
      ensures Values() == ShapeStep(old(Values()), dt, wave, d)
    {
      x := x + speedX * dt;
      y := y + speedY * dt + wave * 0.3;
      if x > WrapX {
        Reset(d);
      }
    }
  }

  class MainMenuScreen {
    var press: Ui.PressTracker
    var time: real
    var pendingNav: Option<Pending>
    var shapes: seq<FloatingShape>

    /** One press timer per button, a pending navigation always has time
        left, and twelve distinct valid shapes. */
    ghost predicate Valid() reads this, press, shapes {
      && press.Valid() && |press.timers| == ButtonCount
      && (pendingNav.Some? ==> pendingNav.value.timer > 0.0)
      && |shapes| == ShapeCount
      && (forall i, j :: 0 <= i < j < |shapes| ==> shapes[i] != shapes[j])
      && (forall i :: 0 <= i < |shapes| ==> shapes[i].Valid())
    }

    /** `__init__`: twelve shapes, each reset by `draws(i)` and then placed
        at `starts(i)`, a uniformly drawn (x, y) on screen. */
    constructor (draws: nat -> ShapeDraw, starts: nat -> (real, real))
      requires forall i :: DrawOk(draws(i))
      requires forall i :: 0.0 <= starts(i).0 <= Width as real && 0.0 <= starts(i).1 <= Height as real
      ensures Valid() && fresh(press) && pendingNav == None && time == 0.0
      ensures forall i :: 0 <= i < ShapeCount ==> fresh(shapes[i])
      ensures forall i :: 0 <= i < ShapeCount ==> shapes[i].x == starts(i).0 && shapes[i].y == starts(i).1
    {
      var made: seq<FloatingShape> := [];
      var k := 0;
      while k < ShapeCount
        invariant 0 <= k <= ShapeCount && |made| == k
        invariant forall i :: 0 <= i < k ==> fresh(made[i]) && made[i].Valid()
        invariant forall i :: 0 <= i < k ==> made[i].x == starts(i).0 && made[i].y == starts(i).1
        invariant forall i, j :: 0 <= i < j < k ==> made[i] != made[j]
      {
        var s := new FloatingShape(draws(k), starts(k).0, starts(k).1);
        made := made + [s];
        k := k + 1;
      }
      shapes := made;
      press := new Ui.PressTracker(ButtonCount);
      time := 0.0;
      pendingNav := None;
    }

    /** `on_enter`: fresh press timers, nothing pending, time zero; the
        shapes keep drifting where they are. */
    method OnEnter()
      requires Valid()
      modifies this
      ensures fresh(press) && pendingNav == None && time == 0.0 && shapes == old(shapes)
      ensures press.timers == seq(ButtonCount, _ => 0.0)
      ensures Valid()
    {
      press := new Ui.PressTracker(ButtonCount);
      pendingNav := None;
      time := 0.0;
    }

    /** A press on a button starts its animation and schedules its target,
        replacing anything pending. The menu never navigates back. */
    method HandleEvent(e: Event)
      requires Valid()
      modifies this, press
      ensures Valid() && press == old(press) && shapes == old(shapes) && time == old(time)
      ensures !e.MouseDown? || (forall j :: 0 <= j < ButtonCount ==> !Buttons[j].Contains(e.pos)) ==>
        pendingNav == old(pendingNav) && press.timers == old(press.timers)
      ensures e.MouseDown? && (exists j :: 0 <= j < ButtonCount && Buttons[j].Contains(e.pos)) ==>
        exists i :: (
          && 0 <= i < ButtonCount && Buttons[i].Contains(e.pos)
          && pendingNav == Some(Pending(States[i], NavDelay))
          && press.timers == old(press.timers)[i := Ui.PressTime])
    {
      if !e.MouseDown? {
        return;
      }
      var k := FirstContaining(Buttons, e.pos);
      if k.Some? {
        press.Trigger(k.value);
        pendingNav := Some(Pending(States[k.value], NavDelay));
      }
    }

    /** `update`: time advances, the press timers run down, every shape
        drifts (`waves(i)` is its wobble, `draws(i)` its reset), and a
        pending navigation counts down and fires as `Countdown` says. */
    method Update(dt: real, waves: nat -> real, draws: nat -> ShapeDraw) returns (nav: Nav)
      requires Valid() && dt >= 0.0
      requires forall i :: DrawOk(draws(i)) && -1.0 <= waves(i) <= 1.0
      modifies this, press, shapes
      ensures Valid() && press == old(press) && shapes == old(shapes)
      ensures time == old(time) + dt
      ensures forall i :: 0 <= i < ShapeCount ==>
        shapes[i].Values() == ShapeStep(old(shapes[i].Values()), dt, waves(i), draws(i))
      ensures forall i :: 0 <= i < ButtonCount ==> press.timers[i] == Ui.TimerAfter(old(press.timers)[i], dt)
      ensures var t := Countdown(old(pendingNav), dt);
        pendingNav == t.pending && nav == (if t.fire.Some? then GoTo(t.fire.value) else Stay)
    {
      time := time + dt;
      press.Update(dt);
      DriftShapes(dt, waves, draws);
      var t := Countdown(pendingNav, dt);
      pendingNav := t.pending;
      nav := if t.fire.Some? then GoTo(t.fire.value) else Stay;
    }

    /** The `for shape in self.shapes` loop of `update`. */
    method DriftShapes(dt: real, waves: nat -> real, draws: nat -> ShapeDraw)
      requires Valid() && dt >= 0.0
      requires forall i :: DrawOk(draws(i)) && -1.0 <= waves(i) <= 1.0
      modifies shapes
      ensures Valid()
      ensures forall i :: 0 <= i < ShapeCount ==>
        shapes[i].Values() == ShapeStep(old(shapes[i].Values()), dt, waves(i), draws(i))
    {
      var k := 0;
      while k < |shapes|
        invariant 0 <= k <= |shapes| && press.Valid()
        invariant forall i :: 0 <= i < |shapes| ==> shapes[i].Valid()
        invariant forall i :: k <= i < |shapes| ==> unchanged(shapes[i])
        invariant forall i :: 0 <= i < k ==>
          shapes[i].Values() == ShapeStep(old(shapes[i].Values()), dt, waves(i), draws(i))
      {
        shapes[k].Update(dt, waves(k), draws(k));
        k := k + 1;
      }
    }
  }
}
