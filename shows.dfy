/** The Shows screen (screens/shows.py): a scrolling two-column grid of
    thirteen show cards. Dragging scrolls, a tap starts a show on the TV,
    and a leftward swipe opens the remote. */
module Shows {
  import opened Kit
  import opened Router
  import opened Scrolling
  import Ui

  const ShowCount: nat := 13
  const Margin: int := 14
  const GapX: int := 12
  const GapY: int := 10
  const HeaderH: int := 80
  const GridTop: int := HeaderH + 10
  /** `(WIDTH - MARGIN * 2 - GAP_X) // 2`, that is 340. */
  const CardW: int := (Width - Margin * 2 - GapX) / 2
  /** `int(CARD_W * 0.58)`, that is 197. */
  const ImgW: int := CardW * 58 / 100
  /** `int(IMG_W / (256 / 112))`, that is 86. */
  const ImgH: int := ImgW * 112 / 256
  /** 120. */
  const CardH: int := ImgH + 34
  const VisibleH: int := Height - GridTop
  /** Cards whose top is scrolled above this line do not take taps. */
  const MinTop: int := HeaderH - 10

  const Grid: Layout := Layout(Margin, GapX, GapY, CardW, CardH, GridTop)

  /** `num_rows * CARD_H + (num_rows - 1) * GAP_Y` with `num_rows = (n + 1) // 2`. */
  function ContentH(n: nat): (r: int)
    ensures n > 0 ==> r >= CardH
    ensures n > 0 ==> r == ((n + 1) / 2) * (CardH + GapY) - GapY
  {
    var rows := (n + 1) / 2;
    rows * CardH + (rows - 1) * GapY
  }

  /** `max(0, content_h - visible_h)`: 270 for thirteen shows. */
  function MaxScroll(): (r: int)
    ensures r >= 0
    ensures r == 0 || r == ContentH(ShowCount) - VisibleH
  {
    Max(0, ContentH(ShowCount) - VisibleH)
  }

  class ShowsScreen {
    /** The rectangle `draw_header` records; none until the first draw. */
    var backRect: Option<Rect>
    var scrollY: int
    var touchDown: Option<Point>
    var touchPrevY: Option<int>
    var isScrolling: bool
    var press: Ui.PressTracker

    /** The offset stays in range and there is one press timer per show. */
    ghost predicate Valid() reads this, press {
      0 <= scrollY <= MaxScroll() && press.Valid() && |press.timers| == ShowCount
    }

    constructor ()
      ensures Valid() && fresh(press)
      ensures backRect == None && scrollY == 0
      ensures touchDown == None && touchPrevY == None && !isScrolling
    {
      backRect := None;
      scrollY := 0;
      touchDown, touchPrevY, isScrolling := None, None, false;
      press := new Ui.PressTracker(ShowCount);
    }

    /** The state `draw` changes: the back-button rectangle. */
    method Draw()
      requires Valid()
      modifies this
      ensures Valid() && backRect == Some(BackRect)
      ensures scrollY == old(scrollY) && press == old(press)
      ensures touchDown == old(touchDown) && touchPrevY == old(touchPrevY) && isScrolling == old(isScrolling)
    {
      backRect := Some(BackRect);
    }

    /** `on_enter`: back at the top, with fresh press timers. The touch
        tracking is left as it was. */
    method OnEnter()
      requires Valid()
      modifies this
      ensures Valid() && fresh(press) && scrollY == 0
      ensures press.timers == seq(ShowCount, _ => 0.0)
      ensures backRect == old(backRect)
      ensures touchDown == old(touchDown) && touchPrevY == old(touchPrevY) && isScrolling == old(isScrolling)
    {
      scrollY := 0;
      press := new Ui.PressTracker(ShowCount);
    }

    /** `handle_event`. The returned `launched` is the show whose launch
        request goes to the TV, if any. */
    method HandleEvent(e: Event) returns (nav: Nav, launched: Option<nat>)
      requires Valid()
      modifies this, press
      ensures Valid() && press == old(press) && backRect == old(backRect)
      ensures e.MouseDown? ==> OnPress(e.pos, nav, launched)
      ensures e.MouseMotion? ==> OnMotion(e.pos, nav, launched)
      ensures e.MouseUp? ==> OnRelease(e.pos, nav, launched)
      ensures e.OtherEvent? ==> (
        && nav == Stay && launched == None && scrollY == old(scrollY)
        && touchDown == old(touchDown) && touchPrevY == old(touchPrevY) && isScrolling == old(isScrolling)
        && press.timers == old(press.timers))
    {
      match e
      case MouseDown(pos, _) =>
        nav := Press(pos);
        launched := None;
      case MouseMotion(pos) =>
        Motion(pos);
        nav, launched := Stay, None;
      case MouseUp(pos, _) =>
        nav, launched := Release(pos);
      case OtherEvent =>
        nav, launched := Stay, None;
    }

    /** A press starts tracking; on the back button it goes back and drops
        the press point (the previous y stays recorded). */
    twostate predicate OnPress(pos: Point, new nav: Nav, new launched: Option<nat>)
      reads this, press
    {
      && launched == None && scrollY == old(scrollY) && !isScrolling && touchPrevY == Some(pos.y)
      && press.timers == old(press.timers)
      && if old(backRect).Some? && old(backRect).value.Contains(pos) then nav == GoBack && touchDown == None
         else nav == Stay && touchDown == Some(pos)
    }

    /** A motion with a touch down scrolls as `Scrolling.Motion` says and
        records the new y; without one nothing changes. */
    twostate predicate OnMotion(pos: Point, new nav: Nav, new launched: Option<nat>)
      reads this, press
    {
      && nav == Stay && launched == None && touchDown == old(touchDown) && press.timers == old(press.timers)
      && if old(touchDown).Some? && old(touchPrevY).Some? then
           var d := Scrolling.Motion(old(scrollY), MaxScroll(), old(touchDown).value, old(touchPrevY).value, old(isScrolling), pos);
           scrollY == d.scroll && isScrolling == d.scrolling && touchPrevY == Some(pos.y)
         else scrollY == old(scrollY) && isScrolling == old(isScrolling) && touchPrevY == old(touchPrevY)
    }

    /** A release always ends the touch. With a press point, a leftward
        swipe opens the remote, and a tap launches the first tappable card
        and starts its press animation. */
    twostate predicate OnRelease(pos: Point, new nav: Nav, new launched: Option<nat>)
      reads this, press
    {
      && |old(press.timers)| == ShowCount
      && touchDown == None && touchPrevY == None && !isScrolling && scrollY == old(scrollY)
      && |press.timers| == |old(press.timers)|
      && if old(touchDown).None? then nav == Stay && launched == None && press.timers == old(press.timers)
         else
           var g := Classify(pos.x - old(touchDown).value.x, pos.y - old(touchDown).value.y, old(isScrolling));
           && nav == (if g == Swipe(true) then GoTo(Kit.Remote) else Stay)
           && (g != Tap ==> launched == None)
           && (launched.None? ==> press.timers == old(press.timers))
           && (g == Tap && launched.None? ==> forall j :: 0 <= j < ShowCount ==> !Tappable(Grid, j, old(scrollY), pos, MinTop))
           && (launched.Some? ==> (
                 && g == Tap && launched.value < ShowCount
                 && Tappable(Grid, launched.value, old(scrollY), pos, MinTop)
                 && (forall j :: 0 <= j < launched.value ==> !Tappable(Grid, j, old(scrollY), pos, MinTop))
                 && press.timers == old(press.timers)[launched.value := Ui.PressTime]))
    }

    method Press(pos: Point) returns (nav: Nav)
      requires Valid()
      modifies this
      ensures Valid() && press == old(press) && backRect == old(backRect)
      ensures OnPress(pos, nav, None)
    {
      touchDown := Some(pos);
      touchPrevY := Some(pos.y);
      isScrolling := false;
      nav := Stay;
      if backRect.Some? && backRect.value.Contains(pos) {
        nav := GoBack;
        touchDown := None;
      }
    }

    method Motion(pos: Point)
      requires Valid()
      modifies this
      ensures Valid() && press == old(press) && backRect == old(backRect)
      ensures OnMotion(pos, Stay, None)
    {
      if touchDown.Some? && touchPrevY.Some? {
        var d := Scrolling.Motion(scrollY, MaxScroll(), touchDown.value, touchPrevY.value, isScrolling, pos);
        scrollY := d.scroll;
        isScrolling := d.scrolling;
        touchPrevY := Some(pos.y);
      }
    }

    method Release(pos: Point) returns (nav: Nav, launched: Option<nat>)
      requires Valid()
      modifies this, press
      ensures Valid() && press == old(press) && backRect == old(backRect)
      ensures OnRelease(pos, nav, launched)
    {
      nav, launched := Stay, None;
      if touchDown.Some? {
        var g := Classify(pos.x - touchDown.value.x, pos.y - touchDown.value.y, isScrolling);
        if g == Swipe(true) {
          nav := GoTo(Kit.Remote);
        } else if g == Tap {
          launched := FindCard(Grid, ShowCount, scrollY, pos, MinTop);
          if launched.Some? {
            press.Trigger(launched.value);
          }
        }
      }
      touchDown, touchPrevY, isScrolling := None, None, false;
    }

    /** `update`: the press timers run down. */
    method Update(dt: real)
      requires Valid() && dt >= 0.0
      modifies press
      ensures Valid()
      ensures forall i :: 0 <= i < ShowCount ==> press.timers[i] == Ui.TimerAfter(old(press.timers)[i], dt)
    {
      press.Update(dt);
    }
  }
}
