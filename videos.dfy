/** The Videos screen (screens/videos.py): a scrolling two-column grid of
    curated videos. A tap on a card starts full-screen playback; while a
    video plays, the screen ignores every event. The catalogue size is a
    parameter, since the shipped catalogue is empty. */
module Videos {
  import opened Kit
  import opened Router
  import opened Scrolling
  import Ui

  const Margin: int := 20
  const Gap: int := 16
  /** `(WIDTH - MARGIN * 2 - GAP * (2 - 1)) // 2`, that is 332. */
  const CardW: int := (Width - Margin * 2 - Gap) / 2
  const CardH: int := 140
  const HeaderH: int := 80
  const GridTop: int := HeaderH + 10
  const VisibleH: int := Height - GridTop
  const MinTop: int := HeaderH - 10

  const Grid: Layout := Layout(Margin, Gap, Gap, CardW, CardH, GridTop)

  /** `num_rows * CARD_H + max(0, num_rows - 1) * GAP` with
      `num_rows = (n + 1) // 2`: an empty catalogue has no height at all. */
  function ContentH(n: nat): (r: int)
    ensures r >= 0
    ensures n == 0 <==> r == 0
    ensures n > 0 ==> r == ((n + 1) / 2) * (CardH + Gap) - Gap
  {
    var rows := (n + 1) / 2;
    rows * CardH + Max(0, rows - 1) * Gap
  }

  /** `max(0, content_h - visible_h)`. */
  function MaxScroll(n: nat): (r: int)
    ensures r >= 0
    ensures r == 0 || r == ContentH(n) - VisibleH
    ensures ContentH(n) <= VisibleH ==> r == 0
  {
    Max(0, ContentH(n) - VisibleH)
  }

  /** The press tracker gets `max(1, len(VIDEOS_DATA))` slots. */
  function Slots(n: nat): (r: nat)
    ensures r >= 1 && r >= n
  {
    if n == 0 then 1 else n
  }

  class VideosScreen {
    /** The number of videos in the catalogue. */
    const count: nat
    var backRect: Option<Rect>
    var scrollY: int
    var playing: bool
    var touchDown: Option<Point>
    var touchPrevY: Option<int>
    var isScrolling: bool
    var press: Ui.PressTracker

    ghost predicate Valid() reads this, press {
      0 <= scrollY <= MaxScroll(count) && press.Valid() && |press.timers| == Slots(count)
    }

    constructor (n: nat)
      ensures Valid() && fresh(press) && count == n
      ensures backRect == None && scrollY == 0 && !playing
      ensures touchDown == None && touchPrevY == None && !isScrolling
    {
      count := n;
      backRect := None;
      scrollY := 0;
      playing := false;
      touchDown, touchPrevY, isScrolling := None, None, false;
      press := new Ui.PressTracker(Slots(n));
    }

    /** The state `draw` changes: the back-button rectangle. */
    method Draw()
      requires Valid()
      modifies this
      ensures Valid() && backRect == Some(BackRect)
      ensures scrollY == old(scrollY) && playing == old(playing) && press == old(press)
      ensures touchDown == old(touchDown) && touchPrevY == old(touchPrevY) && isScrolling == old(isScrolling)
    {
      backRect := Some(BackRect);
    }

    /** `on_enter`: back at the top, nothing playing, fresh press timers. */
    method OnEnter()
      requires Valid()
      modifies this
      ensures Valid() && fresh(press) && scrollY == 0 && !playing
      ensures press.timers == seq(Slots(count), _ => 0.0)
      ensures backRect == old(backRect)
      ensures touchDown == old(touchDown) && touchPrevY == old(touchPrevY) && isScrolling == old(isScrolling)
    {
      scrollY := 0;
      press := new Ui.PressTracker(Slots(count));
      playing := false;
    }

    /** The end of `_play_video`: whether the player finished, timed out or
        failed to start, the flag goes back to false. */
    method PlaybackEnded()
      requires Valid()
      modifies this
      ensures Valid() && !playing
      ensures scrollY == old(scrollY) && backRect == old(backRect) && press == old(press)
      ensures touchDown == old(touchDown) && touchPrevY == old(touchPrevY) && isScrolling == old(isScrolling)
    {
      playing := false;
    }

    /** `handle_event`. The returned `started` is the video whose playback
        begins, if any. While playing, nothing at all changes. */
    method HandleEvent(e: Event) returns (nav: Nav, started: Option<nat>)
      requires Valid()
      modifies this, press
      ensures Valid() && press == old(press) && backRect == old(backRect)
      ensures old(playing) ==> (
        && nav == Stay && started == None && playing
        && scrollY == old(scrollY) && press.timers == old(press.timers)
        && touchDown == old(touchDown) && touchPrevY == old(touchPrevY) && isScrolling == old(isScrolling))
      ensures !old(playing) && e.MouseDown? ==> OnPress(e.pos, nav, started)
      ensures !old(playing) && e.MouseMotion? ==> OnMotion(e.pos, nav, started)
      ensures !old(playing) && e.MouseUp? ==> OnRelease(e.pos, nav, started)
      ensures !old(playing) && e.OtherEvent? ==> (
        && nav == Stay && started == None && !playing && scrollY == old(scrollY)
        && touchDown == old(touchDown) && touchPrevY == old(touchPrevY) && isScrolling == old(isScrolling)
        && press.timers == old(press.timers))
    {
      nav, started := Stay, None;
      if playing {
        return;
      }
      match e
      case MouseDown(pos, _) =>
        nav := Press(pos);
      case MouseMotion(pos) =>
        Motion(pos);
      case MouseUp(pos, _) =>
        started := Release(pos);
      case OtherEvent =>
    }

    /** A press starts tracking; on the back button it goes back and drops
        the press point (the previous y stays recorded). */
    twostate predicate OnPress(pos: Point, new nav: Nav, new started: Option<nat>)
      reads this, press
    {
      && started == None && !playing && scrollY == old(scrollY) && !isScrolling && touchPrevY == Some(pos.y)
      && press.timers == old(press.timers)
      && if old(backRect).Some? && old(backRect).value.Contains(pos) then nav == GoBack && touchDown == None
         else nav == Stay && touchDown == Some(pos)
    }

    /** A motion with a touch down scrolls as `Scrolling.Motion` says and
        records the new y; without one nothing changes. */
    twostate predicate OnMotion(pos: Point, new nav: Nav, new started: Option<nat>)
      reads this, press
    {
      && nav == Stay && started == None && !playing && touchDown == old(touchDown)
      && press.timers == old(press.timers)
      && if old(touchDown).Some? && old(touchPrevY).Some? then
           var d := Scrolling.Motion(old(scrollY), MaxScroll(count), old(touchDown).value, old(touchPrevY).value, old(isScrolling), pos);
           scrollY == d.scroll && isScrolling == d.scrolling && touchPrevY == Some(pos.y)
         else scrollY == old(scrollY) && isScrolling == old(isScrolling) && touchPrevY == old(touchPrevY)
    }

    /** A release always ends the touch; a tap on a tappable card starts
        the first such video, marks the screen as playing and starts the
        card's press animation. There is no swipe on this screen. */
    twostate predicate OnRelease(pos: Point, new nav: Nav, new started: Option<nat>)
      reads this, press
    {
      && |old(press.timers)| == Slots(count)
      && nav == Stay && touchDown == None && touchPrevY == None && !isScrolling && scrollY == old(scrollY)
      && |press.timers| == |old(press.timers)|
      && (playing <==> started.Some?)
      && (started.None? ==> press.timers == old(press.timers))
      && (started.Some? ==> (
            && old(touchDown).Some?
            && Classify(pos.x - old(touchDown).value.x, pos.y - old(touchDown).value.y, old(isScrolling)) == Tap
            && started.value < count
            && Tappable(Grid, started.value, old(scrollY), pos, MinTop)
            && (forall j :: 0 <= j < started.value ==> !Tappable(Grid, j, old(scrollY), pos, MinTop))
            && press.timers == old(press.timers)[started.value := Ui.PressTime]))
      && (started.None? && old(touchDown).Some?
          && Classify(pos.x - old(touchDown).value.x, pos.y - old(touchDown).value.y, old(isScrolling)) == Tap
          ==> forall j :: 0 <= j < count ==> !Tappable(Grid, j, old(scrollY), pos, MinTop))
    }

    method Press(pos: Point) returns (nav: Nav)
      requires Valid() && !playing
      modifies this
      ensures Valid() && press == old(press) && backRect == old(backRect)
      ensures OnPress(pos, nav, None)
    {
      touchDown := Some(pos);
      touchPrevY := Some(pos.y);
      isScrolling := false;
      nav := Stay;
      if backRect.Some? && backRect.value.Contains(pos) {
        nav := GoBack;
        touchDown := None;
      }
    }

    method Motion(pos: Point)
      requires Valid() && !playing
      modifies this
      ensures Valid() && press == old(press) && backRect == old(backRect)
      ensures OnMotion(pos, Stay, None)
    {
      if touchDown.Some? && touchPrevY.Some? {
        var d := Scrolling.Motion(scrollY, MaxScroll(count), touchDown.value, touchPrevY.value, isScrolling, pos);
        scrollY := d.scroll;
        isScrolling := d.scrolling;
        touchPrevY := Some(pos.y);
      }
    }

    method Release(pos: Point) returns (started: Option<nat>)
      requires Valid() && !playing
      modifies this, press
      ensures Valid() && press == old(press) && backRect == old(backRect)
      ensures OnRelease(pos, Stay, started)
    {
      started := None;
      if touchDown.Some? {
        var g := Classify(pos.x - touchDown.value.x, pos.y - touchDown.value.y, isScrolling);
        if g == Tap {
          started := FindCard(Grid, count, scrollY, pos, MinTop);
          if started.Some? {
            press.Trigger(started.value);
            playing := true;
          }
        }
      }
      touchDown, touchPrevY, isScrolling := None, None, false;
    }

    /** `update`: the press timers run down, playing or not. */
    method Update(dt: real)
      requires Valid() && dt >= 0.0
      modifies press
      ensures Valid()
      ensures forall i :: 0 <= i < Slots(count) ==> press.timers[i] == Ui.TimerAfter(old(press.timers)[i], dt)
    {
      press.Update(dt);
    }
  }
}
