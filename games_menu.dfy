/** The games menu (screens/games_menu.py): six game cards in a grid of
    three rows and two columns under the back button. A tap on a card
    starts its press animation and navigates to that game 0.12 seconds
    later. */
module GamesMenu {
  import opened Kit
  import opened Router
  import opened Menus
  import Scrolling
  import Ui

  const CardCount: nat := 6
  const Margin: int := 16
  /** Just below the back button: 105. */
  const TopY: int := BackBtnMargin + BackBtnSize + 10
  const GapX: int := 14
  const GapY: int := 14
  /** `(WIDTH - 2 * margin - gap_x) // 2`, that is 337. */
  const ColW: int := (Width - 2 * Margin - GapX) / 2
  /** `(HEIGHT - top_y - margin - 2 * gap_y) // 3`, that is 190. */
  const RowH: int := (Height - TopY - Margin - 2 * GapY) / 3

  /** The card grid, in the terms of the scrolling grids (never scrolled). */
  const Grid: Scrolling.Layout := Scrolling.Layout(Margin, GapX, GapY, ColW, RowH, TopY)

  /** `states`: card `i` leads to `States[i]`. */
  const States: seq<ScreenId> :=
    [Kit.FingerPaint, Kit.ShapeSorter, Kit.MagicGarden, Kit.Fireworks, Kit.ParticlePlayground, Kit.WeatherToy]

  /** The card rectangles are those of the two-column grid. */
  ghost predicate CardsOk(cards: seq<Rect>) {
    |cards| == CardCount && forall i :: 0 <= i < CardCount ==> cards[i] == Scrolling.CardRect(Grid, i, 0)
  }

  /** The nested `for row in range(3): for col in range(2)` loop of
      `__init__`: card `2 * row + col` is at column `col` and row `row`. */
  method BuildCards() returns (cards: seq<Rect>)
    ensures CardsOk(cards)
    ensures forall i, j :: 0 <= i < j < |cards| ==> cards[i].x < cards[j].x || cards[i].y < cards[j].y
  {
    cards := [];
    var row := 0;
    while row < 3
      invariant 0 <= row <= 3 && |cards| == 2 * row
      invariant forall i :: 0 <= i < |cards| ==> cards[i] == Scrolling.CardRect(Grid, i, 0)
    {
      var col := 0;
      while col < 2
        invariant 0 <= col <= 2 && |cards| == 2 * row + col
        invariant forall i :: 0 <= i < |cards| ==> cards[i] == Scrolling.CardRect(Grid, i, 0)
      {
        var i := 2 * row + col;
        assert i % 2 == col && i / 2 == row;
        cards := cards + [Rect(Margin + col * (ColW + GapX), TopY + row * (RowH + GapY), ColW, RowH)];
        col := col + 1;
      }
      row := row + 1;
    }
    forall i, j | 0 <= i < j < |cards|
      ensures cards[i].x < cards[j].x || cards[i].y < cards[j].y
    {
      assert i / 2 < j / 2 || (i / 2 == j / 2 && i % 2 == 0 && j % 2 == 1);
    }
  }

  class GamesMenuScreen {
    var cards: seq<Rect>
    var backRect: Option<Rect>
    var press: Ui.PressTracker
    var pendingNav: Option<Pending>
    var time: real

    /** Six grid cards, one press timer per card, and a pending navigation
        always has time left. */
    ghost predicate Valid() reads this, press {
      CardsOk(cards) && press.Valid() && |press.timers| == CardCount
      && (pendingNav.Some? ==> pendingNav.value.timer > 0.0)
    }

    constructor ()
      ensures Valid() && fresh(press)
      ensures backRect == None && pendingNav == None && time == 0.0
    {
      var built := BuildCards();
      cards := built;
      backRect := None;
      press := new Ui.PressTracker(CardCount);
      pendingNav := None;
      time := 0.0;
    }

    /** The state `draw` changes: the back-button rectangle. */
    method Draw()
      requires Valid()
      modifies this
      ensures Valid() && backRect == Some(BackRect)
      ensures cards == old(cards) && press == old(press) && pendingNav == old(pendingNav) && time == old(time)
    {
      backRect := Some(BackRect);
    }

    /** `on_enter`: fresh press timers, nothing pending, time zero. */
    method OnEnter()
      requires Valid()
      modifies this
      ensures Valid() && fresh(press) && pendingNav == None && time == 0.0
      ensures press.timers == seq(CardCount, _ => 0.0)
      ensures cards == old(cards) && backRect == old(backRect)
    {
      press := new Ui.PressTracker(CardCount);
      pendingNav := None;
      time := 0.0;
    }

    /** A press on the back button goes back and does nothing else. A press
        on a card starts its animation and schedules its game, replacing
        anything pending; no other card contains the point. */
    method HandleEvent(e: Event) returns (nav: Nav)
      requires Valid()
      modifies this, press
      ensures Valid() && press == old(press)
      ensures cards == old(cards) && backRect == old(backRect) && time == old(time)
      ensures nav == (if e.MouseDown? && old(backRect).Some? && old(backRect).value.Contains(e.pos) then GoBack else Stay)
      ensures !e.MouseDown? || nav == GoBack || (forall j :: 0 <= j < CardCount ==> !cards[j].Contains(e.pos)) ==>
        pendingNav == old(pendingNav) && press.timers == old(press.timers)
      ensures e.MouseDown? && nav == Stay && (exists j :: 0 <= j < CardCount && cards[j].Contains(e.pos)) ==>
        exists i :: (
          && 0 <= i < CardCount && cards[i].Contains(e.pos)
          && (forall j :: 0 <= j < CardCount && j != i ==> !cards[j].Contains(e.pos))
          && pendingNav == Some(Pending(States[i], NavDelay))
          && press.timers == old(press.timers)[i := Ui.PressTime])
    {
      nav := Stay;
      if !e.MouseDown? {
        return;
      }
      if backRect.Some? && backRect.value.Contains(e.pos) {
        nav := GoBack;
        return;
      }
      var k := FirstContaining(cards, e.pos);
      if k.Some? {
        var i := k.value;
        forall j | 0 <= j < CardCount && j != i
          ensures !cards[j].Contains(e.pos)
        {
          Scrolling.CardsDisjoint(Grid, i, j, 0, e.pos);
        }
        press.Trigger(i);
        pendingNav := Some(Pending(States[i], NavDelay));
      }
    }

    /** `update`: time advances, the press timers run down, and a pending
        navigation counts down and fires as `Countdown` says. */
    method Update(dt: real) returns (nav: Nav)
      requires Valid() && dt >= 0.0
      modifies this, press
      ensures Valid() && press == old(press) && cards == old(cards) && backRect == old(backRect)
      ensures time == old(time) + dt
      ensures |press.timers| == CardCount
      ensures forall i :: 0 <= i < CardCount ==> press.timers[i] == Ui.TimerAfter(old(press.timers)[i], dt)
      ensures var t := Countdown(old(pendingNav), dt);
        pendingNav == t.pending && nav == (if t.fire.Some? then GoTo(t.fire.value) else Stay)
    {
      time := time + dt;
      press.Update(dt);
      var t := Countdown(pendingNav, dt);
      pendingNav := t.pending;
      nav := if t.fire.Some? then GoTo(t.fire.value) else Stay;
    }
  }
}
