/** What the two menus share (screens/main_menu.py, screens/games_menu.py):
    a tap on a button does not navigate at once. It records the target with
    a 0.12-second delay, so the press animation can be seen, and `update`
    counts that delay down and navigates when it runs out. */
module Menus {
  import opened Kit

  /** The delay between the tap and the navigation, in seconds. */
  const NavDelay: real := 0.12

  /** `pending_nav`: where to go, and the time left before going. */
  datatype Pending = Pending(target: ScreenId, timer: real)

  /** One frame of the countdown: what stays pending, and where to go now. */
  datatype Tick = Tick(pending: Option<Pending>, fire: Option<ScreenId>)

  /** The countdown step of `update`: the timer drops by `dt`; at zero or
      below the navigation fires and nothing stays pending. */
  function Countdown(p: Option<Pending>, dt: real): (r: Tick)
    ensures r.fire.Some? ==> r.pending.None? && p.Some? && r.fire.value == p.value.target
    ensures r.pending.Some? ==> p.Some? && r.pending.value.target == p.value.target && r.pending.value.timer > 0.0
    ensures p.Some? ==> (r.fire.Some? <==> p.value.timer - dt <= 0.0)
    ensures p.None? ==> r == Tick(None, None)
  {
    match p
    case None => Tick(None, None)
    case Some(Pending(target, timer)) =>
      if timer - dt <= 0.0 then Tick(None, Some(target))
      else Tick(Some(Pending(target, timer - dt)), None)
  }

  /** The navigations fired over a run of frames of lengths `dts`. */
  function Run(p: Option<Pending>, dts: seq<real>): seq<ScreenId>
    decreases |dts|
  {
    if dts == [] then []
    else
      var t := Countdown(p, dts[0]);
      (if t.fire.Some? then [t.fire.value] else []) + Run(t.pending, dts[1..])
  }

  lemma {:induction false} RunIdle(dts: seq<real>)
    ensures Run(None, dts) == []
  {
    if dts != [] {
      RunIdle(dts[1..]);
    }
  }

  /** `go_to` is called at most once per tap, and only with the tapped
      target; with nothing pending it is never called. */
  lemma {:induction false} FiresAtMostOnce(p: Option<Pending>, dts: seq<real>)
    ensures |Run(p, dts)| <= 1
    ensures forall s :: s in Run(p, dts) ==> p.Some? && s == p.value.target
    decreases |dts|
  {
    if dts != [] {
      var t := Countdown(p, dts[0]);
      if t.fire.Some? {
        RunIdle(dts[1..]);
      } else {
        FiresAtMostOnce(t.pending, dts[1..]);
      }
    }
  }

  /** With frames of nonnegative length, a pending navigation (whose timer
      is always positive) fires exactly when the frames add up to at least
      the time left. */
  lemma {:induction false} FiresWhenDue(p: Pending, dts: seq<real>)
    requires p.timer > 0.0
    requires forall i :: 0 <= i < |dts| ==> dts[i] >= 0.0
    ensures Run(Some(p), dts) == (if Sum(dts) >= p.timer then [p.target] else [])
    decreases |dts|
  {
    if dts != [] {
      var t := Countdown(Some(p), dts[0]);
      if t.fire.Some? {
        RunIdle(dts[1..]);
        SumNonnegative(dts[1..]);
      } else {
        FiresWhenDue(Pending(p.target, p.timer - dts[0]), dts[1..]);
      }
    }
  }

  /** The first button containing the point, as the `for ... break` loop
      over the buttons finds it. */
  method FirstContaining(rects: seq<Rect>, pos: Point) returns (k: Option<nat>)
    ensures k.Some? ==> k.value < |rects| && rects[k.value].Contains(pos)
    ensures k.Some? ==> forall j :: 0 <= j < k.value ==> !rects[j].Contains(pos)
    ensures k.None? ==> forall j :: 0 <= j < |rects| ==> !rects[j].Contains(pos)
  {
    var i := 0;
    while i < |rects|
      invariant 0 <= i <= |rects|
      invariant forall j :: 0 <= j < i ==> !rects[j].Contains(pos)
    {
      if rects[i].Contains(pos) {
        return Some(i);
      }
      i := i + 1;
    }
    return None;
  }
}
