/** The screen router of app.py: a registry from screen id to screen, the
    current screen id and a back-navigation history used as a stack. */
module Router {
  import opened Kit

  /** A registered screen, with whether it has an `on_enter` hook
      (the source asks `hasattr(screen, "on_enter")`). */
  datatype Entry<S> = Entry(screen: S, hasOnEnter: bool)

  /** What a screen asks the router to do after handling an event or a
      frame: a screen's `self.app.go_to(s)` / `self.app.go_back()`. */
  datatype Nav = Stay | GoTo(target: ScreenId) | GoBack

  /** The navigation part of the router: current screen and history. */
  datatype Position = Position(state: ScreenId, history: seq<ScreenId>)

  /** `go_to`: push the pre-transition state, then switch. */
  function AfterGoTo(p: Position, s: ScreenId): (r: Position)
    ensures r.state == s
    ensures |r.history| == |p.history| + 1
    ensures r.history[..|p.history|] == p.history && r.history[|p.history|] == p.state
  {
    Position(s, p.history + [p.state])
  }

  /** `go_back`: pop the last state; nothing happens on an empty history. */
  function AfterGoBack(p: Position): (r: Position)
    ensures p.history == [] ==> r == p
    ensures p.history != [] ==>
      r.state == p.history[|p.history| - 1] && r.history == p.history[..|p.history| - 1]
  {
    if p.history == [] then p
    else Position(p.history[|p.history| - 1], p.history[..|p.history| - 1])
  }

  function Apply(p: Position, n: Nav): Position {
    match n
    case Stay => p
    case GoTo(s) => AfterGoTo(p, s)
    case GoBack => AfterGoBack(p)
  }

  /** Applying a whole sequence of navigation requests, oldest first. */
  function Run(p: Position, navs: seq<Nav>): Position
    decreases |navs|
  {
    if navs == [] then p else Apply(Run(p, navs[..|navs| - 1]), navs[|navs| - 1])
  }

  /** Number of `go_to` minus number of `go_back` requests. */
  function Depth(navs: seq<Nav>): int
    decreases |navs|
  {
    if navs == [] then 0
    else Depth(navs[..|navs| - 1]) + (match navs[|navs| - 1] case Stay => 0 case GoTo(_) => 1 case GoBack => -1)
  }

  /** No prefix goes back further than it went forward (the whole sequence
      included). */
  ghost predicate NeverUnderflows(navs: seq<Nav>) {
    Depth(navs) >= 0 &&
    forall k {:trigger navs[..k]} :: 0 <= k <= |navs| ==> Depth(navs[..k]) >= 0
  }

  /** `go_to(x)` followed by `go_back()` restores both state and history. */
  lemma GoToThenBack(p: Position, s: ScreenId)
    ensures AfterGoBack(AfterGoTo(p, s)) == p
  {
    assert (p.history + [p.state])[..|p.history|] == p.history;
  }

  /** Stack discipline: while the requests never go back past where they
      started, the original history stays a prefix, the stack grows by exactly
      the depth, the first pushed entry is the starting state, and at depth
      zero the starting state is current again. */
  lemma {:induction false} StackDiscipline(p: Position, navs: seq<Nav>)
    requires NeverUnderflows(navs)
    ensures var r := Run(p, navs);
      && |r.history| == |p.history| + Depth(navs)
      && r.history[..|p.history|] == p.history
      && (Depth(navs) == 0 ==> r.state == p.state)
      && (Depth(navs) > 0 ==> r.history[|p.history|] == p.state)
    decreases |navs|
  {
    if navs != [] {
      var pre := navs[..|navs| - 1];
      assert NeverUnderflows(pre) by {
        forall k | 0 <= k <= |pre| ensures Depth(pre[..k]) >= 0 {
          assert pre[..k] == navs[..k];
        }
      }
      assert navs[..|navs|] == navs;
      StackDiscipline(p, pre);
      var q := Run(p, pre);
      var n := navs[|navs| - 1];
      assert Run(p, navs) == Apply(q, n);
      match n {
        case Stay =>
        case GoTo(s) =>
          assert (q.history + [q.state])[..|p.history|] == q.history[..|p.history|];
        case GoBack =>
          assert Depth(pre) >= 1;
          assert q.history[..|q.history| - 1][..|p.history|] == q.history[..|p.history|];
      }
    }
  }

  /** A balanced sequence of requests returns to where it started. */
  lemma BalancedReturns(p: Position, navs: seq<Nav>)
    requires NeverUnderflows(navs) && Depth(navs) == 0
    ensures Run(p, navs) == p
  {
    StackDiscipline(p, navs);
    var r := Run(p, navs);
    assert r.history == r.history[..|p.history|];
  }

  /** The router object: `screens`, `state`, `history`. */
  class App<S> {
    var screens: map<ScreenId, Entry<S>>
    var state: ScreenId
    var history: seq<ScreenId>

    function Pos(): Position reads this {
      Position(state, history)
    }

    /** The screen a hook call on screen id `s` reaches, if any: the one
        registered for `s` when it has `on_enter`. */
    function EnterHook(s: ScreenId): (r: Option<S>)
      reads this
      ensures r.Some? <==> s in screens && screens[s].hasOnEnter
      ensures r.Some? ==> r.value == screens[s].screen
    {
      if s in screens && screens[s].hasOnEnter then Some(screens[s].screen) else None
    }

    /** A new router starts on the main menu with no screens and no history. */
    constructor ()
      ensures screens == map[] && state == MainMenu && history == []
    {
      screens := map[];
      state := MainMenu;
      history := [];
    }

    /** Insert or overwrite exactly one registry entry. */
    method Register(s: ScreenId, screen: S, hasOnEnter: bool)
      modifies this
      ensures screens == old(screens)[s := Entry(screen, hasOnEnter)]
      ensures state == old(state) && history == old(history)
    {
      screens := screens[s := Entry(screen, hasOnEnter)];
    }

    /** Push the current state, switch to `s`, and report the screen whose
        `on_enter` is then called (none when nothing with a hook is
        registered for `s`). */
    method GoTo(s: ScreenId) returns (entered: Option<S>)
      modifies this
      ensures Pos() == AfterGoTo(old(Pos()), s)
      ensures screens == old(screens)
      ensures entered == EnterHook(s)
    {
      history := history + [state];
      state := s;
      entered := EnterHook(s);
    }

    /** Pop the history into `state`; a no-op on an empty history. */
    method GoBack() returns (entered: Option<S>)
      modifies this
      ensures Pos() == AfterGoBack(old(Pos()))
      ensures screens == old(screens)
      ensures old(history) == [] ==> entered == None
      ensures old(history) != [] ==> entered == EnterHook(state)
    {
      entered := None;
      if history != [] {
        state := history[|history| - 1];
        history := history[..|history| - 1];
        entered := EnterHook(state);
      }
    }

    /** Carry out a navigation request made by a screen. */
    method Navigate(n: Nav) returns (entered: Option<S>)
      modifies this
      ensures Pos() == Apply(old(Pos()), n)
      ensures screens == old(screens)
    {
      match n {
        case Stay => entered := None;
        case GoTo(s) => entered := GoTo(s);
        case GoBack => entered := GoBack();
      }
    }

    /** The screen that `handle_event`, `update` and `draw` forward to: the
        one registered for the current state, or none (then nothing is done). */
    method Target() returns (target: Option<S>)
      ensures target.Some? <==> state in screens
      ensures target.Some? ==> target.value == screens[state].screen
    {
      target := if state in screens then Some(screens[state].screen) else None;
    }
  }
}
