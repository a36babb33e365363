/** Whack-a-critter (screens/whack_a_critter.py): critters rise out of nine
    holes, stay up for a while and sink again; a tap on a raised critter
    scores. A round lasts 45 seconds and ends in a game-over screen. */
module WhackACritter {
  import opened Kit
  import opened Router

  const RoundTime: real := 45.0
  const RiseTime: real := 0.2
  /** A hit critter disappears once its hit timer passes this. */
  const HitShowTime: real := 0.4
  const BodyRadius: int := 32
  /** At most this many holes are occupied at once. */
  const MaxActive: nat := 3
  const HoleCount: nat := 9
  const StarsPerHit: nat := 12
  const StarLife: real := 0.5
  const PopupLife: real := 0.7
  const ConfettiLife: real := 4.0
  const GameOverConfetti: nat := 40
  const MinConfetti: nat := 50
  const PlayAgainRect: Rect := Rect(210, 480, 300, 80)

  /** The nine hole centres, row by row. */
  const Holes: seq<Point> := [
    Point(120, 250), Point(360, 250), Point(600, 250),
    Point(120, 410), Point(360, 410), Point(600, 410),
    Point(120, 570), Point(360, 570), Point(600, 570)]

  function Hole(i: nat): (p: Point)
    requires i < HoleCount
    ensures p.x in {120, 360, 600} && p.y in {250, 410, 570}
  {
    Holes[i]
  }

  /** The table is the source's row-major layout: column `i % 3` over
      x in [120, 360, 600], row `i / 3` over y in [250, 410, 570]. */
  lemma HolesRowMajor(i: nat)
    requires i < HoleCount
    ensures Hole(i) == Point([120, 360, 600][i % 3], [250, 410, 570][i / 3])
  {
  }

  datatype CritterState = Rising | Visible | Sinking | Hit | Gone

  datatype Critter = Critter(
    hole: nat, cx: int, cy: int,
    state: CritterState,
    timer: real, visibleTime: real, progress: real, hitTimer: real,
    blinkTimer: real, blinking: bool)

  datatype Star = Star(x: real, y: real, vx: real, vy: real, life: real)
  datatype Popup = Popup(x: real, y: real, vy: real, life: real)
  datatype ConfettiBit = ConfettiBit(x: real, y: real, vx: real, vy: real, life: real)

  /** A critter just starting to rise out of hole `i`. */
  function NewCritter(i: nat, visibleTime: real, blinkTimer: real): (c: Critter)
    requires i < HoleCount
    ensures c.hole == i && c.state == Rising && CritterOk(c)
  {
    var h := Hole(i);
    Critter(i, h.x, h.y, Rising, 0.0, visibleTime, 0.0, 0.0, blinkTimer, false)
  }

  /** What every critter keeps: clocks never negative, height in [0, 1],
      and it sits in the hole it was spawned in. */
  predicate CritterOk(c: Critter) {
    c.timer >= 0.0 && c.hitTimer >= 0.0 && 0.0 <= c.progress <= 1.0
    && c.hole < HoleCount && c.cx == Hole(c.hole).x && c.cy == Hole(c.hole).y
  }

  /** `Critter.update`: the blink toggles when its timer runs out (the next
      open-eyes time is `blinkDraw`), then the life cycle advances by at most
      one legal step; the critter stays in its hole and keeps its visible
      time. */
  function CritterTick(c: Critter, dt: real, blinkDraw: real): (r: Critter)
    ensures Successor(c.state, r.state)
    ensures r.hole == c.hole && r.cx == c.cx && r.cy == c.cy && r.visibleTime == c.visibleTime
  {
    var timer := c.timer + dt;
    var bt := c.blinkTimer - dt;
    var blinking := if bt <= 0.0 then !c.blinking else c.blinking;
    var bt' := if bt <= 0.0 then (if blinking then 0.1 else blinkDraw) else bt;
    var c := c.(timer := timer, blinkTimer := bt', blinking := blinking);
    match c.state
    case Rising =>
      var progress := if 1.0 <= c.timer / RiseTime then 1.0 else c.timer / RiseTime;
      if progress >= 1.0 then c.(progress := progress, state := Visible, timer := 0.0)
      else c.(progress := progress)
    case Visible =>
      if c.timer >= c.visibleTime then c.(state := Sinking, timer := 0.0) else c
    case Sinking =>
      var progress := if 0.0 >= 1.0 - c.timer / RiseTime then 0.0 else 1.0 - c.timer / RiseTime;
      if progress <= 0.0 then c.(progress := progress, state := Gone) else c.(progress := progress)
    case Hit =>
      var ht := c.hitTimer + dt;
      if ht > HitShowTime then c.(hitTimer := ht, state := Gone) else c.(hitTimer := ht)
    case Gone => c
  }

  /** The legal moves of the life cycle: rising to visible, visible to
      sinking, sinking to gone, hit to gone, or staying put. */
  predicate Successor(a: CritterState, b: CritterState) {
    a == b
    || (a == Rising && b == Visible)
    || (a == Visible && b == Sinking)
    || (a == Sinking && b == Gone)
    || (a == Hit && b == Gone)
  }

  /** One frame takes one legal step of the life cycle, keeps the critter
      invariant and never moves the critter to another hole. Each step
      happens exactly when its clock runs out. */
  lemma CritterTickStep(c: Critter, dt: real, blinkDraw: real)
    requires CritterOk(c) && dt >= 0.0
    ensures var n := CritterTick(c, dt, blinkDraw);
      && Successor(c.state, n.state)
      && CritterOk(n) && n.hole == c.hole
      && (c.state == Rising ==> (n.state == Visible <==> c.timer + dt >= RiseTime))
      && (c.state == Visible ==> (n.state == Sinking <==> c.timer + dt >= c.visibleTime))
      && (c.state == Sinking ==> (n.state == Gone <==> c.timer + dt >= RiseTime))
      && (c.state == Hit ==> (n.state == Gone <==> c.hitTimer + dt > HitShowTime))
  {
    match c.state {
      case Rising =>
      case Visible =>
      case Sinking =>
      case Hit =>
      case Gone =>
    }
  }

  /** `hit_test`: only a rising or visible critter can be hit, within 44 px
      of its body centre, which sits lower the less it has risen. A hit is
      therefore within 44 px of the hole's centre across. */
  predicate HitTest(c: Critter, pos: Point)
    ensures HitTest(c, pos) ==> -(BodyRadius + 12) < pos.x - c.cx < BodyRadius + 12
  {
    (c.state == Rising || c.state == Visible)
    && var bodyY := c.cy - BodyRadius - 5 + Trunc((1.0 - c.progress) * (BodyRadius * 2) as real);
       DiscBound(pos.x - c.cx, pos.y - bodyY, BodyRadius + 12);
       (pos.x - c.cx) * (pos.x - c.cx) + (pos.y - bodyY) * (pos.y - bodyY)
         < (BodyRadius + 12) * (BodyRadius + 12)
  }

  /** A sinking, hit or gone critter can never be hit, wherever the tap. */
  lemma HitTestOnlyRaised(c: Critter, pos: Point)
    requires c.state !in {Rising, Visible}
    ensures !HitTest(c, pos)
  {
  }

  /** The tap scan: the last critter in the list that the tap hits. */
  method FindHit(cs: seq<Critter>, pos: Point) returns (k: Option<nat>)
    ensures k.Some? ==> k.value < |cs| && HitTest(cs[k.value], pos)
    ensures k.Some? ==> forall j :: k.value < j < |cs| ==> !HitTest(cs[j], pos)
    ensures k.None? ==> forall j :: 0 <= j < |cs| ==> !HitTest(cs[j], pos)
  {
    var i := |cs|;
    while i > 0
      invariant 0 <= i <= |cs|
      invariant forall j :: i <= j < |cs| ==> !HitTest(cs[j], pos)
    {
      i := i - 1;
      if HitTest(cs[i], pos) {
        return Some(i);
      }
    }
    return None;
  }

  /** The holes of the critters that are not gone. */
  function ActiveHoles(cs: seq<Critter>): set<nat> {
    set c | c in cs && c.state != Gone :: c.hole
  }

  /** `[i for i in range(9) if i not in active_holes]`, in order. */
  function FreeHoles(active: set<nat>): (r: seq<nat>)
    ensures forall i: nat :: i in r <==> i < HoleCount && i !in active
  {
    var all: seq<nat> := Draws<nat>(HoleCount, (i: nat) => i);
    assert forall x: nat :: x in all <==> x < HoleCount by {
      forall x | x in all ensures x < HoleCount {
        var j :| 0 <= j < |all| && all[j] == x;
      }
      forall x: nat | x < HoleCount ensures x in all {
        assert all[x] == x;
      }
    }
    var keep := (i: nat) => i !in active;
    var r := Filter(all, keep);
    assert forall i: nat :: keep(i) <==> i !in active;
    r
  }

  predicate DistinctHoles(cs: seq<Critter>) {
    forall i, j :: 0 <= i < j < |cs| ==> cs[i].hole != cs[j].hole
  }

  /** With distinct holes and nobody gone, the set of active holes has one
      hole per critter, so "fewer than 3 active holes" means "fewer than 3
      critters". */
  lemma {:induction false} ActiveHolesCount(cs: seq<Critter>)
    requires DistinctHoles(cs) && forall c :: c in cs ==> c.state != Gone
    ensures |ActiveHoles(cs)| == |cs|
    decreases |cs|
  {
    if cs != [] {
      var init, last := cs[..|cs| - 1], cs[|cs| - 1];
      assert cs == init + [last];
      assert last in cs;
      ActiveHolesCount(init);
      ActiveHolesSnoc(init, last);
      LastHoleFree(cs);
    }
  }

  lemma ActiveHolesSnoc(a: seq<Critter>, c: Critter)
    requires c.state != Gone
    ensures ActiveHoles(a + [c]) == ActiveHoles(a) + {c.hole}
  {
    assert forall x :: x in a + [c] <==> x in a || x == c;
  }

  lemma LastHoleFree(cs: seq<Critter>)
    requires DistinctHoles(cs) && cs != []
    ensures cs[|cs| - 1].hole !in ActiveHoles(cs[..|cs| - 1])
  {
    var init := cs[..|cs| - 1];
    forall c | c in init ensures c.hole != cs[|cs| - 1].hole {
      var i :| 0 <= i < |init| && init[i] == c;
      assert cs[i] == c;
    }
  }

  /** A star particle after a frame: it keeps its sideways speed, ages
      and falls ever faster. */
  function StarTick(s: Star, dt: real): (r: Star)
    ensures r.vx == s.vx
    ensures dt >= 0.0 ==> r.life <= s.life && r.vy >= s.vy
  {
    Star(s.x + s.vx * dt, s.y + s.vy * dt, s.vx, s.vy + 100.0 * dt, s.life - dt)
  }

  /** A "+1" popup after a frame: it keeps its column and speed, ages,
      and rises when its speed points up. */
  function PopupTick(p: Popup, dt: real): (r: Popup)
    ensures r.x == p.x && r.vy == p.vy
    ensures dt >= 0.0 ==> r.life <= p.life && (p.vy <= 0.0 ==> r.y <= p.y)
  {
    assert dt >= 0.0 && p.vy <= 0.0 ==> p.vy * dt <= 0.0;
    p.(y := p.y + p.vy * dt, life := p.life - dt)
  }

  function ConfettiTick(c: ConfettiBit, dt: real): ConfettiBit {
    c.(x := c.x + c.vx * dt, y := c.y + c.vy * dt, life := c.life - dt)
  }

  /** The random parts of a new critter. */
  datatype SpawnDraw = SpawnDraw(delay: real, pick: nat, visibleTime: real, blinkTimer: real)

  /** What the critter list keeps between frames: at most three critters,
      none gone, each well-formed and in a hole of its own. */
  predicate CrittersOk(cs: seq<Critter>) {
    |cs| <= MaxActive && DistinctHoles(cs)
    && forall c :: c in cs ==> c.state != Gone && CritterOk(c)
  }

  /** The spawn step: with fewer than three busy holes a new critter starts
      rising from one of the free holes (`random.choice` is the supplied
      `pick`, reduced to the number of free holes); otherwise nothing. */
  function SpawnInto(cs: seq<Critter>, d: SpawnDraw): (r: seq<Critter>)
    requires CrittersOk(cs)
    ensures CrittersOk(r)
    ensures |cs| < MaxActive ==> (
      && |r| == |cs| + 1 && r[..|cs|] == cs
      && r[|cs|] == NewCritter(r[|cs|].hole, d.visibleTime, d.blinkTimer)
      && r[|cs|].hole !in ActiveHoles(cs))
    ensures |cs| >= MaxActive ==> r == cs
  {
    var active := ActiveHoles(cs);
    ActiveHolesCount(cs);
    if |active| < MaxActive then
      var available := FreeHoles(active);
      FreeHolesExist(active);
      var idx := available[d.pick % |available|];
      assert idx in available;
      var n := NewCritter(idx, d.visibleTime, d.blinkTimer);
      assert forall c :: c in cs ==> c.hole in active;
      assert (cs + [n])[..|cs|] == cs;
      cs + [n]
    else cs
  }

  /** Fewer than nine busy holes leave a free one. */
  lemma FreeHolesExist(active: set<nat>)
    requires |active| < HoleCount
    ensures FreeHoles(active) != []
  {
    var all: set<nat> := {0, 1, 2, 3, 4, 5, 6, 7, 8};
    assert |all| == HoleCount;
    if FreeHoles(active) == [] {
      assert all <= active;
      SubsetSize(all, active);
    }
  }

  lemma {:induction false} SubsetSize(a: set<nat>, b: set<nat>)
    requires a <= b
    ensures |a| <= |b|
    decreases |a|
  {
    if a != {} {
      var x :| x in a;
      SubsetSize(a - {x}, b - {x});
    }
  }

  /** Every critter takes one frame; `blink(i)` redraws the i-th
      critter's blink. */
  function TickEach(cs: seq<Critter>, dt: real, blink: nat -> real): (t: seq<Critter>)
    requires CrittersOk(cs) && dt >= 0.0
    ensures |t| == |cs|
    ensures forall i :: 0 <= i < |cs| ==> t[i] == CritterTick(cs[i], dt, blink(i))
    ensures forall i :: 0 <= i < |cs| ==> CritterOk(t[i]) && t[i].hole == cs[i].hole
  {
    var t := seq(|cs|, i requires 0 <= i < |cs| => CritterTick(cs[i], dt, blink(i)));
    assert forall i :: 0 <= i < |cs| ==> CritterOk(t[i]) && t[i].hole == cs[i].hole by {
      forall i | 0 <= i < |cs| ensures CritterOk(t[i]) && t[i].hole == cs[i].hole {
        assert cs[i] in cs;
        CritterTickStep(cs[i], dt, blink(i));
      }
    }
    t
  }

  /** The critters' frame: each one ticks, and those gone afterwards are
      dropped. */
  function TickAll(cs: seq<Critter>, dt: real, blink: nat -> real): (r: seq<Critter>)
    requires CrittersOk(cs) && dt >= 0.0
    ensures CrittersOk(r)
  {
    var t := TickEach(cs, dt, blink);
    assert DistinctHoles(t);
    assert forall c :: c in t ==> CritterOk(c);
    FilterUp(t)
  }

  /** After the critters' frame, the list holds exactly the ticked critters
      that are not gone. */
  lemma TickAllMembers(cs: seq<Critter>, dt: real, blink: nat -> real)
    requires CrittersOk(cs) && dt >= 0.0
    ensures forall c :: c in TickAll(cs, dt, blink) <==>
      (exists i :: 0 <= i < |cs| && c == CritterTick(cs[i], dt, blink(i))) && c.state != Gone
  {
    var t := TickEach(cs, dt, blink);
    assert TickAll(cs, dt, blink) == FilterUp(t);
    forall c | c in t ensures exists i :: 0 <= i < |cs| && c == CritterTick(cs[i], dt, blink(i)) {
      var i :| 0 <= i < |t| && t[i] == c;
    }
    forall c | exists i :: 0 <= i < |cs| && c == CritterTick(cs[i], dt, blink(i)) ensures c in t {
      var i :| 0 <= i < |cs| && c == CritterTick(cs[i], dt, blink(i));
      assert t[i] == c;
    }
  }

  predicate StarsLive(ss: seq<Star>) { forall s :: s in ss ==> s.life > 0.0 }
  predicate PopupsLive(ps: seq<Popup>) { forall p :: p in ps ==> p.life > 0.0 }
  predicate ConfettiLive(cs: seq<ConfettiBit>) { forall c :: c in cs ==> c.life > 0.0 }

  /** Stars move and fall; those whose life has run out go. */
  function StarsFrame(ss: seq<Star>, dt: real): (r: seq<Star>)
    ensures StarsLive(r) && |r| <= |ss|
    ensures forall s :: s in ss && s.life - dt > 0.0 ==> StarTick(s, dt) in r
    ensures forall q :: q in r ==> exists s :: s in ss && q == StarTick(s, dt)
  {
    var moved := Map(ss, (s: Star) => StarTick(s, dt));
    assert forall s :: s in ss ==> StarTick(s, dt) in moved by {
      forall s | s in ss ensures StarTick(s, dt) in moved {
        var i :| 0 <= i < |ss| && ss[i] == s;
        assert moved[i] == StarTick(s, dt);
      }
    }
    assert forall q :: q in moved ==> exists s :: s in ss && q == StarTick(s, dt) by {
      forall q | q in moved ensures exists s :: s in ss && q == StarTick(s, dt) {
        var i :| 0 <= i < |moved| && moved[i] == q;
        assert ss[i] in ss;
      }
    }
    Filter(moved, (s: Star) => s.life > 0.0)
  }

  /** Score popups rise; those whose life has run out go. */
  function PopupsFrame(ps: seq<Popup>, dt: real): (r: seq<Popup>)
    ensures PopupsLive(r) && |r| <= |ps|
    ensures forall p :: p in ps && p.life - dt > 0.0 ==> PopupTick(p, dt) in r
    ensures forall q :: q in r ==> exists p :: p in ps && q == PopupTick(p, dt)
  {
    var moved := Map(ps, (p: Popup) => PopupTick(p, dt));
    assert forall p :: p in ps ==> PopupTick(p, dt) in moved by {
      forall p | p in ps ensures PopupTick(p, dt) in moved {
        var i :| 0 <= i < |ps| && ps[i] == p;
        assert moved[i] == PopupTick(p, dt);
      }
    }
    assert forall q :: q in moved ==> exists p :: p in ps && q == PopupTick(p, dt) by {
      forall q | q in moved ensures exists p :: p in ps && q == PopupTick(p, dt) {
        var i :| 0 <= i < |moved| && moved[i] == q;
        assert ps[i] in ps;
      }
    }
    Filter(moved, (p: Popup) => p.life > 0.0)
  }

  /** The game-over frame: confetti moves, spent pieces go, and one new
      piece (`newPiece`) joins while there are fewer than 50. */
  function ConfettiFrame(cs: seq<ConfettiBit>, dt: real, newPiece: ConfettiBit): (r: seq<ConfettiBit>)
    requires newPiece.life > 0.0
    ensures |r| <= |cs| + 1
    ensures ConfettiLive(r)
    ensures forall c :: c in cs && c.life - dt > 0.0 ==> ConfettiTick(c, dt) in r
    ensures forall c :: c in r ==> c == newPiece || exists d :: d in cs && c == ConfettiTick(d, dt)
  {
    var moved := Map(cs, (c: ConfettiBit) => ConfettiTick(c, dt));
    assert forall c :: c in cs ==> ConfettiTick(c, dt) in moved by {
      forall c | c in cs ensures ConfettiTick(c, dt) in moved {
        var i :| 0 <= i < |cs| && cs[i] == c;
        assert moved[i] == ConfettiTick(c, dt);
      }
    }
    assert forall c :: c in moved ==> exists d :: d in cs && c == ConfettiTick(d, dt) by {
      forall c | c in moved ensures exists d :: d in cs && c == ConfettiTick(d, dt) {
        var i :| 0 <= i < |moved| && moved[i] == c;
        assert cs[i] in cs;
      }
    }
    var kept := Filter(moved, (c: ConfettiBit) => c.life > 0.0);
    if |kept| < MinConfetti then kept + [newPiece] else kept
  }

  /** The moment the clock runs out: 40 new pieces of confetti join. */
  function GameOverShower(cs: seq<ConfettiBit>, drop: nat -> ConfettiBit): (r: seq<ConfettiBit>)
    requires ConfettiLive(cs)
    requires forall j :: 0 <= j < GameOverConfetti ==> drop(j).life == ConfettiLife
    ensures ConfettiLive(r) && |r| == |cs| + GameOverConfetti
    ensures r[..|cs|] == cs && forall j :: 0 <= j < GameOverConfetti ==> r[|cs| + j] == drop(j)
  {
    var r := cs + Draws(GameOverConfetti, drop);
    assert r[..|cs|] == cs;
    r
  }

  /** The 12 stars a whack throws from just above the critter, each from
      its own draw. */
  function StarBurst(c: Critter, star: nat -> Star): (r: seq<Star>)
    ensures |r| == StarsPerHit && StarsLive(r)
    ensures forall j :: 0 <= j < StarsPerHit ==>
      r[j].x == c.cx as real && r[j].y == (c.cy - 20) as real && r[j].life == StarLife
  {
    Draws(StarsPerHit, j => star(j).(x := c.cx as real, y := (c.cy - 20) as real, life := StarLife))
  }

  /** The "+1" popup a whack leaves 50 px above the critter. */
  function ScorePopup(c: Critter): Popup {
    Popup(c.cx as real, (c.cy - 50) as real, -100.0, PopupLife)
  }

  class WhackScreen {
    var score: nat
    var timeLeft: real
    var gameOver: bool
    var spawnTimer: real
    var critters: seq<Critter>
    var stars: seq<Star>
    var popups: seq<Popup>
    var confetti: seq<ConfettiBit>
    var timeElapsed: real
    /** Set by the first draw. */
    var backRect: Option<Rect>

    /** The clock never runs below zero; at most three critters are up,
        none gone, each in its own hole; nothing spent is kept. */
    ghost predicate Valid() reads this {
      timeLeft >= 0.0
      && CrittersOk(critters)
      && StarsLive(stars) && PopupsLive(popups) && ConfettiLive(confetti)
    }

    constructor ()
      ensures Valid() && score == 0 && timeLeft == RoundTime && !gameOver
      ensures critters == [] && stars == [] && popups == [] && confetti == []
      ensures backRect == None
    {
      score := 0;
      timeLeft := RoundTime;
      gameOver := false;
      spawnTimer := 0.0;
      critters, stars, popups, confetti := [], [], [], [];
      timeElapsed := 0.0;
      backRect := None;
    }

    /** The only state drawing changes: the back button's rectangle. */
    method Draw()
      modifies this
      ensures backRect == Some(BackRect)
      ensures Valid() <==> old(Valid())
      ensures critters == old(critters) && score == old(score) && gameOver == old(gameOver)
      ensures timeLeft == old(timeLeft) && spawnTimer == old(spawnTimer) && timeElapsed == old(timeElapsed)
      ensures stars == old(stars) && popups == old(popups) && confetti == old(confetti)
    {
      backRect := Some(BackRect);
    }

    /** A new round: score 0, a full clock, everything cleared. */
    method OnEnter()
      modifies this
      ensures Valid() && score == 0 && timeLeft == RoundTime && !gameOver
      ensures spawnTimer == 0.0 && timeElapsed == 0.0
      ensures critters == [] && stars == [] && popups == [] && confetti == []
      ensures backRect == old(backRect)
    {
      score := 0;
      timeLeft := RoundTime;
      gameOver := false;
      spawnTimer := 0.0;
      critters, stars, popups, confetti := [], [], [], [];
      timeElapsed := 0.0;
    }

    /** A press (any button): back first; after the round only the
        play-again button reacts, restarting the round; otherwise the last
        critter the tap hits is whacked: it turns to `Hit`, the score goes
        up by one, 12 stars and one "+1" appear. */
    method HandleEvent(e: Event, star: nat -> Star) returns (nav: Nav)
      requires Valid()
      modifies this
      ensures Valid()
      ensures nav == GoBack <==> e.MouseDown? && old(backRect).Some? && old(backRect).value.Contains(e.pos)
      ensures nav != GoBack ==> nav == Stay
      ensures nav == GoBack ==> unchanged(this)
      // After the round the play-again button starts a fresh one, exactly as
      // `OnEnter` does; any other tap changes nothing.
      ensures nav == Stay && e.MouseDown? && old(gameOver) ==>
        if PlayAgainRect.Contains(e.pos) then
          && score == 0 && !gameOver && timeLeft == RoundTime && spawnTimer == 0.0 && timeElapsed == 0.0
          && critters == [] && stars == [] && popups == [] && confetti == [] && backRect == old(backRect)
        else unchanged(this)
      ensures score == old(score) || score == old(score) + 1 || score == 0
      // During a round a tap whacks the last critter it hits, and scores
      // exactly when it hits one.
      ensures (nav == Stay && e.MouseDown? && !old(gameOver)) ==>
        && !gameOver && timeLeft == old(timeLeft) && spawnTimer == old(spawnTimer) && confetti == old(confetti)
        && timeElapsed == old(timeElapsed)
        && if exists j :: 0 <= j < |old(critters)| && HitTest(old(critters)[j], e.pos) then
             exists k :: (
               && 0 <= k < |old(critters)| && HitTest(old(critters)[k], e.pos)
               && (forall j :: k < j < |old(critters)| ==> !HitTest(old(critters)[j], e.pos))
               && critters == old(critters)[k := old(critters)[k].(state := Hit, hitTimer := 0.0)]
               && score == old(score) + 1
               && stars == old(stars) + StarBurst(old(critters)[k], star)
               && popups == old(popups) + [ScorePopup(old(critters)[k])])
           else
             critters == old(critters) && score == old(score) && stars == old(stars) && popups == old(popups)
      ensures score == old(score) + 1 ==> (
        && !old(gameOver)
        && |stars| == |old(stars)| + StarsPerHit && |popups| == |old(popups)| + 1
        && exists k :: (
          && 0 <= k < |old(critters)|
          && old(critters)[k].state in {Rising, Visible}
          && critters == old(critters)[k := old(critters)[k].(state := Hit, hitTimer := 0.0)]))
      ensures !e.MouseDown? ==> unchanged(this)
      ensures backRect == old(backRect)
    {
      nav := Stay;
      if !e.MouseDown? {
        return;
      }
      var pos := e.pos;
      if backRect.Some? && backRect.value.Contains(pos) {
        return GoBack;
      }
      if gameOver {
        if PlayAgainRect.Contains(pos) {
          OnEnter();
        }
        return;
      }
      var k := FindHit(critters, pos);
      if k.Some? {
        Whack(k.value, star);
      }
    }

    /** Critter `k` is whacked: it turns to `Hit`, the score goes up, and
        12 stars and a "+1" appear just above it. */
    method Whack(k: nat, star: nat -> Star)
      requires Valid() && k < |critters| && critters[k].state in {Rising, Visible}
      modifies this
      ensures Valid()
      ensures critters == old(critters)[k := old(critters)[k].(state := Hit, hitTimer := 0.0)]
      ensures score == old(score) + 1
      ensures stars == old(stars) + StarBurst(old(critters)[k], star)
      ensures popups == old(popups) + [ScorePopup(old(critters)[k])]
      ensures timeLeft == old(timeLeft) && gameOver == old(gameOver) && spawnTimer == old(spawnTimer)
      ensures confetti == old(confetti) && backRect == old(backRect) && timeElapsed == old(timeElapsed)
    {
      var c := critters[k];
      assert c in critters;
      var hit := c.(state := Hit, hitTimer := 0.0);
      var cs := critters[k := hit];
      assert forall x :: x in cs ==> x in critters || x == hit;
      assert CrittersOk(cs);
      var ss := stars + StarBurst(c, star);
      var ps := popups + [ScorePopup(c)];
      assert StarsLive(ss) && PopupsLive(ps);
      critters, score, stars, popups := cs, score + 1, ss, ps;
    }

    /** One frame. After the round only the confetti moves (topped up to
        50 pieces). Otherwise the clock runs down, ending the round at
        zero with 40 pieces of confetti; when the spawn timer runs out and
        fewer than three holes are busy, a critter rises from a free hole;
        then every critter advances and spent critters, stars and popups
        are dropped. */
    method Update(dt: real, spawn: SpawnDraw, blink: nat -> real, drop: nat -> ConfettiBit)
      requires Valid() && dt >= 0.0
      requires drop(0).life > 0.0
      requires forall j :: 0 <= j < GameOverConfetti ==> drop(j).life == ConfettiLife
      modifies this
      ensures Valid()
      ensures old(gameOver) ==> (
        && gameOver && critters == old(critters) && timeLeft == old(timeLeft)
        && confetti == ConfettiFrame(old(confetti), dt, drop(0))
        && stars == old(stars) && popups == old(popups) && spawnTimer == old(spawnTimer))
      ensures !old(gameOver) && old(timeLeft) - dt <= 0.0 ==> (
        && gameOver && timeLeft == 0.0 && critters == old(critters)
        && confetti == GameOverShower(old(confetti), drop)
        && stars == old(stars) && popups == old(popups) && spawnTimer == old(spawnTimer))
      ensures !old(gameOver) && old(timeLeft) - dt > 0.0 ==> (
        && !gameOver && timeLeft == old(timeLeft) - dt
        && critters == TickAll(
             if old(spawnTimer) - dt <= 0.0 then SpawnInto(old(critters), spawn) else old(critters),
             dt, blink)
        && spawnTimer == (if old(spawnTimer) - dt <= 0.0 then spawn.delay else old(spawnTimer) - dt)
        && stars == StarsFrame(old(stars), dt) && popups == PopupsFrame(old(popups), dt)
        && confetti == old(confetti))
      ensures score == old(score) && backRect == old(backRect)
      ensures timeElapsed == old(timeElapsed) + dt
    {
      timeElapsed := timeElapsed + dt;
      if gameOver {
        CelebrationFrame(dt, drop(0));
      } else if timeLeft - dt <= 0.0 {
        timeLeft, gameOver := 0.0, true;
        confetti := GameOverShower(confetti, drop);
      } else {
        PlayFrame(dt, spawn, blink);
      }
    }

    /** A frame after the round: only the confetti moves. */
    method CelebrationFrame(dt: real, newPiece: ConfettiBit)
      requires newPiece.life > 0.0
      modifies this
      ensures confetti == ConfettiFrame(old(confetti), dt, newPiece) && ConfettiLive(confetti)
      ensures |confetti| <= |old(confetti)| + 1
      ensures critters == old(critters) && spawnTimer == old(spawnTimer)
      ensures stars == old(stars) && popups == old(popups)
      ensures timeLeft == old(timeLeft) && gameOver == old(gameOver)
      ensures score == old(score) && backRect == old(backRect) && timeElapsed == old(timeElapsed)
    {
      confetti := ConfettiFrame(confetti, dt, newPiece);
    }

    /** A frame of a running round that does not end it. */
    method PlayFrame(dt: real, spawn: SpawnDraw, blink: nat -> real)
      requires Valid() && dt >= 0.0 && !gameOver && timeLeft - dt > 0.0
      modifies this
      ensures Valid() && !gameOver && timeLeft == old(timeLeft) - dt
      ensures critters == TickAll(
        if old(spawnTimer) - dt <= 0.0 then SpawnInto(old(critters), spawn) else old(critters),
        dt, blink)
      ensures spawnTimer == if old(spawnTimer) - dt <= 0.0 then spawn.delay else old(spawnTimer) - dt
      ensures stars == StarsFrame(old(stars), dt) && popups == PopupsFrame(old(popups), dt)
      ensures confetti == old(confetti) && score == old(score) && backRect == old(backRect)
      ensures timeElapsed == old(timeElapsed)
    {
      timeLeft := timeLeft - dt;
      CritterFrame(dt, spawn, blink);
      ParticleFrame(dt);
    }

    /** Stars and score popups move; spent ones go. */
    method ParticleFrame(dt: real)
      modifies this
      ensures stars == StarsFrame(old(stars), dt) && popups == PopupsFrame(old(popups), dt)
      ensures StarsLive(stars) && PopupsLive(popups)
      ensures critters == old(critters) && spawnTimer == old(spawnTimer) && confetti == old(confetti)
      ensures timeLeft == old(timeLeft) && gameOver == old(gameOver)
      ensures score == old(score) && backRect == old(backRect) && timeElapsed == old(timeElapsed)
    {
      stars, popups := StarsFrame(stars, dt), PopupsFrame(popups, dt);
    }

    /** The spawn step and the critters' frame. */
    method CritterFrame(dt: real, spawn: SpawnDraw, blink: nat -> real)
      requires CrittersOk(critters) && dt >= 0.0
      modifies this
      ensures critters == TickAll(
        if old(spawnTimer) - dt <= 0.0 then SpawnInto(old(critters), spawn) else old(critters),
        dt, blink)
      ensures spawnTimer == if old(spawnTimer) - dt <= 0.0 then spawn.delay else old(spawnTimer) - dt
      ensures CrittersOk(critters)
      ensures stars == old(stars) && popups == old(popups) && confetti == old(confetti)
      ensures timeLeft == old(timeLeft) && gameOver == old(gameOver)
      ensures score == old(score) && backRect == old(backRect) && timeElapsed == old(timeElapsed)
    {
      var cs := critters;
      var st := spawnTimer - dt;
      if st <= 0.0 {
        st := spawn.delay;
        cs := SpawnInto(cs, spawn);
      }
      spawnTimer := st;
      critters := TickAll(cs, dt, blink);
    }
  }

  /** `[c for c in critters if c.state != "gone"]`: every critter not gone
      stays, as often and in the order it occurs, and hence the holes stay
      distinct. */
  function FilterUp(cs: seq<Critter>): (r: seq<Critter>)
    ensures |r| <= |cs|
    ensures forall c :: c in r <==> c in cs && c.state != Gone
    ensures forall c {:trigger multiset(r)[c]} :: c in cs ==> multiset(r)[c] == if c.state != Gone then multiset(cs)[c] else 0
    ensures Subsequence(r, cs)
    ensures DistinctHoles(cs) ==> DistinctHoles(r)
  {
    if cs == [] then []
    else
      var rest := FilterUp(cs[1..]);
      var r := if cs[0].state != Gone then [cs[0]] + rest else rest;
      assert cs == [cs[0]] + cs[1..];
      forall c | c in cs ensures multiset(r)[c] == if c.state != Gone then multiset(cs)[c] else 0 {
        assert multiset(cs)[c] == multiset([cs[0]])[c] + multiset(cs[1..])[c];
        if c !in cs[1..] {
          assert c !in rest;
        }
      }
      assert Subsequence(r, cs) by {
        assert Subsequence(rest, cs[1..]);
        if cs[0].state != Gone {
          assert r[0] == cs[0] && r[1..] == rest;
        }
      }
      assert DistinctHoles(cs) ==> DistinctHoles(r) by {
        if DistinctHoles(cs) {
          DistinctTail(cs);
          if cs[0].state != Gone {
            DistinctCons(cs[0], rest);
          }
        }
      }
      r
  }

  lemma DistinctTail(cs: seq<Critter>)
    requires cs != [] && DistinctHoles(cs)
    ensures DistinctHoles(cs[1..]) && forall c :: c in cs[1..] ==> c.hole != cs[0].hole
  {
    forall c | c in cs[1..] ensures c.hole != cs[0].hole {
      var j :| 0 <= j < |cs[1..]| && cs[1..][j] == c;
      assert cs[j + 1] == c;
    }
  }

  lemma DistinctCons(c: Critter, rest: seq<Critter>)
    requires DistinctHoles(rest) && forall d :: d in rest ==> d.hole != c.hole
    ensures DistinctHoles([c] + rest)
  {
    var cs := [c] + rest;
    forall i, j | 0 <= i < j < |cs| ensures cs[i].hole != cs[j].hole {
      if i == 0 {
        assert cs[j] == rest[j - 1] && rest[j - 1] in rest;
      } else {
        assert cs[i] == rest[i - 1] && cs[j] == rest[j - 1];
      }
    }
  }
}
