/** The fireworks game (screens/fireworks.py): a tap launches a rocket from
    the bottom centre towards the tapped point; a rocket that arrives
    bursts into a group of 50 to 80 sparks that fall and fade. Rockets
    leave a trail of short-lived particles behind them. */
module Fireworks {
  import opened Kit
  import opened Router

  const StarCount: nat := 50
  /** Rockets never aim lower than this, so their bursts stay on screen. */
  const LowestTarget: int := Height - 80
  /** A rocket this close to its target bursts. */
  const BurstRadius: real := 10.0
  /** The trail timer emits one particle each time it passes this. */
  const TrailPeriod: real := 0.015
  const MinSparks: int := 50
  const MaxSparks: int := 80

  /** A background star; it twinkles by advancing its phase. */
  datatype Star = Star(x: int, y: int, radius: real, phase: real, speed: real)

  /** The ranges `_init_stars` draws from. */
  predicate StarOk(s: Star) {
    0 <= s.x <= Width && 0 <= s.y <= Height - 100 && 1.0 <= s.radius <= 2.5 && 1.5 <= s.speed <= 3.5
  }

  datatype Rocket = Rocket(x: real, y: real, tx: real, ty: real, speed: real, hue: real, trailTimer: real)

  /** A trail particle. Its colour is `hsv_to_rgb` of `hue`, which is not
      part of this model, so the hue itself is kept. */
  datatype Trail = Trail(x: real, y: real, life: real, maxLife: real, radius: real, hue: real)

  /** An explosion particle (colour: hue and saturation, as for `Trail`). */
  datatype Spark = Spark(
    x: real, y: real, vx: real, vy: real, gravity: real,
    life: real, maxLife: real, radius: real, hue: real, saturation: real)

  /** The random values of `_launch_rocket`. */
  datatype LaunchDraw = LaunchDraw(speed: real, hue: real)

  predicate LaunchDrawOk(d: LaunchDraw) {
    500.0 <= d.speed <= 650.0 && 0.0 <= d.hue <= 360.0
  }

  /** The random values of one trail particle. */
  datatype TrailDraw = TrailDraw(jx: real, jy: real, life: real, radius: real, jhue: real)

  predicate TrailDrawOk(d: TrailDraw) {
    && -3.0 <= d.jx <= 3.0 && -2.0 <= d.jy <= 2.0 && 0.2 <= d.life <= 0.45
    && 1.5 <= d.radius <= 3.0 && -20.0 <= d.jhue <= 20.0
  }

  /** The random values of one spark. The velocity depends on the burst
      pattern through `cos` and `sin`, so it is drawn as a whole. */
  datatype SparkDraw = SparkDraw(
    jx: real, jy: real, vx: real, vy: real, gravity: real,
    life: real, radius: real, jhue: real, saturation: real)

  predicate SparkDrawOk(d: SparkDraw) {
    && -2.0 <= d.jx <= 2.0 && -2.0 <= d.jy <= 2.0 && 60.0 <= d.gravity <= 120.0
    && 1.5 <= d.life <= 2.5 && 2.0 <= d.radius <= 4.0
    && -25.0 <= d.jhue <= 25.0 && 0.7 <= d.saturation <= 1.0
  }

  /** The random values of one burst: the spark count and each spark. */
  datatype BurstDraw = BurstDraw(count: int, sparks: nat -> SparkDraw)

  ghost predicate BurstDrawOk(d: BurstDraw) {
    MinSparks <= d.count <= MaxSparks && forall i :: SparkDrawOk(d.sparks(i))
  }

  /** `d` is the length of the rocket's path to its target: the value
      `math.hypot` returns, characterised without a square root. */
  predicate IsHypot(d: real, r: Rocket) {
    d >= 0.0 && d * d == SqDist(r.tx, r.ty, r.x, r.y)
  }

  /** Python's float `%` by 360: the remainder takes the sign of the
      divisor, so it is always in [0, 360). */
  function HueMod(v: real): (r: real)
    ensures 0.0 <= r < 360.0
    ensures -360.0 <= v < 0.0 ==> r == v + 360.0
    ensures 0.0 <= v < 360.0 ==> r == v
    ensures 360.0 <= v < 720.0 ==> r == v - 360.0
  {
    var k := (v / 360.0).Floor;
    assert k as real <= v / 360.0 < k as real + 1.0;
    v - 360.0 * k as real
  }

  /** `_launch_rocket`: from the bottom centre, towards the tap, aiming no
      lower than 80 pixels above the bottom edge. */
  function Launch(tx: int, ty: int, d: LaunchDraw): (r: Rocket)
    ensures r.x == (Width / 2) as real && r.y == Height as real && r.trailTimer == 0.0
    ensures r.tx == tx as real && r.ty <= LowestTarget as real
    ensures ty <= LowestTarget ==> r.ty == ty as real
    ensures ty > LowestTarget ==> r.ty == LowestTarget as real
    ensures LaunchDrawOk(d) ==> RocketOk(r)
  {
    Rocket((Width / 2) as real, Height as real, tx as real, Min(ty, LowestTarget) as real, d.speed, d.hue, 0.0)
  }

  /** What every rocket keeps while it flies. */
  predicate RocketOk(r: Rocket) {
    r.ty <= LowestTarget as real && 500.0 <= r.speed <= 650.0 && 0.0 <= r.trailTimer <= TrailPeriod
  }

  /** One frame of a rocket at distance `d >= 10` from its target: it moves
      `speed * dt` towards the target, and the trail timer runs, starting
      over once it passes the trail period. */
  function Fly(r: Rocket, dt: real, d: real): (q: Rocket)
    requires d >= BurstRadius
    ensures q.tx == r.tx && q.ty == r.ty && q.speed == r.speed && q.hue == r.hue
    ensures q.trailTimer == (if r.trailTimer + dt > TrailPeriod then 0.0 else r.trailTimer + dt)
    ensures RocketOk(r) && dt >= 0.0 ==> RocketOk(q)
  {
    var dx := r.tx - r.x;
    var dy := r.ty - r.y;
    var vx := dx / d * r.speed;
    var vy := dy / d * r.speed;
    var timer := r.trailTimer + dt;
    r.(x := r.x + vx * dt, y := r.y + vy * dt, trailTimer := if timer > TrailPeriod then 0.0 else timer)
  }

  /** The trail particle a flying rocket emits, at its new position, when
      its timer passes the trail period; none otherwise. */
  function TrailOf(r: Rocket, moved: Rocket, dt: real, t: TrailDraw): (p: Option<Trail>)
    ensures p.Some? <==> r.trailTimer + dt > TrailPeriod
    ensures p.Some? && TrailDrawOk(t) ==>
      && 0.2 <= p.value.life <= p.value.maxLife == 0.45
      && moved.x - 3.0 <= p.value.x <= moved.x + 3.0
      && moved.y - 2.0 <= p.value.y <= moved.y + 2.0
  {
    if r.trailTimer + dt > TrailPeriod then
      Some(Trail(moved.x + t.jx, moved.y + t.jy, t.life, 0.45, t.radius, r.hue + t.jhue))
    else None
  }

  /** Spark `i` of a burst at (x, y). */
  function NewSpark(x: real, y: real, baseHue: real, d: SparkDraw): (s: Spark)
    ensures SparkDrawOk(d) ==> 1.5 <= s.life == s.maxLife <= 2.5
    ensures SparkDrawOk(d) ==> x - 2.0 <= s.x <= x + 2.0 && y - 2.0 <= s.y <= y + 2.0
    ensures 0.0 <= s.hue < 360.0
  {
    Spark(x + d.jx, y + d.jy, d.vx, d.vy, d.gravity, d.life, d.life, d.radius,
      HueMod(baseHue + d.jhue), d.saturation)
  }

  /** The group `_spawn_explosion` builds: `count` sparks around (x, y). */
  function BurstOf(x: real, y: real, baseHue: real, d: BurstDraw): (g: seq<Spark>)
    ensures d.count >= 0 ==> |g| == d.count
    ensures BurstDrawOk(d) ==> MinSparks <= |g| <= MaxSparks && SparksOk(g)
    ensures BurstDrawOk(d) ==> forall s :: s in g ==> s.life <= 2.5
  {
    seq(Max(d.count, 0), i requires 0 <= i => NewSpark(x, y, baseHue, d.sparks(i)))
  }

  /** The `for i in range(count)` loop of `_spawn_explosion`. */
  method SpawnExplosion(x: real, y: real, baseHue: real, d: BurstDraw) returns (g: seq<Spark>)
    ensures g == BurstOf(x, y, baseHue, d)
  {
    g := [];
    var i := 0;
    while i < d.count
      invariant 0 <= i <= Max(d.count, 0) && |g| == i
      invariant forall j :: 0 <= j < i ==> g[j] == NewSpark(x, y, baseHue, d.sparks(j))
    {
      g := g + [NewSpark(x, y, baseHue, d.sparks(i))];
      i := i + 1;
    }
  }

  predicate TrailOk(ts: seq<Trail>) {
    forall p :: p in ts ==> p.life > 0.0
  }

  predicate SparksOk(g: seq<Spark>) {
    forall s :: s in g ==> s.life > 0.0
  }

  /** No explosion group is empty, and every spark has life left. */
  predicate ExplosionsOk(gs: seq<seq<Spark>>) {
    forall g :: g in gs ==> g != [] && SparksOk(g)
  }

  /** What `_update_rockets` produces: the rockets still flying, the new
      explosion groups and the new trail particles, each in order. */
  datatype RocketsFrame = RocketsFrame(kept: seq<Rocket>, groups: seq<seq<Spark>>, trail: seq<Trail>)

  /** The first `n` rockets after one frame. `dists(i)` is rocket `i`'s
      distance to its target, `trails(i)` and `bursts(i)` its draws. A
      rocket closer than 10 bursts and is removed; any other one flies. */
  function Frame(rs: seq<Rocket>, n: nat, dt: real, dists: nat -> real,
                 trails: nat -> TrailDraw, bursts: nat -> BurstDraw): (f: RocketsFrame)
    requires n <= |rs|
    ensures |f.kept| + |f.groups| == n && |f.trail| <= |f.kept|
    decreases n
  {
    if n == 0 then RocketsFrame([], [], [])
    else
      var f := Frame(rs, n - 1, dt, dists, trails, bursts);
      var r := rs[n - 1];
      if dists(n - 1) < BurstRadius then
        RocketsFrame(f.kept, f.groups + [BurstOf(r.x, r.y, r.hue, bursts(n - 1))], f.trail)
      else
        var q := Fly(r, dt, dists(n - 1));
        RocketsFrame(f.kept + [q], f.groups, f.trail + Opt(TrailOf(r, q, dt, trails(n - 1))))
  }

  function Opt<T>(o: Option<T>): (s: seq<T>)
    ensures o.Some? ==> s == [o.value]
    ensures o.None? ==> s == []
  {
    if o.Some? then [o.value] else []
  }

  /** Every rocket either keeps flying or bursts into exactly one group:
      the kept rockets are the far ones and the groups the near ones. */
  lemma {:induction false} RocketsConserved(rs: seq<Rocket>, n: nat, dt: real, dists: nat -> real,
                                            trails: nat -> TrailDraw, bursts: nat -> BurstDraw)
    requires n <= |rs|
    ensures |Frame(rs, n, dt, dists, trails, bursts).groups| == NearCount(n, dists)
    ensures |Frame(rs, n, dt, dists, trails, bursts).kept| == n - NearCount(n, dists)
    decreases n
  {
    if n > 0 {
      RocketsConserved(rs, n - 1, dt, dists, trails, bursts);
    }
  }

  /** How many of the first `n` rockets are within the burst radius. */
  function NearCount(n: nat, dists: nat -> real): (c: nat)
    ensures c <= n
  {
    if n == 0 then 0 else NearCount(n - 1, dists) + (if dists(n - 1) < BurstRadius then 1 else 0)
  }

  /** With well-drawn values, every new group has 50 to 80 sparks, all
      alive. */
  lemma {:induction false} FrameGroupsOk(rs: seq<Rocket>, n: nat, dt: real, dists: nat -> real,
                                         trails: nat -> TrailDraw, bursts: nat -> BurstDraw)
    requires n <= |rs|
    requires forall i :: BurstDrawOk(bursts(i))
    ensures forall g :: g in Frame(rs, n, dt, dists, trails, bursts).groups ==>
      MinSparks <= |g| <= MaxSparks && SparksOk(g)
    decreases n
  {
    if n > 0 {
      FrameGroupsOk(rs, n - 1, dt, dists, trails, bursts);
      assert BurstDrawOk(bursts(n - 1));
    }
  }

  /** With well-drawn values, every new trail particle has life left. */
  lemma {:induction false} FrameTrailOk(rs: seq<Rocket>, n: nat, dt: real, dists: nat -> real,
                                        trails: nat -> TrailDraw, bursts: nat -> BurstDraw)
    requires n <= |rs|
    requires forall i :: TrailDrawOk(trails(i))
    ensures TrailOk(Frame(rs, n, dt, dists, trails, bursts).trail)
    decreases n
  {
    if n > 0 {
      FrameTrailOk(rs, n - 1, dt, dists, trails, bursts);
      assert TrailDrawOk(trails(n - 1));
    }
  }

  /** Every rocket still flying keeps the launch bounds. */
  lemma {:induction false} FrameKeptOk(rs: seq<Rocket>, n: nat, dt: real, dists: nat -> real,
                                       trails: nat -> TrailDraw, bursts: nat -> BurstDraw)
    requires n <= |rs| && dt >= 0.0
    requires forall r :: r in rs ==> RocketOk(r)
    ensures forall q :: q in Frame(rs, n, dt, dists, trails, bursts).kept ==> RocketOk(q)
    decreases n
  {
    if n > 0 {
      FrameKeptOk(rs, n - 1, dt, dists, trails, bursts);
      assert rs[n - 1] in rs;
    }
  }

  /** The `for r in self.rockets` loop of `_update_rockets` and the
      removal of the rockets that burst. */
  method StepRockets(rs: seq<Rocket>, dt: real, dists: nat -> real,
                     trails: nat -> TrailDraw, bursts: nat -> BurstDraw)
    returns (kept: seq<Rocket>, groups: seq<seq<Spark>>, trail: seq<Trail>)
    ensures RocketsFrame(kept, groups, trail) == Frame(rs, |rs|, dt, dists, trails, bursts)
  {
    kept, groups, trail := [], [], [];
    var i := 0;
    while i < |rs|
      invariant 0 <= i <= |rs|
      invariant RocketsFrame(kept, groups, trail) == Frame(rs, i, dt, dists, trails, bursts)
    {
      var r := rs[i];
      ghost var next := Frame(rs, i + 1, dt, dists, trails, bursts);
      if dists(i) < BurstRadius {
        var g := SpawnExplosion(r.x, r.y, r.hue, bursts(i));
        groups := groups + [g];
        assert next == RocketsFrame(kept, groups, trail);
      } else {
        var q := Fly(r, dt, dists(i));
        ghost var emitted := Opt(TrailOf(r, q, dt, trails(i)));
        if r.trailTimer + dt > TrailPeriod {
          var t := trails(i);
          trail := trail + [Trail(q.x + t.jx, q.y + t.jy, t.life, 0.45, t.radius, r.hue + t.jhue)];
        }
        kept := kept + [q];
        assert next == RocketsFrame(kept, groups, trail);
      }
      i := i + 1;
    }
  }

  /** A flying rocket heads straight for its target: it moves along the
      line to the target by the fraction `speed * dt / d` of the way, and
      the rest of the way is left. */
  lemma FlyAlongLine(r: Rocket, dt: real, d: real)
    requires d >= BurstRadius
    ensures var q := Fly(r, dt, d); var k := r.speed * dt / d;
      && q.x - r.x == (r.tx - r.x) * k && q.y - r.y == (r.ty - r.y) * k
      && r.tx - q.x == (r.tx - r.x) * (1.0 - k) && r.ty - q.y == (r.ty - r.y) * (1.0 - k)
  {
    Scale(r.tx - r.x, d, r.speed, dt);
    Scale(r.ty - r.y, d, r.speed, dt);
  }

  /** When `d` is the rocket's true distance to its target, its new
      distance is its old one less `speed * dt` (or, past the target,
      the overshoot). */
  lemma FlyTowardsTarget(r: Rocket, dt: real, d: real)
    requires IsHypot(d, r) && d >= BurstRadius
    ensures var q := Fly(r, dt, d);
      SqDist(r.tx, r.ty, q.x, q.y) == (d - r.speed * dt) * (d - r.speed * dt)
  {
    FlyAlongLine(r, dt, d);
    var q := Fly(r, dt, d);
    RemainingAfterStep(r.tx, r.ty, r.x, r.y, q.x, q.y, d, r.speed * dt);
  }

  /** Going the fraction `step / d` of the way along a line of length `d`
      leaves `d - step` of it. */
  lemma RemainingAfterStep(tx: real, ty: real, x: real, y: real, qx: real, qy: real, d: real, step: real)
    requires d > 0.0 && d * d == SqDist(tx, ty, x, y)
    requires tx - qx == (tx - x) * (1.0 - step / d) && ty - qy == (ty - y) * (1.0 - step / d)
    ensures SqDist(tx, ty, qx, qy) == (d - step) * (d - step)
  {
    DivMul(step, d);
    Remaining(tx, ty, x, y, qx, qy, d, step / d, step);
  }

  /** What is left of the way, as a squared distance. */
  lemma Remaining(tx: real, ty: real, x: real, y: real, qx: real, qy: real, d: real, k: real, step: real)
    requires d * d == SqDist(tx, ty, x, y) && k * d == step
    requires tx - qx == (tx - x) * (1.0 - k) && ty - qy == (ty - y) * (1.0 - k)
    ensures SqDist(tx, ty, qx, qy) == (d - step) * (d - step)
  {
    Approach(tx - x, ty - y, d, k);
  }

  lemma DivMul(a: real, d: real)
    requires d != 0.0
    ensures a / d * d == a
  {
  }

  /** Scaling both legs of a right triangle with hypotenuse `d` by
      `1 - k` scales the squared hypotenuse to `(d - k * d)` squared. */
  lemma Approach(dx: real, dy: real, d: real, k: real)
    requires d * d == dx * dx + dy * dy
    ensures (dx * (1.0 - k)) * (dx * (1.0 - k)) + (dy * (1.0 - k)) * (dy * (1.0 - k)) == (d - k * d) * (d - k * d)
  {
    var c := 1.0 - k;
    SquareScale(dx, dy, c);
    SquareScale(d, 0.0, c);
    assert d * c == d - k * d;
  }

  lemma Scale(a: real, d: real, s: real, t: real)
    requires d != 0.0
    ensures a / d * s * t == a * (s * t / d)
  {
    var u, w := a / d, s * t / d;
    assert u * d == a && w * d == s * t;
    assert (u * s * t) * d == (a * w) * d;
  }

  lemma SquareScale(a: real, b: real, c: real)
    ensures (a * c) * (a * c) + (b * c) * (b * c) == (c * c) * (a * a + b * b)
  {
  }

  /** One trail particle after a frame: it only ages. */
  function AgeTrail(p: Trail, dt: real): (r: Trail)
    ensures r.(life := p.life) == p
    ensures dt >= 0.0 ==> r.life <= p.life
  {
    p.(life := p.life - dt)
  }

  /** `_update_trail_particles`: every particle loses `dt` of life and
      exactly those with life left survive, in order. */
  function TrailAfter(ts: seq<Trail>, dt: real): (r: seq<Trail>)
    ensures TrailOk(r) && |r| <= |ts|
    ensures forall i :: 0 <= i < |ts| && ts[i].life - dt > 0.0 ==> AgeTrail(ts[i], dt) in r
    ensures forall p :: p in r ==> exists i :: 0 <= i < |ts| && p == AgeTrail(ts[i], dt)
    decreases |ts|
  {
    if ts == [] then []
    else
      var last := ts[|ts| - 1];
      var before := TrailAfter(ts[..|ts| - 1], dt);
      before + (if last.life - dt > 0.0 then [AgeTrail(last, dt)] else [])
  }

  /** The loop of `_update_trail_particles`. */
  method AgeTrailParticles(ts: seq<Trail>, dt: real) returns (alive: seq<Trail>)
    ensures alive == TrailAfter(ts, dt)
  {
    alive := [];
    var i := 0;
    while i < |ts|
      invariant 0 <= i <= |ts| && alive == TrailAfter(ts[..i], dt)
    {
      assert ts[..i + 1][..i] == ts[..i];
      var p := ts[i].(life := ts[i].life - dt);
      if p.life > 0.0 {
        alive := alive + [p];
      }
      i := i + 1;
    }
    assert ts[..|ts|] == ts;
  }

  /** One spark after a frame: it ages, moves with its velocity and is
      pulled down by its gravity; its sideways speed, gravity and colour
      stay. */
  function AgeSpark(s: Spark, dt: real): (r: Spark)
    ensures r.(x := s.x, y := s.y, vy := s.vy, life := s.life) == s
    ensures dt >= 0.0 ==> r.life <= s.life && (s.gravity >= 0.0 ==> r.vy >= s.vy)
  {
    assert dt >= 0.0 && s.gravity >= 0.0 ==> s.gravity * dt >= 0.0;
    s.(life := s.life - dt, x := s.x + s.vx * dt, y := s.y + s.vy * dt, vy := s.vy + s.gravity * dt)
  }

  /** The sparks of one group after a frame: those with life left. */
  function SparksAfter(g: seq<Spark>, dt: real): (r: seq<Spark>)
    ensures SparksOk(r) && |r| <= |g|
    ensures forall i :: 0 <= i < |g| && g[i].life - dt > 0.0 ==> AgeSpark(g[i], dt) in r
    ensures forall p :: p in r ==> exists i :: 0 <= i < |g| && p == AgeSpark(g[i], dt)
    decreases |g|
  {
    if g == [] then []
    else
      var last := g[|g| - 1];
      var before := SparksAfter(g[..|g| - 1], dt);
      before + (if last.life - dt > 0.0 then [AgeSpark(last, dt)] else [])
  }

  /** `_update_explosions`: every group ages, and the groups left empty are
      dropped. */
  function ExplosionsAfter(gs: seq<seq<Spark>>, dt: real): (r: seq<seq<Spark>>)
    ensures ExplosionsOk(r) && |r| <= |gs|
    decreases |gs|
  {
    if gs == [] then []
    else
      var before := ExplosionsAfter(gs[..|gs| - 1], dt);
      var last := SparksAfter(gs[|gs| - 1], dt);
      before + (if last != [] then [last] else [])
  }

  /** No group that still has a live spark is dropped. */
  lemma {:induction false} ExplosionsKeepLive(gs: seq<seq<Spark>>, dt: real, i: nat)
    requires i < |gs| && SparksAfter(gs[i], dt) != []
    ensures SparksAfter(gs[i], dt) in ExplosionsAfter(gs, dt)
    decreases |gs|
  {
    if i < |gs| - 1 {
      ExplosionsKeepLive(gs[..|gs| - 1], dt, i);
    }
  }

  /** Every group left after the frame is some burst's sparks after it. */
  lemma {:induction false} ExplosionsFromBursts(gs: seq<seq<Spark>>, dt: real, h: seq<Spark>)
    requires h in ExplosionsAfter(gs, dt)
    ensures exists i :: 0 <= i < |gs| && h == SparksAfter(gs[i], dt)
    decreases |gs|
  {
    var init := gs[..|gs| - 1];
    if h in ExplosionsAfter(init, dt) {
      ExplosionsFromBursts(init, dt, h);
      var i :| 0 <= i < |init| && h == SparksAfter(init[i], dt);
      assert init[i] == gs[i];
    } else {
      assert h == SparksAfter(gs[|gs| - 1], dt);
    }
  }

  /** The inner loop of `_update_explosions`, over one group. */
  method AgeSparks(g: seq<Spark>, dt: real) returns (alive: seq<Spark>)
    ensures alive == SparksAfter(g, dt)
  {
    alive := [];
    var j := 0;
    while j < |g|
      invariant 0 <= j <= |g| && alive == SparksAfter(g[..j], dt)
    {
      assert g[..j + 1][..j] == g[..j] && g[..j + 1][j] == g[j];
      var s := g[j];
      var life := s.life - dt;
      if life > 0.0 {
        alive := alive + [AgeSpark(s, dt)];
      }
      j := j + 1;
    }
    assert g[..|g|] == g;
  }

  /** The outer loop of `_update_explosions`. */
  method AgeExplosions(gs: seq<seq<Spark>>, dt: real) returns (alive: seq<seq<Spark>>)
    ensures alive == ExplosionsAfter(gs, dt)
  {
    alive := [];
    var i := 0;
    while i < |gs|
      invariant 0 <= i <= |gs| && alive == ExplosionsAfter(gs[..i], dt)
    {
      assert gs[..i + 1][..i] == gs[..i];
      var g := AgeSparks(gs[i], dt);
      if g != [] {
        alive := alive + [g];
      }
      i := i + 1;
    }
    assert gs[..|gs|] == gs;
  }

  /** A frame at least as long as every spark's remaining life clears all
      explosions: a burst lasts at most its sparks' 2.5 seconds. */
  lemma {:induction false} ExplosionsBurnOut(gs: seq<seq<Spark>>, dt: real)
    requires forall i, j :: 0 <= i < |gs| && 0 <= j < |gs[i]| ==> gs[i][j].life <= dt
    ensures ExplosionsAfter(gs, dt) == []
    decreases |gs|
  {
    if gs != [] {
      ExplosionsBurnOut(gs[..|gs| - 1], dt);
      SparksBurnOut(gs[|gs| - 1], dt);
    }
  }

  lemma {:induction false} SparksBurnOut(g: seq<Spark>, dt: real)
    requires forall j :: 0 <= j < |g| ==> g[j].life <= dt
    ensures SparksAfter(g, dt) == []
    decreases |g|
  {
    if g != [] {
      SparksBurnOut(g[..|g| - 1], dt);
    }
  }

  /** One star after a frame: its phase advances by its speed; nothing
      else about it changes, so it keeps the ranges it was drawn from. */
  function Twinkle(s: Star, dt: real): (t: Star)
    ensures t.x == s.x && t.y == s.y && t.radius == s.radius && t.speed == s.speed
    ensures t.phase - s.phase == s.speed * dt
    ensures StarOk(t) <==> StarOk(s)
  {
    Star(s.x, s.y, s.radius, s.phase + s.speed * dt, s.speed)
  }

  /** The loop of `_update_stars`. */
  method TwinkleStars(ss: seq<Star>, dt: real) returns (r: seq<Star>)
    ensures |r| == |ss| && forall i :: 0 <= i < |ss| ==> r[i] == Twinkle(ss[i], dt)
  {
    r := [];
    var i := 0;
    while i < |ss|
      invariant 0 <= i <= |ss| && |r| == i
      invariant forall j :: 0 <= j < i ==> r[j] == Twinkle(ss[j], dt)
    {
      r := r + [Twinkle(ss[i], dt)];
      i := i + 1;
    }
  }

  /** `_init_stars`: fifty stars, star `i` drawn by `draws(i)`. */
  method InitStars(draws: nat -> Star) returns (ss: seq<Star>)
    requires forall i :: StarOk(draws(i))
    ensures |ss| == StarCount && forall i :: 0 <= i < StarCount ==> ss[i] == draws(i)
  {
    ss := [];
    var i := 0;
    while i < StarCount
      invariant 0 <= i <= StarCount && |ss| == i
      invariant forall j :: 0 <= j < i ==> ss[j] == draws(j)
    {
      ss := ss + [draws(i)];
      i := i + 1;
    }
  }

  class FireworksScreen {
    var rockets: seq<Rocket>
    var explosions: seq<seq<Spark>>
    var trail: seq<Trail>
    var stars: seq<Star>
    var backRect: Option<Rect>

    /** Every rocket keeps its launch bounds, every particle has life left,
        no explosion group is empty, and the stars are as drawn. */
    ghost predicate Valid() reads this {
      && (forall r :: r in rockets ==> RocketOk(r))
      && TrailOk(trail) && ExplosionsOk(explosions)
      && (forall i :: 0 <= i < |stars| ==> StarOk(stars[i]))
    }

    constructor ()
      ensures Valid() && rockets == [] && explosions == [] && trail == [] && stars == [] && backRect == None
    {
      rockets, explosions, trail, stars, backRect := [], [], [], [], None;
    }

    /** The state `draw` changes: the back-button rectangle. */
    method Draw()
      requires Valid()
      modifies this
      ensures Valid() && backRect == Some(BackRect)
      ensures rockets == old(rockets) && explosions == old(explosions) && trail == old(trail) && stars == old(stars)
    {
      backRect := Some(BackRect);
    }

    /** `on_enter`: no rockets, explosions or trail, and fifty new stars. */
    method OnEnter(draws: nat -> Star)
      requires Valid() && forall i :: StarOk(draws(i))
      modifies this
      ensures Valid() && rockets == [] && explosions == [] && trail == []
      ensures |stars| == StarCount && forall i :: 0 <= i < StarCount ==> stars[i] == draws(i)
      ensures backRect == old(backRect)
    {
      rockets, explosions, trail := [], [], [];
      var ss := InitStars(draws);
      stars := ss;
    }

    /** A left-button press on the back button goes back; anywhere else it
        launches one rocket towards the press. Nothing else reacts. */
    method HandleEvent(e: Event, d: LaunchDraw) returns (nav: Nav)
      requires Valid() && LaunchDrawOk(d)
      modifies this
      ensures Valid()
      ensures explosions == old(explosions) && trail == old(trail) && stars == old(stars) && backRect == old(backRect)
      ensures nav == (if e.MouseDown? && e.button == 1 && backRect.Some? && backRect.value.Contains(e.pos) then GoBack else Stay)
      ensures e.MouseDown? && e.button == 1 && nav == Stay ==> rockets == old(rockets) + [Launch(e.pos.x, e.pos.y, d)]
      ensures !(e.MouseDown? && e.button == 1 && nav == Stay) ==> rockets == old(rockets)
    {
      nav := Stay;
      if e.MouseDown? && e.button == 1 {
        if backRect.Some? && backRect.value.Contains(e.pos) {
          nav := GoBack;
          return;
        }
        rockets := rockets + [Launch(e.pos.x, e.pos.y, d)];
      }
    }

    /** `update`: the stars twinkle, the rockets fly or burst (as `Frame`
        says), and then the trail particles and the explosions, new ones
        included, age and lose what ran out. `dists(i)` is rocket `i`'s
        distance to its target. */
    method Update(dt: real, dists: nat -> real, trails: nat -> TrailDraw, bursts: nat -> BurstDraw)
      requires Valid() && dt >= 0.0
      requires forall i :: 0 <= i < |rockets| ==> IsHypot(dists(i), rockets[i])
      requires forall i :: TrailDrawOk(trails(i)) && BurstDrawOk(bursts(i))
      modifies this
      ensures Valid() && backRect == old(backRect) && |stars| == |old(stars)|
      ensures forall i :: 0 <= i < |stars| ==> stars[i] == Twinkle(old(stars[i]), dt)
      ensures var f := Frame(old(rockets), |old(rockets)|, dt, dists, trails, bursts);
        && rockets == f.kept
        && trail == TrailAfter(old(trail) + f.trail, dt)
        && explosions == ExplosionsAfter(old(explosions) + f.groups, dt)
    {
      UpdateStars(dt);
      UpdateRockets(dt, dists, trails, bursts);
      UpdateTrailParticles(dt);
      UpdateExplosions(dt);
    }

    /** `_update_stars`. */
    method UpdateStars(dt: real)
      requires Valid()
      modifies this
      ensures Valid() && |stars| == |old(stars)|
      ensures rockets == old(rockets) && trail == old(trail) && explosions == old(explosions) && backRect == old(backRect)
      ensures forall i :: 0 <= i < |stars| ==> stars[i] == Twinkle(old(stars[i]), dt)
    {
      var ss := TwinkleStars(stars, dt);
      stars := ss;
    }

    /** `_update_rockets`: the far rockets fly, the near ones burst into new
        groups and are removed, and the new trail particles join the
        trail. */
    method UpdateRockets(dt: real, dists: nat -> real, trails: nat -> TrailDraw, bursts: nat -> BurstDraw)
      requires Valid() && dt >= 0.0
      requires forall i :: TrailDrawOk(trails(i)) && BurstDrawOk(bursts(i))
      modifies this
      ensures Valid() && stars == old(stars) && backRect == old(backRect)
      ensures var f := Frame(old(rockets), |old(rockets)|, dt, dists, trails, bursts);
        rockets == f.kept && trail == old(trail) + f.trail && explosions == old(explosions) + f.groups
    {
      var kept, groups, newTrail := StepRockets(rockets, dt, dists, trails, bursts);
      FrameGroupsOk(rockets, |rockets|, dt, dists, trails, bursts);
      FrameTrailOk(rockets, |rockets|, dt, dists, trails, bursts);
      FrameKeptOk(rockets, |rockets|, dt, dists, trails, bursts);
      rockets, trail, explosions := kept, trail + newTrail, explosions + groups;
    }

    /** `_update_trail_particles`. */
    method UpdateTrailParticles(dt: real)
      requires Valid()
      modifies this
      ensures Valid() && trail == TrailAfter(old(trail), dt)
      ensures rockets == old(rockets) && stars == old(stars) && explosions == old(explosions) && backRect == old(backRect)
    {
      var t := AgeTrailParticles(trail, dt);
      trail := t;
    }

    /** `_update_explosions`. */
    method UpdateExplosions(dt: real)
      requires Valid()
      modifies this
      ensures Valid() && explosions == ExplosionsAfter(old(explosions), dt)
      ensures rockets == old(rockets) && stars == old(stars) && trail == old(trail) && backRect == old(backRect)
    {
      var x := AgeExplosions(explosions, dt);
      explosions := x;
    }
  }
}
