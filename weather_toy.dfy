/** The weather toy (screens/weather_toy.py): five scenes (snow, rain,
    fireflies, blossoms and an aurora) chosen from a toolbar of buttons.
    Each scene has its own particles; a tap in the scene splashes rain,
    ripples the aurora or pushes the particles about. */
module WeatherToy {
  import opened Kit
  import opened Router

  const Snow: int := 0
  const Rain: int := 1
  const Fireflies: int := 2
  const Cherry: int := 3
  const Aurora: int := 4
  const SceneCount: int := 5

  /** How many particles each scene starts with; the aurora has none and
      uses its stars instead. */
  const ParticleCounts: seq<nat> := [220, 400, 80, 150, 0]
  const AuroraStarCount: nat := 120
  const SplashCount: nat := 20
  /** The tap marker disappears once it is older than this. */
  const TapLife: real := 0.5
  /** A ripple in the aurora lasts this long. */
  const RippleLife: real := 3.0


  /** One particle of a scene; the fields are those of the source's
      per-scene particle records. */
  datatype Particle =
    | Flake(x: real, y: real, vx: real, vy: real, size: real, phase: real,
            swaySpeed: real, swayAmp: real, alpha: int)
    | Drop(x: real, y: real, vy: real, length: int, alpha: int)
    | Firefly(x: real, y: real, vx: real, vy: real, size: real, phase: real,
              pulseSpeed: real, hue: real)
    | Petal(x: real, y: real, vx: real, vy: real, size: real, rotation: real,
            rotSpeed: real, phase: real, swayAmp: real, swaySpeed: real, shade: Rgb)

  const PetalShades: seq<Rgb> := [
    Rgb(255, 183, 197), Rgb(255, 200, 210), Rgb(255, 220, 230),
    Rgb(255, 170, 190), Rgb(245, 160, 180), Rgb(255, 230, 240)]

  /** The ranges the `_new_*` particle makers draw from when a scene
      starts (`full_screen=True`: anywhere on screen). */
  predicate Spawned(scene: int, p: Particle) {
    if scene == Snow then
      && p.Flake? && 0.0 <= p.x <= Width as real && 0.0 <= p.y <= Height as real
      && -10.0 <= p.vx <= 10.0 && 30.0 <= p.vy <= 80.0 && 2.0 <= p.size <= 6.0
      && 1.0 <= p.swaySpeed <= 3.0 && 15.0 <= p.swayAmp <= 40.0 && 160 <= p.alpha <= 255
    else if scene == Rain then
      && p.Drop? && 0.0 <= p.x <= Width as real && 0.0 <= p.y <= Height as real
      && 500.0 <= p.vy <= 900.0 && 8 <= p.length <= 20 && 100 <= p.alpha <= 200
    else if scene == Fireflies then
      && p.Firefly? && 20.0 <= p.x <= (Width - 20) as real && 80.0 <= p.y <= (Height - 20) as real
      && -20.0 <= p.vx <= 20.0 && -20.0 <= p.vy <= 20.0 && 2.0 <= p.size <= 5.0
      && 1.5 <= p.pulseSpeed <= 4.0 && 40.0 <= p.hue <= 70.0
    else if scene == Cherry then
      && p.Petal? && 0.0 <= p.x <= Width as real && 0.0 <= p.y <= Height as real
      && -15.0 <= p.vx <= 25.0 && 25.0 <= p.vy <= 70.0 && 3.0 <= p.size <= 7.0
      && 1.0 <= p.rotSpeed <= 4.0 && 20.0 <= p.swayAmp <= 50.0 && 0.8 <= p.swaySpeed <= 2.5
      && p.shade in PetalShades
    else false
  }

  /** What every particle of the current scene keeps from frame to frame:
      it is of the scene's kind, snowflakes stay within the wrap band and
      snowflakes and raindrops above the respawn line. */
  predicate Fits(scene: int, p: Particle) {
    if scene == Snow then p.Flake? && -20.0 <= p.x <= (Width + 20) as real && p.y <= (Height + 10) as real
    else if scene == Rain then p.Drop? && p.y <= (Height + 10) as real
    else if scene == Fireflies then p.Firefly?
    else if scene == Cherry then p.Petal?
    else false
  }

  lemma SpawnedFits(scene: int, p: Particle)
    requires Spawned(scene, p)
    ensures Fits(scene, p)
  {
  }

  /** A twinkling star of the aurora scene. */
  datatype AuroraStar = AuroraStar(x: int, y: int, size: int, alpha: int, twinkleSpeed: real, phase: real)

  predicate AuroraStarOk(s: AuroraStar) {
    && 0 <= s.x <= Width && Height * 45 / 100 <= s.y <= Height
    && (s.size == 1 || s.size == 2) && 80 <= s.alpha <= 255 && 1.0 <= s.twinkleSpeed <= 4.0
  }

  /** A rain splash. */
  datatype Splash = Splash(x: real, y: real, vx: real, vy: real, life: real, size: real, colour: Rgb)

  const SplashColours: seq<Rgb> := [
    Rgb(140, 180, 255), Rgb(160, 200, 255), Rgb(100, 150, 230),
    Rgb(180, 210, 255), Rgb(120, 170, 240)]

  /** The random values of one splash; its velocity comes from `cos` and
      `sin` of a random upward angle, so it is drawn as a whole. */
  datatype SplashDraw = SplashDraw(jx: real, jy: real, vx: real, vy: real, life: real, size: real, colour: Rgb)

  predicate SplashDrawOk(d: SplashDraw) {
    && -5.0 <= d.jx <= 5.0 && -3.0 <= d.jy <= 3.0 && d.vy <= 0.0
    && 0.3 <= d.life <= 0.7 && 2.0 <= d.size <= 5.0 && d.colour in SplashColours
  }

  /** A ripple of the aurora: where it was tapped and how old it is. */
  datatype Ripple = Ripple(x: int, t: real)

  /** The `_init_*` loops: the scene's number of particles, particle `i`
      made by `draws(i)`. */
  method InitParticles(scene: int, draws: nat -> Particle) returns (ps: seq<Particle>)
    requires 0 <= scene < SceneCount
    requires forall i :: 0 <= i < ParticleCounts[scene] ==> Spawned(scene, draws(i))
    ensures |ps| == ParticleCounts[scene]
    ensures forall i :: 0 <= i < |ps| ==> ps[i] == draws(i) && Fits(scene, ps[i])
  {
    ps := [];
    var i := 0;
    while i < ParticleCounts[scene]
      invariant 0 <= i <= ParticleCounts[scene] && |ps| == i
      invariant forall j :: 0 <= j < i ==> ps[j] == draws(j) && Fits(scene, ps[j])
    {
      SpawnedFits(scene, draws(i));
      ps := ps + [draws(i)];
      i := i + 1;
    }
  }

  /** The star loop of `_init_aurora`. */
  method InitAuroraStars(draws: nat -> AuroraStar) returns (ss: seq<AuroraStar>)
    requires forall i :: 0 <= i < AuroraStarCount ==> AuroraStarOk(draws(i))
    ensures |ss| == AuroraStarCount
    ensures forall i :: 0 <= i < |ss| ==> ss[i] == draws(i) && AuroraStarOk(ss[i])
  {
    ss := [];
    var i := 0;
    while i < AuroraStarCount
      invariant 0 <= i <= AuroraStarCount && |ss| == i
      invariant forall j :: 0 <= j < i ==> ss[j] == draws(j)
    {
      ss := ss + [draws(i)];
      i := i + 1;
    }
  }

  /** The scene a toolbar button switches to: the button's scene, unless no
      button was hit (-1) or the button is that of the current scene. */
  function Choice(btn: int, scene: int): (r: Option<int>)
    ensures r.Some? <==> btn >= 0 && btn != scene
    ensures r.Some? ==> r.value == btn
  {
    if btn >= 0 && btn != scene then Some(btn) else None
  }

  /** The tap marker after a frame: while shown it ages by `dt`, and it is
      cleared once older than half a second; the age is kept as it is. */
  datatype TapMark = TapMark(point: Option<Point>, age: real)

  function TapAfter(m: TapMark, dt: real): (r: TapMark)
    ensures m.point.None? ==> r == m
    ensures m.point.Some? ==> r.age == m.age + dt
    ensures m.point.Some? ==> (r.point.None? <==> m.age + dt > TapLife)
    ensures r.point.Some? ==> r.point == m.point && r.age <= TapLife
  {
    if m.point.Some? then
      var age := m.age + dt;
      TapMark(if age > TapLife then None else m.point, age)
    else m
  }

  /** Frames of nonnegative length clear a tap exactly once their lengths
      add up to more than the time it had left. */
  lemma {:induction false} TapClears(m: TapMark, dts: seq<real>)
    requires m.point.Some? && m.age <= TapLife && forall i :: 0 <= i < |dts| ==> dts[i] >= 0.0
    ensures TapsAfter(m, dts).point.None? <==> m.age + Sum(dts) > TapLife
    decreases |dts|
  {
    if dts != [] {
      var n := TapAfter(m, dts[0]);
      SumNonnegative(dts[1..]);
      if n.point.Some? {
        TapClears(n, dts[1..]);
      } else {
        TapsStayClear(n, dts[1..]);
      }
    }
  }

  lemma {:induction false} TapsStayClear(m: TapMark, dts: seq<real>)
    requires m.point.None?
    ensures TapsAfter(m, dts).point.None?
    decreases |dts|
  {
    if dts != [] {
      TapsStayClear(TapAfter(m, dts[0]), dts[1..]);
    }
  }

  function TapsAfter(m: TapMark, dts: seq<real>): TapMark
    decreases |dts|
  {
    if dts == [] then m else TapsAfter(TapAfter(m, dts[0]), dts[1..])
  }

  /** The random values a snowflake that fell out of sight respawns with. */
  datatype FlakeRespawn = FlakeRespawn(y: real, x: real, vx: real)

  predicate FlakeRespawnOk(d: FlakeRespawn) {
    -20.0 <= d.y <= -5.0 && 0.0 <= d.x <= Width as real && -10.0 <= d.vx <= 10.0
  }

  /** Where a snowflake or petal drifts in a frame before any wrapping: its
      own drift plus its sway (`wave` is the sine of the sway). The sway adds
      at most its amplitude to the drift speed, either way. */
  function SwayedX(p: Particle, dt: real, wave: real): (x: real)
    requires p.Flake? || p.Petal?
    ensures -1.0 <= wave <= 1.0 && p.swayAmp >= 0.0 && dt >= 0.0 ==>
      p.x + (p.vx - p.swayAmp) * dt <= x <= p.x + (p.vx + p.swayAmp) * dt
  {
    SwayBound(p.x, p.vx, p.swayAmp, wave, dt);
    p.x + (p.vx + wave * p.swayAmp) * dt
  }

  /** A sway of `wave * amp` with the sine in [-1, 1] moves a drift of `vx`
      over `dt` by at most `amp * dt` either way. */
  lemma SwayBound(x: real, vx: real, amp: real, wave: real, dt: real)
    ensures -1.0 <= wave <= 1.0 && amp >= 0.0 && dt >= 0.0 ==>
      x + (vx - amp) * dt <= x + (vx + wave * amp) * dt <= x + (vx + amp) * dt
  {
    if -1.0 <= wave <= 1.0 && amp >= 0.0 && dt >= 0.0 {
      assert 0.0 <= (wave + 1.0) * amp && 0.0 <= (1.0 - wave) * amp;
      assert (vx + wave * amp) * dt - (vx - amp) * dt == ((wave + 1.0) * amp) * dt;
      assert (vx + amp) * dt - (vx + wave * amp) * dt == ((1.0 - wave) * amp) * dt;
    }
  }

  /** One snowflake in one frame of `_update_snow`: it sways (`wave` is the
      sine of the sway), falls and slows its sideways drift; below the
      bottom it respawns above the top; past either side it wraps to the
      other. */
  function FlakeStep(p: Particle, dt: real, wave: real, d: FlakeRespawn): (q: Particle)
    requires p.Flake?
    ensures q.Flake? && q.vy == p.vy && q.swayAmp == p.swayAmp && q.size == p.size
    ensures FlakeRespawnOk(d) ==> Fits(Snow, q)
    ensures p.y + p.vy * dt > (Height + 10) as real ==> q.y == d.y && q.vx == d.vx
    ensures p.y + p.vy * dt > (Height + 10) as real && -20.0 <= d.x <= (Width + 20) as real ==> q.x == d.x
    ensures p.y + p.vy * dt <= (Height + 10) as real ==> q.y == p.y + p.vy * dt && q.vx == p.vx * 0.96
    ensures var x := SwayedX(p, dt, wave);
      p.y + p.vy * dt <= (Height + 10) as real ==>
        && (x < -20.0 ==> q.x == (Width + 10) as real)
        && (x > (Width + 20) as real ==> q.x == -10.0)
        && (-20.0 <= x <= (Width + 20) as real ==> q.x == x)
  {
    var x := SwayedX(p, dt, wave);
    var y := p.y + p.vy * dt;
    var vx := p.vx * 0.96;
    var fell := y > (Height + 10) as real;
    var y', x', vx' := if fell then d.y else y, if fell then d.x else x, if fell then d.vx else vx;
    var x'' := if x' < -20.0 then (Width + 10) as real else if x' > (Width + 20) as real then -10.0 else x';
    Flake(x'', y', vx', p.vy, p.size, p.phase, p.swaySpeed, p.swayAmp, p.alpha)
  }

  /** The random values a blossom petal draws in a frame of `_update_cherry`:
      where and how fast it respawns after falling out of sight, and the
      fall speed it gets when it has been blown above -80. */
  datatype PetalRespawn = PetalRespawn(y: real, x: real, vx: real, vy: real, liftVy: real)

  predicate PetalRespawnOk(d: PetalRespawn) {
    && -30.0 <= d.y <= -5.0 && 0.0 <= d.x <= Width as real
    && -15.0 <= d.vx <= 25.0 && 25.0 <= d.vy <= 70.0 && 25.0 <= d.liftVy <= 70.0
  }

  /** One petal in one frame of `_update_cherry`: it sways (`wave` is the
      sine of the sway), falls, turns, its sideways speed decays by 3 % and,
      while slower than 25 px/s, gravity pulls it back down; below the bottom
      it respawns above the top, blown above -80 it gets a fresh fall speed,
      and past either side it wraps to the other. */
  function PetalStep(p: Particle, dt: real, wave: real, d: PetalRespawn): (q: Particle)
    requires p.Petal?
    ensures q.Petal? && q.size == p.size && q.rotSpeed == p.rotSpeed && q.phase == p.phase
    ensures q.swayAmp == p.swayAmp && q.swaySpeed == p.swaySpeed && q.shade == p.shade
    ensures q.rotation == p.rotation + p.rotSpeed * dt
    ensures -30.0 <= q.x <= (Width + 30) as real
    ensures PetalRespawnOk(d) ==> q.y <= (Height + 10) as real
    ensures PetalRespawnOk(d) && dt >= 0.0 ==> q.vy >= 25.0 || q.vy == p.vy + 120.0 * dt
    ensures p.y + p.vy * dt > (Height + 10) as real ==> q.y == d.y && q.vx == d.vx
    ensures p.y + p.vy * dt > (Height + 10) as real && d.y >= -80.0 ==> q.vy == d.vy
    ensures p.y + p.vy * dt > (Height + 10) as real && -30.0 <= d.x <= (Width + 30) as real ==> q.x == d.x
    ensures p.y + p.vy * dt <= (Height + 10) as real ==> q.y == p.y + p.vy * dt && q.vx == p.vx * 0.97
    ensures q.y < -80.0 ==> q.vy == d.liftVy
    ensures p.y + p.vy * dt <= (Height + 10) as real && q.y >= -80.0 ==>
      q.vy == (if p.vy < 25.0 then p.vy + 120.0 * dt else p.vy)
    ensures var x := SwayedX(p, dt, wave);
      p.y + p.vy * dt <= (Height + 10) as real ==>
        && (x < -30.0 ==> q.x == (Width + 10) as real)
        && (x > (Width + 30) as real ==> q.x == -10.0)
        && (-30.0 <= x <= (Width + 30) as real ==> q.x == x)
  {
    var x := SwayedX(p, dt, wave);
    var y := p.y + p.vy * dt;
    var vx := p.vx * 0.97;
    var vy := if p.vy < 25.0 then p.vy + 120.0 * dt else p.vy;
    var fell := y > (Height + 10) as real;
    var y', x', vx', vy' := if fell then d.y else y, if fell then d.x else x, if fell then d.vx else vx, if fell then d.vy else vy;
    var vy'' := if y' < -80.0 then d.liftVy else vy';
    var x'' := if x' < -30.0 then (Width + 10) as real else if x' > (Width + 30) as real then -10.0 else x';
    Petal(x'', y', vx', vy'', p.size, p.rotation + p.rotSpeed * dt, p.rotSpeed, p.phase, p.swayAmp, p.swaySpeed, p.shade)
  }

  /** The random values a raindrop that fell out of sight respawns with. */
  datatype DropRespawn = DropRespawn(y: real, x: real)

  predicate DropRespawnOk(d: DropRespawn) {
    -60.0 <= d.y <= -5.0 && 0.0 <= d.x <= Width as real
  }

  /** One raindrop in one frame of `_update_rain`: it falls and drifts left
      in the wind; below the bottom it respawns above the top. */
  function DropStep(p: Particle, dt: real, d: DropRespawn): (q: Particle)
    requires p.Drop?
    ensures q.Drop? && q.vy == p.vy && q.length == p.length && q.alpha == p.alpha
    ensures DropRespawnOk(d) ==> Fits(Rain, q)
    ensures p.y + p.vy * dt > (Height + 10) as real ==> q.y == d.y && q.x == d.x
    ensures p.y + p.vy * dt <= (Height + 10) as real ==> q.y == p.y + p.vy * dt && q.x == p.x - 30.0 * dt
  {
    var y := p.y + p.vy * dt;
    var x := p.x + -30.0 * dt;
    if y > (Height + 10) as real then Drop(d.x, d.y, p.vy, p.length, p.alpha) else Drop(x, y, p.vy, p.length, p.alpha)
  }

  /** The particle loop of `_update_snow`. */
  method SnowFrame(ps: seq<Particle>, dt: real, waves: nat -> real, respawns: nat -> FlakeRespawn)
    returns (r: seq<Particle>)
    requires forall i :: 0 <= i < |ps| ==> ps[i].Flake?
    requires forall i :: FlakeRespawnOk(respawns(i))
    ensures |r| == |ps|
    ensures forall i :: 0 <= i < |ps| ==> r[i] == FlakeStep(ps[i], dt, waves(i), respawns(i)) && Fits(Snow, r[i])
  {
    r := [];
    var i := 0;
    while i < |ps|
      invariant 0 <= i <= |ps| && |r| == i
      invariant forall j :: 0 <= j < i ==> r[j] == FlakeStep(ps[j], dt, waves(j), respawns(j))
    {
      r := r + [FlakeStep(ps[i], dt, waves(i), respawns(i))];
      i := i + 1;
    }
  }

  /** The petal loop of `_update_cherry`. */
  method CherryFrame(ps: seq<Particle>, dt: real, waves: nat -> real, respawns: nat -> PetalRespawn)
    returns (r: seq<Particle>)
    requires forall i :: 0 <= i < |ps| ==> ps[i].Petal?
    ensures |r| == |ps|
    ensures forall i :: 0 <= i < |ps| ==> r[i] == PetalStep(ps[i], dt, waves(i), respawns(i)) && Fits(Cherry, r[i])
  {
    r := [];
    var i := 0;
    while i < |ps|
      invariant 0 <= i <= |ps| && |r| == i
      invariant forall j :: 0 <= j < i ==> r[j] == PetalStep(ps[j], dt, waves(j), respawns(j))
    {
      r := r + [PetalStep(ps[i], dt, waves(i), respawns(i))];
      i := i + 1;
    }
  }

  /** The raindrop loop of `_update_rain`. */
  method RainFrame(ps: seq<Particle>, dt: real, respawns: nat -> DropRespawn) returns (r: seq<Particle>)
    requires forall i :: 0 <= i < |ps| ==> ps[i].Drop?
    requires forall i :: DropRespawnOk(respawns(i))
    ensures |r| == |ps|
    ensures forall i :: 0 <= i < |ps| ==> r[i] == DropStep(ps[i], dt, respawns(i)) && Fits(Rain, r[i])
  {
    r := [];
    var i := 0;
    while i < |ps|
      invariant 0 <= i <= |ps| && |r| == i
      invariant forall j :: 0 <= j < i ==> r[j] == DropStep(ps[j], dt, respawns(j))
    {
      r := r + [DropStep(ps[i], dt, respawns(i))];
      i := i + 1;
    }
  }

  /** One splash in one frame: it moves, gravity pulls it down, it ages. */
  function SplashStep(s: Splash, dt: real): (q: Splash)
    ensures q.life == s.life - dt && q.x == s.x + s.vx * dt && q.y == s.y + s.vy * dt
    ensures dt >= 0.0 ==> q.vy >= s.vy
  {
    s.(x := s.x + s.vx * dt, y := s.y + s.vy * dt, vy := s.vy + 500.0 * dt, life := s.life - dt)
  }

  /** The splash loop of `_update_rain`, before the comprehension that
      drops the spent splashes. */
  method AgeSplashes(ss: seq<Splash>, dt: real) returns (r: seq<Splash>)
    ensures |r| == |ss| && forall i :: 0 <= i < |ss| ==> r[i] == SplashStep(ss[i], dt)
  {
    r := [];
    var i := 0;
    while i < |ss|
      invariant 0 <= i <= |ss| && |r| == i
      invariant forall j :: 0 <= j < i ==> r[j] == SplashStep(ss[j], dt)
    {
      var s := ss[i];
      r := r + [s.(x := s.x + s.vx * dt, y := s.y + s.vy * dt, vy := s.vy + 500.0 * dt, life := s.life - dt)];
      i := i + 1;
    }
  }

  /** `_update_rain`'s comprehension: exactly the splashes with life left
      remain. */
  function LiveSplashes(ss: seq<Splash>): (r: seq<Splash>)
    ensures forall s :: s in r <==> s in ss && s.life > 0.0
    ensures |r| <= |ss|
  {
    Filter(ss, (s: Splash) => s.life > 0.0)
  }

  /** The ripple loop of `_update_aurora`, before the comprehension. */
  method AgeRipples(rs: seq<Ripple>, dt: real) returns (r: seq<Ripple>)
    ensures |r| == |rs| && forall i :: 0 <= i < |rs| ==> r[i] == Ripple(rs[i].x, rs[i].t + dt)
  {
    r := [];
    var i := 0;
    while i < |rs|
      invariant 0 <= i <= |rs| && |r| == i
      invariant forall j :: 0 <= j < i ==> r[j] == Ripple(rs[j].x, rs[j].t + dt)
    {
      r := r + [rs[i].(t := rs[i].t + dt)];
      i := i + 1;
    }
  }

  /** `_update_aurora`'s comprehension: exactly the ripples younger than
      three seconds remain. */
  function LiveRipples(rs: seq<Ripple>): (r: seq<Ripple>)
    ensures forall q :: q in r <==> q in rs && q.t < RippleLife
    ensures |r| <= |rs|
  {
    Filter(rs, (q: Ripple) => q.t < RippleLife)
  }

  /** One splash of a tap: jittered around the tap, moving and living as
      drawn. */
  function NewSplash(pos: Point, d: SplashDraw): (s: Splash)
    ensures SplashDrawOk(d) ==>
      && pos.x as real - 5.0 <= s.x <= pos.x as real + 5.0 && pos.y as real - 3.0 <= s.y <= pos.y as real + 3.0
      && 0.3 <= s.life <= 0.7 && s.vy <= 0.0
  {
    Splash(pos.x as real + d.jx, pos.y as real + d.jy, d.vx, d.vy, d.life, d.size, d.colour)
  }

  /** The splash loop of `_handle_tap` in the rain: twenty splashes around
      the tap, splash `i` from draw `i`. */
  method SpawnSplashes(pos: Point, draws: nat -> SplashDraw) returns (ss: seq<Splash>)
    requires forall i :: SplashDrawOk(draws(i))
    ensures ss == Draws(SplashCount, j => NewSplash(pos, draws(j)))
    ensures |ss| == SplashCount
    ensures forall s :: s in ss ==> 0.3 <= s.life <= 0.7 && s.vy <= 0.0
    ensures forall s :: s in ss ==>
      pos.x as real - 5.0 <= s.x <= pos.x as real + 5.0 && pos.y as real - 3.0 <= s.y <= pos.y as real + 3.0
  {
    ss := [];
    var i := 0;
    while i < SplashCount
      invariant 0 <= i <= SplashCount && |ss| == i
      invariant forall j :: 0 <= j < i ==> ss[j] == NewSplash(pos, draws(j))
      invariant forall s :: s in ss ==> 0.3 <= s.life <= 0.7 && s.vy <= 0.0
      invariant forall s :: s in ss ==>
        pos.x as real - 5.0 <= s.x <= pos.x as real + 5.0 && pos.y as real - 3.0 <= s.y <= pos.y as real + 3.0
    {
      var d := draws(i);
      ss := ss + [Splash(pos.x as real + d.jx, pos.y as real + d.jy, d.vx, d.vy, d.life, d.size, d.colour)];
      i := i + 1;
    }
    assert ss == Draws(SplashCount, j => NewSplash(pos, draws(j)));
  }

  class WeatherToyScreen {
    var scene: int
    var time: real
    var particles: seq<Particle>
    var splashes: seq<Splash>
    var backRect: Option<Rect>
    var ripples: seq<Ripple>
    var stars: seq<AuroraStar>
    var tap: TapMark

    /** The scene is one of the five; its particles fit it; splashes exist
        only in the rain and have life left; ripples are younger than
        three seconds. */
    ghost predicate Valid() reads this {
      && 0 <= scene < SceneCount
      && (forall i :: 0 <= i < |particles| ==> Fits(scene, particles[i]))
      && (scene != Rain ==> splashes == [])
      && (forall s :: s in splashes ==> s.life > 0.0)
      && (forall q :: q in ripples ==> 0.0 <= q.t < RippleLife)
      && (forall s :: s in stars ==> AuroraStarOk(s))
      && tap.age >= 0.0 && (tap.point.Some? ==> tap.age <= TapLife)
    }

    /** `__init__`: the snow scene, though with no particles until the
        screen is entered. */
    constructor ()
      ensures Valid() && scene == Snow && time == 0.0 && particles == [] && splashes == []
      ensures ripples == [] && stars == [] && tap == TapMark(None, 0.0) && backRect == None
    {
      scene, time, particles, splashes := Snow, 0.0, [], [];
      backRect, ripples, stars, tap := None, [], [], TapMark(None, 0.0);
    }

    /** The state `draw` changes: the back-button rectangle. */
    method Draw()
      requires Valid()
      modifies this
      ensures Valid() && backRect == Some(BackRect)
      ensures scene == old(scene) && particles == old(particles) && splashes == old(splashes)
      ensures ripples == old(ripples) && stars == old(stars) && tap == old(tap) && time == old(time)
    {
      backRect := Some(BackRect);
    }

    /** `_switch_scene`: the new scene, no splashes and no tap marker, and
        the scene's particles made afresh. The aurora instead has no
        particles, no ripples and 120 new stars; the other scenes keep the
        aurora's ripples and stars. */
    method SwitchScene(s: int, draws: nat -> Particle, starDraws: nat -> AuroraStar)
      requires Valid() && 0 <= s < SceneCount
      requires forall i :: 0 <= i < ParticleCounts[s] ==> Spawned(s, draws(i))
      requires s == Aurora ==> forall i :: 0 <= i < AuroraStarCount ==> AuroraStarOk(starDraws(i))
      modifies this
      ensures Valid() && scene == s && splashes == [] && tap == TapMark(None, 0.0)
      ensures time == old(time) && backRect == old(backRect)
      ensures particles == Draws(ParticleCounts[s], draws)
      ensures s != Aurora ==> ripples == old(ripples) && stars == old(stars)
      ensures s == Aurora ==> ripples == [] && stars == Draws(AuroraStarCount, starDraws)
    {
      scene := s;
      splashes := [];
      tap := TapMark(None, 0.0);
      var ps := InitParticles(s, draws);
      assert ps == Draws(ParticleCounts[s], draws);
      particles := ps;
      if s == Aurora {
        ripples := [];
        var ss := InitAuroraStars(starDraws);
        assert ss == Draws(AuroraStarCount, starDraws);
        stars := ss;
      }
    }

    /** `on_enter`: time zero and the snow scene. */
    method OnEnter(draws: nat -> Particle, starDraws: nat -> AuroraStar)
      requires Valid() && forall i :: 0 <= i < ParticleCounts[Snow] ==> Spawned(Snow, draws(i))
      modifies this
      ensures Valid() && time == 0.0 && scene == Snow && splashes == [] && tap == TapMark(None, 0.0)
      ensures particles == Draws(ParticleCounts[Snow], draws)
      ensures ripples == old(ripples) && stars == old(stars) && backRect == old(backRect)
    {
      time := 0.0;
      SwitchScene(Snow, draws, starDraws);
    }

    /** `handle_event`. `consumed` is what the scrolling toolbar's own
        `handle_event` answers and `btn` what its `get_btn_at` answers for
        the event's position (-1 for no button). A release the toolbar
        consumed on another scene's button switches to it; otherwise a
        press on the back button goes back, a press on a button switches to
        another scene (or does nothing on the current one), and any other
        press marks the tap and starts the scene's tap effect. */
    method HandleEvent(e: Event, consumed: bool, btn: int,
                       draws: nat -> Particle, starDraws: nat -> AuroraStar, splashDraws: nat -> SplashDraw)
      returns (nav: Nav)
      requires Valid() && -1 <= btn < SceneCount
      requires btn >= 0 ==> forall i :: 0 <= i < ParticleCounts[btn] ==> Spawned(btn, draws(i))
      requires btn == Aurora ==> forall i :: 0 <= i < AuroraStarCount ==> AuroraStarOk(starDraws(i))
      requires forall i :: SplashDrawOk(splashDraws(i))
      modifies this
      ensures Valid() && time == old(time) && backRect == old(backRect)
      ensures nav == (if !consumed && e.MouseDown? && backRect.Some? && backRect.value.Contains(e.pos) then GoBack else Stay)
      ensures nav == GoBack ==> unchanged(this)
      // A switch to another scene is `SwitchScene`'s.
      ensures var switch := (consumed && e.MouseUp?) || (!consumed && e.MouseDown? && nav == Stay);
        && (switch && Choice(btn, old(scene)).Some? ==>
              && scene == btn && splashes == [] && tap == TapMark(None, 0.0)
              && particles == Draws(ParticleCounts[btn], draws)
              && (btn != Aurora ==> ripples == old(ripples) && stars == old(stars))
              && (btn == Aurora ==> ripples == [] && stars == Draws(AuroraStarCount, starDraws)))
        && (!(switch && Choice(btn, old(scene)).Some?) ==> scene == old(scene))
      // Any other press marks the tap: 20 splashes in the rain, a ripple in
      // the aurora.
      ensures !consumed && e.MouseDown? && nav == Stay && btn < 0 ==>
        && tap == TapMark(Some(e.pos), 0.0) && particles == old(particles) && stars == old(stars)
        && (old(scene) == Rain ==> splashes == old(splashes) + Draws(SplashCount, j => NewSplash(e.pos, splashDraws(j))))
        && (old(scene) != Rain ==> splashes == old(splashes))
        && (old(scene) == Aurora ==> ripples == old(ripples) + [Ripple(e.pos.x, 0.0)])
        && (old(scene) != Aurora ==> ripples == old(ripples))
      // A button of the current scene, a consumed release on no other
      // scene, and every event neither kind of press or release change
      // nothing.
      ensures (|| (consumed && e.MouseUp? && Choice(btn, old(scene)).None?)
               || (!consumed && e.MouseDown? && nav == Stay && btn >= 0 && Choice(btn, old(scene)).None?)
               || (consumed && !e.MouseUp?) || (!consumed && !e.MouseDown?)) ==>
        unchanged(this)
    {
      nav := Stay;
      if consumed {
        if e.MouseUp? && btn >= 0 && btn != scene {
          SwitchScene(btn, draws, starDraws);
        }
        return;
      }
      if e.MouseDown? {
        if backRect.Some? && backRect.value.Contains(e.pos) {
          nav := GoBack;
          return;
        }
        if btn >= 0 {
          if btn != scene {
            SwitchScene(btn, draws, starDraws);
          }
          return;
        }
        tap := TapMark(Some(e.pos), 0.0);
        HandleTap(e.pos, splashDraws);
      }
    }

    /** `_handle_tap`: in the rain twenty splashes appear at the tap; in
        the aurora a ripple starts there. */
    method HandleTap(pos: Point, splashDraws: nat -> SplashDraw)
      requires Valid() && forall i :: SplashDrawOk(splashDraws(i))
      modifies this
      ensures Valid() && scene == old(scene) && particles == old(particles) && stars == old(stars)
      ensures tap == old(tap) && time == old(time) && backRect == old(backRect)
      ensures scene == Rain ==> splashes == old(splashes) + Draws(SplashCount, j => NewSplash(pos, splashDraws(j)))
      ensures scene != Rain ==> splashes == old(splashes)
      ensures scene == Aurora ==> ripples == old(ripples) + [Ripple(pos.x, 0.0)]
      ensures scene != Aurora ==> ripples == old(ripples)
    {
      if scene == Rain {
        var ss := SpawnSplashes(pos, splashDraws);
        splashes := splashes + ss;
      } else if scene == Aurora {
        ripples := ripples + [Ripple(pos.x, 0.0)];
      }
    }

    /** `update`: time advances, the tap marker ages (as `TapAfter` says),
        and the current scene moves on. `waves(i)` is the sine of
        snowflake `i`'s sway. */
    method Update(dt: real, waves: nat -> real, flakeRespawns: nat -> FlakeRespawn, dropRespawns: nat -> DropRespawn,
                  petalRespawns: nat -> PetalRespawn)
      requires Valid() && dt >= 0.0
      requires forall i :: FlakeRespawnOk(flakeRespawns(i)) && DropRespawnOk(dropRespawns(i))
      modifies this
      ensures Valid() && scene == old(scene) && time == old(time) + dt && backRect == old(backRect)
      ensures tap == TapAfter(old(tap), dt) && stars == old(stars)
      ensures |particles| == |old(particles)|
      ensures scene == Snow ==> forall i :: 0 <= i < |particles| ==>
        particles[i] == FlakeStep(old(particles[i]), dt, waves(i), flakeRespawns(i))
      ensures scene == Rain ==> forall i :: 0 <= i < |particles| ==>
        particles[i] == DropStep(old(particles[i]), dt, dropRespawns(i))
      ensures scene == Cherry ==> forall i :: 0 <= i < |particles| ==>
        particles[i] == PetalStep(old(particles[i]), dt, waves(i), petalRespawns(i))
      ensures scene == Fireflies || scene == Aurora ==> particles == old(particles)
      ensures scene == Rain ==> forall s :: s in splashes <==> s in Map(old(splashes), (s: Splash) => SplashStep(s, dt)) && s.life > 0.0
      ensures scene == Aurora ==> forall q :: q in ripples <==> q.t < RippleLife && exists p :: p in old(ripples) && q == Ripple(p.x, p.t + dt)
      ensures scene != Rain ==> splashes == old(splashes)
      ensures scene != Aurora ==> ripples == old(ripples)
    {
      time := time + dt;
      tap := TapAfter(tap, dt);
      if scene == Snow {
        UpdateSnow(dt, waves, flakeRespawns);
      } else if scene == Rain {
        UpdateRain(dt, dropRespawns);
      } else if scene == Cherry {
        UpdateCherry(dt, waves, petalRespawns);
      } else if scene == Aurora {
        UpdateAurora(dt);
      }
    }

    /** `_update_snow`. */
    method UpdateSnow(dt: real, waves: nat -> real, respawns: nat -> FlakeRespawn)
      requires Valid() && scene == Snow && forall i :: FlakeRespawnOk(respawns(i))
      modifies this
      ensures Valid() && scene == old(scene) && time == old(time) && tap == old(tap) && backRect == old(backRect)
      ensures splashes == old(splashes) && ripples == old(ripples) && stars == old(stars)
      ensures |particles| == |old(particles)|
      ensures forall i :: 0 <= i < |particles| ==> particles[i] == FlakeStep(old(particles[i]), dt, waves(i), respawns(i))
    {
      var ps := SnowFrame(particles, dt, waves, respawns);
      particles := ps;
    }

    /** `_update_rain`: the raindrops fall, the splashes move and the spent
        ones are dropped. */
    method UpdateRain(dt: real, respawns: nat -> DropRespawn)
      requires Valid() && scene == Rain && forall i :: DropRespawnOk(respawns(i))
      modifies this
      ensures Valid() && scene == old(scene) && time == old(time) && tap == old(tap) && backRect == old(backRect)
      ensures ripples == old(ripples) && stars == old(stars)
      ensures |particles| == |old(particles)|
      ensures forall i :: 0 <= i < |particles| ==> particles[i] == DropStep(old(particles[i]), dt, respawns(i))
      ensures forall s :: s in splashes <==> s in Map(old(splashes), (s: Splash) => SplashStep(s, dt)) && s.life > 0.0
    {
      var ps := RainFrame(particles, dt, respawns);
      var aged := AgeSplashes(splashes, dt);
      assert aged == Map(splashes, (s: Splash) => SplashStep(s, dt));
      particles, splashes := ps, LiveSplashes(aged);
    }

    /** `_update_cherry`. */
    method UpdateCherry(dt: real, waves: nat -> real, respawns: nat -> PetalRespawn)
      requires Valid() && scene == Cherry
      modifies this
      ensures Valid() && scene == old(scene) && time == old(time) && tap == old(tap) && backRect == old(backRect)
      ensures splashes == old(splashes) && ripples == old(ripples) && stars == old(stars)
      ensures |particles| == |old(particles)|
      ensures forall i :: 0 <= i < |particles| ==> particles[i] == PetalStep(old(particles[i]), dt, waves(i), respawns(i))
    {
      var ps := CherryFrame(particles, dt, waves, respawns);
      particles := ps;
    }

    /** `_update_aurora`: the ripples age and those three seconds old go. */
    method UpdateAurora(dt: real)
      requires Valid() && scene == Aurora && dt >= 0.0
      modifies this
      ensures Valid() && scene == old(scene) && time == old(time) && tap == old(tap) && backRect == old(backRect)
      ensures particles == old(particles) && splashes == old(splashes) && stars == old(stars)
      ensures forall q :: q in ripples <==> q.t < RippleLife && exists p :: p in old(ripples) && q == Ripple(p.x, p.t + dt)
    {
      var aged := AgeRipples(ripples, dt);
      forall q | q in aged ensures exists p :: p in ripples && q == Ripple(p.x, p.t + dt) {
        var i :| 0 <= i < |aged| && aged[i] == q;
        assert ripples[i] in ripples;
      }
      forall p | p in ripples ensures Ripple(p.x, p.t + dt) in aged {
        var i :| 0 <= i < |ripples| && ripples[i] == p;
        assert aged[i] == Ripple(p.x, p.t + dt);
      }
      ripples := LiveRipples(aged);
    }
  }

  /** The aurora button is live: a press on it in a freshly entered toy
      switches to the aurora, with no particles and its 120 stars. */
  method PressAuroraButton(pos: Point) returns (w: WeatherToyScreen, nav: Nav)
    ensures nav == Stay && w.scene == Aurora && w.particles == [] && w.ripples == []
    ensures |w.stars| == AuroraStarCount && w.splashes == []
  {
    w := new WeatherToyScreen();
    var flake := Flake(0.0, 0.0, 0.0, 30.0, 2.0, 0.0, 1.0, 15.0, 160);
    var star := AuroraStar(0, Height * 45 / 100, 1, 80, 1.0, 0.0);
    var splash := SplashDraw(0.0, 0.0, 0.0, 0.0, 0.5, 2.0, SplashColours[0]);
    w.OnEnter(i => flake, i => star);
    nav := w.HandleEvent(MouseDown(pos, 1), false, Aurora, i => flake, i => star, i => splash);
  }
}
