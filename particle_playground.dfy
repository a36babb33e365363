/** The particle playground (screens/particle_playground.py): a fixed-capacity
    particle pool updated in place with swap-with-last removal, and the
    emitters that fill it until it is full. */
module Playground {
  import opened Kit

  const MaxParticles: nat := 2500
  const ToolbarH: real := 80.0
  const Gravity: real := 400.0
  const BounceDamping: real := 0.6
  /** The walls: `WIDTH - 1` and `HEIGHT - 1`. */
  const WallX: real := 719.0
  const WallY: real := 719.0

  /** One pool slot: position, velocity, colour, remaining and initial life,
      and square size. */
  datatype Particle = Particle(
    x: real, y: real, vx: real, vy: real,
    r: int, g: int, b: int,
    life: real, maxLife: real, size: int)

  /** The arguments of one `emit` call. */
  datatype Spawn = Spawn(
    x: real, y: real, vx: real, vy: real,
    r: int, g: int, b: int,
    life: real, size: int)

  /** The value every slot holds before anything is emitted into it. */
  const Blank: Particle := Particle(0.0, 0.0, 0.0, 0.0, 255, 255, 255, 0.0, 1.0, 2)

  /** The particle `emit` writes: its initial life is its remaining life. */
  function Born(s: Spawn): (p: Particle)
    ensures p.maxLife == p.life == s.life
    ensures p.x == s.x && p.y == s.y && p.vx == s.vx && p.vy == s.vy
    ensures p.r == s.r && p.g == s.g && p.b == s.b && p.size == s.size
  {
    Particle(s.x, s.y, s.vx, s.vy, s.r, s.g, s.b, s.life, s.life, s.size)
  }

  /** Inside the play field: between the side walls, below the toolbar and
      above the floor. */
  predicate InField(p: Particle) {
    0.0 <= p.x <= WallX && ToolbarH <= p.y <= WallY
  }

  /** One Euler step of one coordinate. */
  function Advect(pos: real, vel: real, dt: real): real {
    pos + vel * dt
  }

  /** One frame for one particle: life decays by `dt`; a particle whose life
      is gone disappears; otherwise gravity acts on `vy` first, the position
      moves by the new velocity, and a particle past a wall is put back on
      the wall with that velocity component reversed and damped. */
  function Step(p: Particle, dt: real, gravDt: real): (r: Option<Particle>)
    ensures r.None? <==> p.life - dt <= 0.0
    ensures r.Some? ==> InField(r.value) && r.value.life == p.life - dt > 0.0
    ensures r.Some? ==> r.value.r == p.r && r.value.g == p.g && r.value.b == p.b
    ensures r.Some? ==> r.value.maxLife == p.maxLife && r.value.size == p.size
  {
    var life := p.life - dt;
    if life <= 0.0 then None
    else
      var vy := p.vy + gravDt;
      var x := Advect(p.x, p.vx, dt);
      var y := Advect(p.y, vy, dt);
      var bounceX := x < 0.0 || x > WallX;
      var bounceY := y < ToolbarH || y > WallY;
      var x' := if x < 0.0 then 0.0 else if x > WallX then WallX else x;
      var y' := if y > WallY then WallY else if y < ToolbarH then ToolbarH else y;
      var vx' := if bounceX then -p.vx * BounceDamping else p.vx;
      var vy' := if bounceY then -vy * BounceDamping else vy;
      Some(p.(x := x', y := y', vx := vx', vy := vy', life := life))
  }

  /** Velocity is integrated before position (semi-implicit Euler): away
      from the walls the new position uses the new vertical velocity; a
      particle pushed past a wall keeps 0.6 of its speed, reversed. */
  lemma StepIntegration(p: Particle, dt: real, gravDt: real)
    requires p.life - dt > 0.0
    ensures var q := Step(p, dt, gravDt).value;
      var x := Advect(p.x, p.vx, dt);
      var y := Advect(p.y, p.vy + gravDt, dt);
      && (0.0 <= x <= WallX ==> q.x == x && q.vx == p.vx)
      && ((x < 0.0 || x > WallX) ==> q.vx == -p.vx * BounceDamping)
      && (ToolbarH <= y <= WallY ==> q.y == y && q.vy == p.vy + gravDt)
      && ((y < ToolbarH || y > WallY) ==> q.vy == -(p.vy + gravDt) * BounceDamping)
  {
  }

  /** The live particles after one frame, in the order they were in. */
  function Advance(s: seq<Particle>, dt: real, gravDt: real): (r: seq<Particle>)
    ensures |r| <= |s|
  {
    if s == [] then []
    else
      (match Step(s[0], dt, gravDt) case Some(q) => [q] case None => [])
      + Advance(s[1..], dt, gravDt)
  }

  lemma {:induction false} AdvanceAppend(a: seq<Particle>, b: seq<Particle>, dt: real, gravDt: real)
    ensures Advance(a + b, dt, gravDt) == Advance(a, dt, gravDt) + Advance(b, dt, gravDt)
  {
    if a != [] {
      assert (a + b)[1..] == a[1..] + b;
      AdvanceAppend(a[1..], b, dt, gravDt);
    } else {
      assert a + b == b;
    }
  }

  /** What one frame keeps: exactly one stepped particle for every particle
      with life left after `dt`, and every kept particle is alive and in the
      field. */
  lemma {:induction false} AdvanceKeeps(s: seq<Particle>, dt: real, gravDt: real)
    ensures |Advance(s, dt, gravDt)| <= |s|
    ensures forall q :: q in Advance(s, dt, gravDt) ==> q.life > 0.0 && InField(q)
    ensures forall p :: p in s && p.life - dt > 0.0 ==> Step(p, dt, gravDt).value in Advance(s, dt, gravDt)
    ensures (forall p :: p in s ==> p.life - dt <= 0.0) ==> Advance(s, dt, gravDt) == []
  {
    if s != [] {
      AdvanceKeeps(s[1..], dt, gravDt);
      assert forall p :: p in s ==> p == s[0] || p in s[1..];
    }
  }

  /** Moving the last particle to the front does not change what a frame
      keeps, up to order. */
  lemma RotateAdvance(a: seq<Particle>, b: Particle, dt: real, gravDt: real)
    ensures multiset(Advance([b] + a, dt, gravDt)) == multiset(Advance(a + [b], dt, gravDt))
  {
    AdvanceAppend([b], a, dt, gravDt);
    AdvanceAppend(a, [b], dt, gravDt);
  }

  /** The window left after the first particle expires and the last one is
      copied over it. */
  function Swapped(pre: seq<Particle>): seq<Particle>
    requires pre != []
  {
    if |pre| == 1 then [] else [pre[|pre| - 1]] + pre[1..|pre| - 1]
  }

  lemma ExpireStep(pre: seq<Particle>, dt: real, gravDt: real)
    requires pre != [] && Step(pre[0], dt, gravDt).None?
    ensures multiset(Advance(Swapped(pre), dt, gravDt)) == multiset(Advance(pre, dt, gravDt))
  {
    assert Advance(pre, dt, gravDt) == Advance(pre[1..], dt, gravDt);
    if |pre| > 1 {
      var a, b := pre[1..|pre| - 1], pre[|pre| - 1];
      assert pre[1..] == a + [b];
      assert Swapped(pre) == [b] + a;
      RotateAdvance(a, b, dt, gravDt);
    } else {
      assert pre[1..] == [];
    }
  }

  lemma SurvivorStep(done: seq<Particle>, pre: seq<Particle>, q: Particle, dt: real, gravDt: real)
    requires pre != [] && Step(pre[0], dt, gravDt) == Some(q)
    ensures multiset(done + [q]) + multiset(Advance(pre[1..], dt, gravDt))
      == multiset(done) + multiset(Advance(pre, dt, gravDt))
  {
  }

  /** The surviving branch of the frame loop, computed as the source does:
      velocity first, then position, then the wall bounces. */
  method Move(p: Particle, life: real, dt: real, gravDt: real) returns (q: Particle)
    requires life == p.life - dt > 0.0
    ensures Step(p, dt, gravDt) == Some(q)
  {
    var vy := p.vy + gravDt;
    var vx := p.vx;
    var x := Advect(p.x, vx, dt);
    var y := Advect(p.y, vy, dt);
    if x < 0.0 {
      x := 0.0; vx := -vx * BounceDamping;
    } else if x > WallX {
      x := WallX; vx := -vx * BounceDamping;
    }
    if y > WallY {
      y := WallY; vy := -vy * BounceDamping;
    } else if y < ToolbarH {
      y := ToolbarH; vy := -vy * BounceDamping;
    }
    q := p.(x := x, y := y, vx := vx, vy := vy, life := life);
  }

  /** How much of its life a particle has left, as a fraction; 1 for a
      particle without a lifetime. */
  function LifeFraction(p: Particle): (frac: real)
    ensures p.life >= 0.0 ==> frac >= 0.0
    ensures p.maxLife <= 0.0 ==> frac == 1.0
  {
    if p.maxLife > 0.0 then DivNonneg(p.life, p.maxLife); p.life / p.maxLife else 1.0
  }

  /** One colour channel at life fraction `frac`: unchanged down to 0.3,
      then scaled down linearly towards 0 (`int()` truncation). Fading
      only darkens: the channel never grows nor turns negative. */
  function Dim(c: int, frac: real): (d: int)
    ensures frac >= 0.3 ==> d == c
    ensures 0 <= c && 0.0 <= frac ==> 0 <= d <= c
  {
    if frac < 0.3 then
      if 0 <= c && 0.0 <= frac then FadeChannel(c, frac); Trunc(c as real * (frac / 0.3))
      else Trunc(c as real * (frac / 0.3))
    else c
  }

  /** A channel faded by a fraction below 0.3 stays within 0 and its
      stored value. */
  lemma FadeChannel(c: int, frac: real)
    requires 0 <= c && 0.0 <= frac < 0.3
    ensures 0 <= Trunc(c as real * (frac / 0.3)) <= c
  {
    var f := frac / 0.3;
    assert 0.0 <= f <= 1.0;
    assert c as real * f <= c as real * 1.0;
  }

  lemma DivNonneg(a: real, b: real)
    requires b > 0.0
    ensures a >= 0.0 ==> a / b >= 0.0
  {
  }

  /** The colour a particle is drawn with: full colour until the last 30 %
      of its life, then darker; a particle with life left is never drawn
      brighter than its stored colour, nor with a negative channel. */
  function Fade(p: Particle): (c: (int, int, int))
    ensures LifeFraction(p) >= 0.3 || p.maxLife <= 0.0 ==> c == (p.r, p.g, p.b)
    ensures p.life >= 0.0 && 0 <= p.r && 0 <= p.g && 0 <= p.b ==>
      0 <= c.0 <= p.r && 0 <= c.1 <= p.g && 0 <= c.2 <= p.b
  {
    var frac := LifeFraction(p);
    (Dim(p.r, frac), Dim(p.g, frac), Dim(p.b, frac))
  }

  /** The pool: an array of `cap` particle records, of which the first `count`
      are live. */
  class ParticlePool {
    const cap: nat
    const slots: array<Particle>
    var count: nat

    ghost predicate Valid() reads this {
      slots.Length == cap && count <= cap
    }

    /** The live particles. */
    function Live(): (s: seq<Particle>)
      requires Valid()
      reads this, slots
      ensures |s| == count
    {
      slots[..count]
    }

    constructor (capacity: nat)
      ensures Valid() && cap == capacity && count == 0
      ensures fresh(slots) && forall k :: 0 <= k < cap ==> slots[k] == Blank
    {
      cap := capacity;
      slots := new Particle[capacity](_ => Blank);
      count := 0;
    }

    /** Forget every particle; the slots keep their old contents. */
    method Clear()
      requires Valid()
      modifies this
      ensures Valid() && count == 0 && Live() == []
      ensures slots[..] == old(slots[..])
    {
      count := 0;
    }

    /** Append one particle; a full pool refuses it and changes nothing. */
    method Emit(s: Spawn) returns (ok: bool)
      requires Valid()
      modifies this, slots
      ensures Valid()
      ensures ok <==> old(count) < cap
      ensures ok ==> Live() == old(Live()) + [Born(s)]
      ensures !ok ==> count == old(count) && slots[..] == old(slots[..])
    {
      var i := count;
      if i >= cap {
        return false;
      }
      slots[i] := Born(s);
      count := count + 1;
      assert Live() == old(Live()) + [Born(s)];
      return true;
    }

    /** One iteration of the frame loop on slot `i` of the window
        `[i, n)`: a surviving particle is stepped and the window start
        advances; an expired one is overwritten by slot `n - 1` and the
        window end retreats. Either way the processed prefix plus what the
        rest of the window will yield is unchanged, up to order. */
    method UpdateSlot(i: nat, n: nat, dt: real, gravDt: real) returns (i': nat, n': nat)
      requires i < n <= slots.Length
      modifies slots
      ensures (i' == i + 1 && n' == n) || (i' == i && n' == n - 1)
      ensures multiset(slots[..i']) + multiset(Advance(slots[i'..n'], dt, gravDt))
        == multiset(old(slots[..i])) + multiset(Advance(old(slots[i..n]), dt, gravDt))
    {
      var p := slots[i];
      var life := p.life - dt;
      if life <= 0.0 {
        i', n' := RemoveSlot(i, n, dt, gravDt);
      } else {
        i', n' := KeepSlot(i, n, dt, gravDt);
      }
    }

    /** Swap-with-last removal of the expired particle in slot `i`. */
    method RemoveSlot(i: nat, n: nat, dt: real, gravDt: real) returns (i': nat, n': nat)
      requires i < n <= slots.Length && slots[i].life - dt <= 0.0
      modifies slots
      ensures i' == i && n' == n - 1
      ensures slots[..i] == old(slots[..i])
      ensures slots[i..n - 1] == Swapped(old(slots[i..n]))
      ensures multiset(slots[..i']) + multiset(Advance(slots[i'..n'], dt, gravDt))
        == multiset(old(slots[..i])) + multiset(Advance(old(slots[i..n]), dt, gravDt))
    {
      i', n' := i, n - 1;
      ghost var pre := slots[i..n];
      assert Step(slots[i], dt, gravDt).None?;
      slots[i] := slots[n - 1];
      assert slots[i..n - 1] == Swapped(pre);
      ExpireStep(pre, dt, gravDt);
    }

    /** Step the surviving particle in slot `i` and store it back. */
    method KeepSlot(i: nat, n: nat, dt: real, gravDt: real) returns (i': nat, n': nat)
      requires i < n <= slots.Length && slots[i].life - dt > 0.0
      modifies slots
      ensures i' == i + 1 && n' == n
      ensures multiset(slots[..i']) + multiset(Advance(slots[i'..n'], dt, gravDt))
        == multiset(old(slots[..i])) + multiset(Advance(old(slots[i..n]), dt, gravDt))
    {
      i', n' := i + 1, n;
      ghost var done := slots[..i];
      ghost var pre := slots[i..n];
      var p := slots[i];
      var q := Move(p, p.life - dt, dt, gravDt);
      slots[i] := q;
      assert slots[..i + 1] == done + [q];
      assert slots[i + 1..n] == pre[1..];
      SurvivorStep(done, pre, q, dt, gravDt);
    }

    /** One frame for every live particle, in place: a particle whose life
        runs out is overwritten by the last live one, which is then
        processed in its place. The survivors are the stepped particles,
        up to order. */
    method Update(dt: real, gravity: real)
      requires Valid()
      modifies this, slots
      ensures Valid() && count <= old(count)
      ensures multiset(Live()) == multiset(Advance(old(Live()), dt, gravity * dt))
    {
      ghost var start := Live();
      var n := count;
      var gravDt := gravity * dt;
      var i := 0;
      assert slots[0..n] == start;
      while i < n
        invariant 0 <= i <= n <= count == old(count) <= cap == slots.Length
        invariant multiset(slots[..i]) + multiset(Advance(slots[i..n], dt, gravDt))
          == multiset(Advance(start, dt, gravDt))
        decreases n - i
      {
        i, n := UpdateSlot(i, n, dt, gravDt);
      }
      count := n;
      assert slots[..i] == Live();
    }
  }

  /** What a tap or hold in the play area does. */
  datatype Mode = FountainMode | RainMode | SwirlMode | ExplosionMode

  /** Rain falls at 200 drops per second. */
  const RainInterval: real := 1.0 / 200.0

  /** The particles an emitter loop adds: the first `k` draws, as `emit`
      stores them. */
  function Emitted(draw: nat -> Spawn, k: nat): (s: seq<Particle>)
    ensures |s| == k && forall j :: 0 <= j < k ==> s[j] == Born(draw(j))
  {
    seq(k, j requires 0 <= j => Born(draw(j)))
  }

  /** The playground screen's emitter state. The random parts of each new
      particle (angle, speed, colour, life, size) are the supplied `draw`s. */
  class PlaygroundScreen {
    const pool: ParticlePool
    var mode: Mode
    var palette: nat
    var hue: real
    var touching: bool
    var touchX: int
    var touchY: int
    var rainTimer: real

    constructor ()
      ensures fresh(pool) && fresh(pool.slots) && pool.Valid()
      ensures pool.cap == MaxParticles && pool.count == 0
      ensures mode == FountainMode && palette == 0 && hue == 0.0 && !touching
      ensures touchX == Width / 2 && touchY == Height / 2 && rainTimer == 0.0
    {
      pool := new ParticlePool(MaxParticles);
      mode := FountainMode;
      palette := 0;
      hue := 0.0;
      touching := false;
      touchX := Width / 2;
      touchY := Height / 2;
      rainTimer := 0.0;
    }

    /** Entering the screen empties the pool and resets hue, touch and the
        rain accumulator. */
    method OnEnter()
      requires pool.Valid()
      modifies this, pool
      ensures pool.Valid() && pool.Live() == []
      ensures hue == 0.0 && !touching && rainTimer == 0.0
      ensures mode == old(mode) && palette == old(palette)
      ensures touchX == old(touchX) && touchY == old(touchY)
    {
      pool.Clear();
      hue := 0.0;
      touching := false;
      rainTimer := 0.0;
    }

    /** Try to emit `k` particles, stopping at the first one the full pool
        refuses: the pool gains exactly the first `min(k, free slots)`
        draws, in order. */
    method EmitUpTo(k: nat, draw: nat -> Spawn) returns (emitted: nat)
      requires pool.Valid()
      modifies pool, pool.slots
      ensures pool.Valid()
      ensures emitted == Min(k, pool.cap - old(pool.count))
      ensures pool.Live() == old(pool.Live()) + Emitted(draw, emitted)
    {
      emitted := 0;
      while emitted < k
        invariant pool.Valid() && emitted <= k
        invariant pool.count == old(pool.count) + emitted
        invariant pool.Live() == old(pool.Live()) + Emitted(draw, emitted)
      {
        var ok := pool.Emit(draw(emitted));
        if !ok {
          break;
        }
        emitted := emitted + 1;
      }
    }

    /** Fountain: `int(120 * dt) + 1` particles per frame while touching. */
    method EmitFountain(dt: real, draw: nat -> Spawn) returns (emitted: nat)
      requires pool.Valid() && dt >= 0.0
      modifies pool, pool.slots
      ensures pool.Valid()
      ensures emitted == Min(Trunc(120.0 * dt) + 1, pool.cap - old(pool.count))
      ensures pool.Live() == old(pool.Live()) + Emitted(draw, emitted)
    {
      emitted := EmitUpTo(Trunc(120.0 * dt) + 1, draw);
    }

    /** Swirl: `int(80 * dt) + 1` particles per frame while touching. */
    method EmitSwirl(dt: real, draw: nat -> Spawn) returns (emitted: nat)
      requires pool.Valid() && dt >= 0.0
      modifies pool, pool.slots
      ensures pool.Valid()
      ensures emitted == Min(Trunc(80.0 * dt) + 1, pool.cap - old(pool.count))
      ensures pool.Live() == old(pool.Live()) + Emitted(draw, emitted)
    {
      emitted := EmitUpTo(Trunc(80.0 * dt) + 1, draw);
    }

    /** Explosion: at most 150 particles for one tap. */
    method EmitExplosion(draw: nat -> Spawn) returns (emitted: nat)
      requires pool.Valid()
      modifies pool, pool.slots
      ensures pool.Valid() && emitted <= 150
      ensures emitted == Min(150, pool.cap - old(pool.count))
      ensures pool.Live() == old(pool.Live()) + Emitted(draw, emitted)
    {
      emitted := EmitUpTo(150, draw);
    }

    /** Rain: the accumulator gains `dt`; each whole interval it holds is
        spent on one drop, until it holds less than an interval or the pool
        refuses a drop (that interval is spent all the same). */
    method EmitRain(dt: real, draw: nat -> Spawn) returns (emitted: nat)
      requires pool.Valid()
      modifies this, pool, pool.slots
      ensures pool.Valid()
      ensures pool.Live() == old(pool.Live()) + Emitted(draw, emitted)
      ensures rainTimer < RainInterval || pool.count == pool.cap
      ensures rainTimer == old(rainTimer) + dt - emitted as real * RainInterval
        || (pool.count == pool.cap
            && rainTimer == old(rainTimer) + dt - (emitted + 1) as real * RainInterval)
      ensures mode == old(mode) && palette == old(palette) && hue == old(hue)
      ensures touching == old(touching) && touchX == old(touchX) && touchY == old(touchY)
    {
      rainTimer := rainTimer + dt;
      emitted := 0;
      while rainTimer >= RainInterval
        invariant pool.Valid()
        invariant pool.Live() == old(pool.Live()) + Emitted(draw, emitted)
        invariant rainTimer == old(rainTimer) + dt - emitted as real * RainInterval
        invariant mode == old(mode) && palette == old(palette) && hue == old(hue)
        invariant touching == old(touching) && touchX == old(touchX) && touchY == old(touchY)
        decreases (rainTimer * 200.0).Floor
      {
        rainTimer := rainTimer - RainInterval;
        var ok := pool.Emit(draw(emitted));
        if !ok {
          return;
        }
        emitted := emitted + 1;
      }
    }
  }
}
