/** The animal sounds screen (screens/animal_sounds.py): nine animal tiles
    in a 3 x 3 grid. A tap on a tile bounces it, bursts ten particles from
    its centre and shows the animal's name for a second. */
module AnimalSounds {
  import opened Kit
  import opened Router
  import Menus

  const TileCount: nat := 9
  const Margin: int := 25
  const TileSize: int := 190
  /** `(WIDTH - 2 * margin - 3 * tile_size) // 2`, that is 50. */
  const Gap: int := (Width - 2 * Margin - 3 * TileSize) / 2
  const StartY: int := 100
  const BounceTime: real := 0.3
  const NameTime: real := 1.0
  const BurstSize: nat := 10
  const ParticleLife: real := 0.6
  /** Radius lost per second. */
  const Shrink: real := 15.0


  /** One entry of the animal catalogue: its name and tile colour. */
  datatype Animal = Animal(name: string, colour: Rgb)

  /** Tile `i` is in column `i % 3` and row `i / 3`. */
  function TileRect(i: nat): Rect {
    Rect(Margin + (i % 3) * (TileSize + Gap), StartY + (i / 3) * (TileSize + Gap), TileSize, TileSize)
  }

  /** No point lies in two tiles, so a tap reaches at most one animal. */
  lemma TilesDisjoint(i: nat, j: nat, p: Point)
    requires i < TileCount && j < TileCount && i != j
    ensures !(TileRect(i).Contains(p) && TileRect(j).Contains(p))
  {
    var ci, ri, cj, rj := i % 3, i / 3, j % 3, j / 3;
    assert i == 3 * ri + ci && j == 3 * rj + cj;
    assert TileRect(i) == Rect(Margin + ci * 240, StartY + ri * 240, TileSize, TileSize);
    assert TileRect(j) == Rect(Margin + cj * 240, StartY + rj * 240, TileSize, TileSize);
  }

  /** The nested `for row in range(3): for col in range(3)` loop of
      `__init__`. */
  method BuildTiles() returns (tiles: seq<Rect>)
    ensures |tiles| == TileCount && forall i :: 0 <= i < TileCount ==> tiles[i] == TileRect(i)
  {
    tiles := [];
    var row := 0;
    while row < 3
      invariant 0 <= row <= 3 && |tiles| == 3 * row
      invariant forall i :: 0 <= i < |tiles| ==> tiles[i] == TileRect(i)
    {
      var col := 0;
      while col < 3
        invariant 0 <= col <= 3 && |tiles| == 3 * row + col
        invariant forall i :: 0 <= i < |tiles| ==> tiles[i] == TileRect(i)
      {
        var i := 3 * row + col;
        assert i % 3 == col && i / 3 == row;
        tiles := tiles + [Rect(Margin + col * (TileSize + Gap), StartY + row * (TileSize + Gap), TileSize, TileSize)];
        col := col + 1;
      }
      row := row + 1;
    }
  }

  /** A burst particle. */
  datatype Particle = Particle(x: real, y: real, vx: real, vy: real, colour: Rgb, radius: real, life: real)

  /** The random parts of a particle: its velocity (a random direction at a
      speed between 150 and 400), the colour jitter and the radius. */
  datatype ParticleDraw = ParticleDraw(vx: real, vy: real, jr: int, jg: int, jb: int, radius: int)

  predicate DrawOk(d: ParticleDraw) {
    && 150.0 * 150.0 <= d.vx * d.vx + d.vy * d.vy <= 400.0 * 400.0
    && 0 <= d.jr <= 80 && 0 <= d.jg <= 80 && 0 <= d.jb <= 80
    && 5 <= d.radius <= 12
  }

  /** `min(255, c + jitter)`. */
  function Lighten(c: int, jitter: int): (r: int)
    ensures r <= 255 && (jitter >= 0 ==> r >= Min(c, 255))
    ensures c + jitter <= 255 ==> r == c + jitter
  {
    Min(255, c + jitter)
  }

  /** `Particle(cx, cy, c)`: at the tile centre, with the full life. */
  function NewParticle(cx: int, cy: int, base: Rgb, d: ParticleDraw): (p: Particle)
    ensures DrawOk(d) ==> p.life > 0.0 && 5.0 <= p.radius <= 12.0
    ensures p.x == cx as real && p.y == cy as real
  {
    Particle(cx as real, cy as real, d.vx, d.vy,
      Rgb(Lighten(base.red, d.jr), Lighten(base.green, d.jg), Lighten(base.blue, d.jb)),
      d.radius as real, ParticleLife)
  }

  /** The ten particles a tap on tile `i` bursts from its centre, each
      from its own draw. */
  function Burst(i: nat, base: Rgb, draw: nat -> ParticleDraw): (r: seq<Particle>)
    ensures |r| == BurstSize
    ensures forall j :: 0 <= j < BurstSize ==>
      r[j] == NewParticle(TileRect(i).x + TileSize / 2, TileRect(i).y + TileSize / 2, base, draw(j))
  {
    Map(Draws(BurstSize, draw), (d: ParticleDraw) =>
      NewParticle(TileRect(i).x + TileSize / 2, TileRect(i).y + TileSize / 2, base, d))
  }

  /** `Particle.update`: move, age, and shrink, never below radius 0. */
  function ParticleTick(p: Particle, dt: real): (q: Particle)
    ensures q.radius >= 0.0 && q.life == p.life - dt
    ensures dt >= 0.0 ==> q.radius <= Max0(p.radius)
  {
    Particle(p.x + p.vx * dt, p.y + p.vy * dt, p.vx, p.vy, p.colour,
      if p.radius - dt * Shrink > 0.0 then p.radius - dt * Shrink else 0.0, p.life - dt)
  }

  function Max0(v: real): real { if v > 0.0 then v else 0.0 }

  predicate ParticlesOk(ps: seq<Particle>) {
    forall p :: p in ps ==> p.life > 0.0 && p.radius >= 0.0
  }

  /** Every particle updates, and those whose life ran out are dropped;
      the survivors are exactly the ticked particles with life left. */
  function ParticlesFrame(ps: seq<Particle>, dt: real): (r: seq<Particle>)
    ensures ParticlesOk(r) && |r| <= |ps|
    ensures forall p :: p in ps && p.life - dt > 0.0 ==> ParticleTick(p, dt) in r
    ensures forall q :: q in r ==> exists p :: p in ps && q == ParticleTick(p, dt)
  {
    var moved := Map(ps, (p: Particle) => ParticleTick(p, dt));
    assert forall p :: p in ps ==> ParticleTick(p, dt) in moved by {
      forall p | p in ps ensures ParticleTick(p, dt) in moved {
        var i :| 0 <= i < |ps| && ps[i] == p;
        assert moved[i] == ParticleTick(p, dt);
      }
    }
    assert forall q :: q in moved ==> exists p :: p in ps && q == ParticleTick(p, dt) by {
      forall q | q in moved ensures exists p :: p in ps && q == ParticleTick(p, dt) {
        var i :| 0 <= i < |moved| && moved[i] == q;
        assert ps[i] in ps;
      }
    }
    Filter(moved, (p: Particle) => p.life > 0.0)
  }

  /** The bounce timers after a frame: each drops by `dt`, and exactly the
      ones that reached zero or below are deleted. */
  ghost function BouncesAfter(m: map<nat, real>, dt: real): (r: map<nat, real>)
    ensures forall k :: k in r <==> k in m && m[k] - dt > 0.0
    ensures forall k :: k in r ==> r[k] == m[k] - dt && r[k] > 0.0
  {
    map k | k in m && m[k] - dt > 0.0 :: m[k] - dt
  }

  /** The two loops of `update` over `bounce_timers`: decrement each timer
      and note the expired ones, then delete those. */
  method TickBounces(m: map<nat, real>, dt: real) returns (r: map<nat, real>)
    ensures r == BouncesAfter(m, dt)
  {
    var t := m;
    var todo := m.Keys;
    var expired: set<nat> := {};
    while todo != {}
      invariant todo <= m.Keys && t.Keys == m.Keys && expired <= m.Keys
      invariant forall k :: k in todo ==> t[k] == m[k]
      invariant forall k :: k in m && k !in todo ==> t[k] == m[k] - dt
      invariant forall k :: k in expired ==> k !in todo && m[k] - dt <= 0.0
      invariant forall k :: k in m && k !in todo && k !in expired ==> m[k] - dt > 0.0
      decreases |todo|
    {
      var k :| k in todo;
      t := t[k := t[k] - dt];
      if t[k] <= 0.0 {
        expired := expired + {k};
      }
      todo := todo - {k};
    }
    r := t - expired;
    SameBounces(r, m, dt);
  }

  /** Two timer maps that agree key by key are equal. */
  lemma SameBounces(r: map<nat, real>, m: map<nat, real>, dt: real)
    requires forall k :: k in r <==> k in m && m[k] - dt > 0.0
    requires forall k :: k in r ==> r[k] == m[k] - dt
    ensures r == BouncesAfter(m, dt)
  {
  }

  /** `name_display`: the name shown and the time it has left. */
  datatype NameShown = NameShown(name: string, timer: real)

  /** The name countdown of `update`: cleared once it reaches zero. */
  function NameAfter(n: Option<NameShown>, dt: real): (r: Option<NameShown>)
    ensures r.Some? <==> n.Some? && n.value.timer - dt > 0.0
    ensures r.Some? ==> r.value.name == n.value.name && r.value.timer == n.value.timer - dt
  {
    match n
    case None => None
    case Some(NameShown(name, timer)) =>
      if timer - dt <= 0.0 then None else Some(NameShown(name, timer - dt))
  }

  class AnimalSoundsScreen {
    /** `ANIMALS`: the catalogue, one animal per tile. */
    const animals: seq<Animal>
    var tiles: seq<Rect>
    var backRect: Option<Rect>
    var particles: seq<Particle>
    var bounceTimers: map<nat, real>
    var nameDisplay: Option<NameShown>

    /** Nine grid tiles; bounce timers only for tiles and always within
        (0, 0.3]; live particles; a shown name has time left. */
    ghost predicate Valid() reads this {
      && |animals| >= TileCount
      && |tiles| == TileCount && (forall i :: 0 <= i < TileCount ==> tiles[i] == TileRect(i))
      && (forall k :: k in bounceTimers ==> k < TileCount && 0.0 < bounceTimers[k] <= BounceTime)
      && ParticlesOk(particles)
      && (nameDisplay.Some? ==> 0.0 < nameDisplay.value.timer <= NameTime)
    }

    constructor (catalogue: seq<Animal>)
      requires |catalogue| >= TileCount
      ensures Valid() && animals == catalogue && backRect == None
      ensures particles == [] && bounceTimers == map[] && nameDisplay == None
    {
      animals := catalogue;
      var built := BuildTiles();
      tiles := built;
      backRect := None;
      particles, bounceTimers, nameDisplay := [], map[], None;
    }

    /** The state `draw` changes: the back-button rectangle. */
    method Draw()
      requires Valid()
      modifies this
      ensures Valid() && backRect == Some(BackRect)
      ensures tiles == old(tiles) && particles == old(particles)
      ensures bounceTimers == old(bounceTimers) && nameDisplay == old(nameDisplay)
    {
      backRect := Some(BackRect);
    }

    /** `on_enter`: no particles, no bounces, no name. */
    method OnEnter()
      requires Valid()
      modifies this
      ensures Valid() && particles == [] && bounceTimers == map[] && nameDisplay == None
      ensures tiles == old(tiles) && backRect == old(backRect)
    {
      particles, bounceTimers, nameDisplay := [], map[], None;
    }

    /** `_tap_animal`: bounce the tile, burst ten particles from its centre,
        show the name for a second. */
    method TapAnimal(i: nat, draw: nat -> ParticleDraw)
      requires Valid() && i < TileCount && forall j :: DrawOk(draw(j))
      modifies this
      ensures Valid() && tiles == old(tiles) && backRect == old(backRect)
      ensures bounceTimers == old(bounceTimers)[i := BounceTime]
      ensures nameDisplay == Some(NameShown(animals[i].name, NameTime))
      ensures particles == old(particles) + Burst(i, animals[i].colour, draw)
    {
      bounceTimers := bounceTimers[i := BounceTime];
      var burst := Burst(i, animals[i].colour, draw);
      assert ParticlesOk(burst);
      particles := particles + burst;
      nameDisplay := Some(NameShown(animals[i].name, NameTime));
    }

    /** A press on the back button goes back; a press on a tile taps that
        animal (the only tile containing the point). */
    method HandleEvent(e: Event, draw: nat -> ParticleDraw) returns (nav: Nav, tapped: Option<nat>)
      requires Valid() && forall j :: DrawOk(draw(j))
      modifies this
      ensures Valid() && tiles == old(tiles) && backRect == old(backRect)
      ensures nav == (if e.MouseDown? && old(backRect).Some? && old(backRect).value.Contains(e.pos) then GoBack else Stay)
      ensures tapped.Some? <==> e.MouseDown? && nav == Stay && exists j :: 0 <= j < TileCount && TileRect(j).Contains(e.pos)
      ensures tapped.Some? ==> (
        && tapped.value < TileCount && TileRect(tapped.value).Contains(e.pos)
        && (forall j :: 0 <= j < TileCount && j != tapped.value ==> !TileRect(j).Contains(e.pos))
        && bounceTimers == old(bounceTimers)[tapped.value := BounceTime]
        && nameDisplay == Some(NameShown(animals[tapped.value].name, NameTime))
        && particles == old(particles) + Burst(tapped.value, animals[tapped.value].colour, draw))
      ensures tapped.None? ==>
        particles == old(particles) && bounceTimers == old(bounceTimers) && nameDisplay == old(nameDisplay)
    {
      nav, tapped := Stay, None;
      if !e.MouseDown? {
        return;
      }
      if backRect.Some? && backRect.value.Contains(e.pos) {
        nav := GoBack;
        return;
      }
      var k := Menus.FirstContaining(tiles, e.pos);
      if k.Some? {
        var i := k.value;
        forall j | 0 <= j < TileCount && j != i
          ensures !TileRect(j).Contains(e.pos)
        {
          TilesDisjoint(i, j, e.pos);
        }
        TapAnimal(i, draw);
        tapped := k;
      }
    }

    /** `update`: bounce timers, particles and the name all run down. */
    method Update(dt: real)
      requires Valid() && dt >= 0.0
      modifies this
      ensures Valid() && tiles == old(tiles) && backRect == old(backRect)
      ensures bounceTimers == BouncesAfter(old(bounceTimers), dt)
      ensures particles == ParticlesFrame(old(particles), dt)
      ensures nameDisplay == NameAfter(old(nameDisplay), dt)
    {
      var b := TickBounces(bounceTimers, dt);
      assert forall k :: k in b ==> k < TileCount && 0.0 < b[k] <= BounceTime by {
        forall k | k in b ensures k < TileCount && 0.0 < b[k] <= BounceTime {
          assert k in bounceTimers && b[k] == bounceTimers[k] - dt;
        }
      }
      var ps := ParticlesFrame(particles, dt);
      var n := NameAfter(nameDisplay, dt);
      bounceTimers, particles, nameDisplay := b, ps, n;
    }
  }
}
