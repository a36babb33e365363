/** Bubble pop (screens/bubble_pop.py): twelve bobbing bubbles; a tap pops
    the first bubble under the finger into a burst of particles and a
    floating "POP!", and a new bubble is placed at once. */
module BubblePop {
  import opened Kit
  import opened Router
  import opened Placement

  const BubbleCount: nat := 12
  const ShardsPerPop: nat := 15
  const MinRadius: int := 30
  const MaxRadius: int := 65
  /** Extra clearance between bubbles and from the screen edge. */
  const Gap: int := 5
  const Margin: int := 10
  const TextLife: real := 0.8
  const TextSpeed: real := -120.0
  const CloudWrapX: real := 840.0
  const CloudRestartX: real := -120.0
  /** Cloud heights are drawn with `randint(50, HEIGHT - 100)`. */
  const CloudMinY: int := 50
  const CloudMaxY: int := Height - 100


  datatype Bubble = Bubble(x: int, y: int, r: int, colour: Rgb,
                           phase: real, bobSpeed: real, bobAmount: real)
  datatype Shard = Shard(x: real, y: real, vx: real, vy: real, colour: Rgb,
                         radius: real, life: real, maxLife: real)
  datatype PopText = PopText(x: real, y: real, colour: Rgb, life: real, vy: real)
  datatype Cloud = Cloud(x: real, y: real, speed: real, size: int, alpha: int)

  /** The random parts of a new bubble: radius, the 50 candidate centres,
      colour and bobbing. */
  datatype BubbleDraw = BubbleDraw(radius: int, cands: seq<Point>, colour: Rgb,
                                   phase: real, bobSpeed: real, bobAmount: real)
  /** The random parts of one pop particle, and its colour jitter. */
  datatype ShardDraw = ShardDraw(vx: real, vy: real, radius: real, life: real,
                                 dr: int, dg: int, db: int)

  /** The ranges `random.randint` draws the radius and centre from. */
  predicate CentreInRange(p: Point, r: int) {
    r + Margin <= p.x <= Width - r - Margin && r + Margin <= p.y <= Height - r - Margin
  }

  predicate DrawOk(d: BubbleDraw) {
    MinRadius <= d.radius <= MaxRadius && |d.cands| == Tries
    && forall c :: c in d.cands ==> CentreInRange(c, d.radius)
  }

  /** Every bubble on screen has a radius in [30, 65] and lies inside the
      screen with a 10 px margin. */
  predicate InBounds(b: Bubble) {
    MinRadius <= b.r <= MaxRadius && CentreInRange(Point(b.x, b.y), b.r)
  }

  function Discs(bs: seq<Bubble>): (ds: seq<Disc>)
    ensures |ds| == |bs| && forall i :: 0 <= i < |bs| ==> ds[i] == Disc(bs[i].x, bs[i].y, bs[i].r)
  {
    Map(bs, (b: Bubble) => Disc(b.x, b.y, b.r))
  }

  /** A tap hits a bubble when it is within the radius of the bubble's
      bobbed centre; `bob` is the vertical offset `sin(...) * bob_amount`.
      A hit is therefore within the radius of the bubble's column. */
  predicate PopHit(b: Bubble, pos: Point, bob: real)
    ensures PopHit(b, pos, bob) && b.r >= 0 ==> -b.r < pos.x - b.x < b.r
  {
    var dx := (pos.x - b.x) as real;
    var dy := pos.y as real - (b.y as real + bob);
    (if b.r >= 0 then DiscBoundReal(dx, dy, b.r as real); true else true)
    && dx * dx + dy * dy < (b.r * b.r) as real
  }

  /** The first bubble from index `from` on that the tap hits, or None
      exactly when it hits none of them. */
  function FirstPop(bs: seq<Bubble>, pos: Point, bob: nat -> real, from: nat): (k: Option<nat>)
    requires from <= |bs|
    ensures k.Some? ==> from <= k.value < |bs| && PopHit(bs[k.value], pos, bob(k.value))
    ensures k.Some? ==> forall j :: from <= j < k.value ==> !PopHit(bs[j], pos, bob(j))
    ensures k.None? ==> forall j :: from <= j < |bs| ==> !PopHit(bs[j], pos, bob(j))
    decreases |bs| - from
  {
    if from == |bs| then None
    else if PopHit(bs[from], pos, bob(from)) then Some(from)
    else FirstPop(bs, pos, bob, from + 1)
  }

  /** The tap scan: the first bubble hit (`bob(i)` is bubble i's offset). */
  method FindPop(bs: seq<Bubble>, pos: Point, bob: nat -> real) returns (k: Option<nat>)
    ensures k == FirstPop(bs, pos, bob, 0)
    ensures k.Some? ==> k.value < |bs| && PopHit(bs[k.value], pos, bob(k.value))
    ensures k.Some? ==> forall j :: 0 <= j < k.value ==> !PopHit(bs[j], pos, bob(j))
    ensures k.None? ==> forall j :: 0 <= j < |bs| ==> !PopHit(bs[j], pos, bob(j))
  {
    var i := 0;
    while i < |bs|
      invariant 0 <= i <= |bs|
      invariant forall j :: 0 <= j < i ==> !PopHit(bs[j], pos, bob(j))
      invariant FirstPop(bs, pos, bob, 0) == FirstPop(bs, pos, bob, i)
    {
      if PopHit(bs[i], pos, bob(i)) {
        return Some(i);
      }
      i := i + 1;
    }
    return None;
  }

  /** A pop particle at the bubble's bobbed centre, its colour the bubble's
      jittered and capped at 255. */
  function NewShard(x: real, y: real, c: Rgb, d: ShardDraw): (s: Shard)
    ensures s.colour.red <= 255 && s.colour.green <= 255 && s.colour.blue <= 255
    ensures d.dr <= 255 - c.red ==> s.colour.red == c.red + d.dr
    ensures d.dg <= 255 - c.green ==> s.colour.green == c.green + d.dg
    ensures d.db <= 255 - c.blue ==> s.colour.blue == c.blue + d.db
    ensures s.life == s.maxLife == d.life && s.x == x && s.y == y
  {
    Shard(x, y, d.vx, d.vy, Rgb(Min(255, c.red + d.dr), Min(255, c.green + d.dg), Min(255, c.blue + d.db)),
          d.radius, d.life, d.life)
  }

  /** The 15 particles of a pop at the bubble's bobbed centre, one per
      draw. */
  function Burst(b: Bubble, bob: real, shard: nat -> ShardDraw): (r: seq<Shard>)
    ensures |r| == ShardsPerPop
    ensures forall j :: 0 <= j < ShardsPerPop ==>
      r[j] == NewShard(b.x as real, b.y as real + bob, b.colour, shard(j))
  {
    Draws(ShardsPerPop, j => NewShard(b.x as real, b.y as real + bob, b.colour, shard(j)))
  }

  /** The "POP!" that rises from the top of the popped bubble in its
      colour. */
  function PopLabel(b: Bubble, bob: real): (t: PopText)
    ensures t.life == TextLife && t.vy == TextSpeed && t.colour == b.colour
    ensures t.x == b.x as real && t.y == b.y as real + bob - b.r as real
  {
    PopText(b.x as real, b.y as real + bob - b.r as real, b.colour, TextLife, TextSpeed)
  }

  /** Bubble `b` is what `spawn_bubble` makes from draw `d` while `others`
      are on screen: the drawn radius, colour and bobbing, at the centre
      the retry loop picks. */
  ghost predicate Spawned(b: Bubble, d: BubbleDraw, others: seq<Bubble>) {
    && b.r == d.radius && b.colour == d.colour
    && b.phase == d.phase && b.bobSpeed == d.bobSpeed && b.bobAmount == d.bobAmount
    && Chosen(Point(b.x, b.y), d.cands, d.radius, Gap, Discs(others))
  }

  /** Appending a bubble spawned against the ones before it keeps every
      bubble spawned against its own predecessors. */
  lemma SpawnedExtend(before: seq<Bubble>, after: seq<Bubble>, draw: nat -> BubbleDraw)
    requires |after| == |before| + 1 && after[..|before|] == before
    requires forall j :: 0 <= j < |before| ==> Spawned(before[j], draw(j), before[..j])
    requires Spawned(after[|before|], draw(|before|), before)
    ensures forall j :: 0 <= j < |after| ==> Spawned(after[j], draw(j), after[..j])
  {
    forall j | 0 <= j < |after| ensures Spawned(after[j], draw(j), after[..j]) {
      if j < |before| {
        assert after[j] == before[j] && after[..j] == before[..j];
      }
    }
  }

  /** A pop particle after a frame: it keeps its sideways speed, colour
      and size, ages and falls ever faster. */
  function ShardTick(s: Shard, dt: real): (r: Shard)
    ensures r.vx == s.vx && r.colour == s.colour && r.radius == s.radius && r.maxLife == s.maxLife
    ensures dt >= 0.0 ==> r.life <= s.life && r.vy >= s.vy
  {
    s.(x := s.x + s.vx * dt, y := s.y + s.vy * dt, vy := s.vy + 200.0 * dt, life := s.life - dt)
  }

  /** A "POP!" label after a frame: it keeps its column, colour and speed,
      ages, and rises when its speed points up. */
  function TextTick(t: PopText, dt: real): (r: PopText)
    ensures r.x == t.x && r.colour == t.colour && r.vy == t.vy
    ensures dt >= 0.0 ==> r.life <= t.life && (t.vy <= 0.0 ==> r.y <= t.y)
  {
    assert dt >= 0.0 && t.vy <= 0.0 ==> t.vy * dt <= 0.0;
    t.(y := t.y + t.vy * dt, life := t.life - dt)
  }

  /** `BackgroundCloud.update`: drift right; past x = 840 restart at
      x = -120 on a new height `newY`. It keeps its speed, size and
      transparency, and either keeps its height or restarts. */
  function CloudTick(c: Cloud, dt: real, newY: int): (r: Cloud)
    ensures r.speed == c.speed && r.size == c.size && r.alpha == c.alpha
    ensures r.y == c.y || (r.x == CloudRestartX && r.y == newY as real)
  {
    var x := c.x + c.speed * dt;
    if x > CloudWrapX then c.(x := CloudRestartX, y := newY as real) else c.(x := x)
  }

  /** A height `randint(50, HEIGHT - 100)` can draw. */
  predicate CloudHeightOk(y: int) {
    CloudMinY <= y <= CloudMaxY
  }

  /** A cloud with a nonnegative speed stays within [-120, 840] across
      and within its height band. */
  predicate CloudOk(c: Cloud) {
    && CloudRestartX <= c.x <= CloudWrapX && c.speed >= 0.0
    && CloudMinY as real <= c.y <= CloudMaxY as real
  }

  /** Clouds stay in their band: a cloud that would drift past 840
      restarts at -120 on its new height; any other cloud keeps its height
      and has not moved left. */
  lemma CloudTickStays(c: Cloud, dt: real, newY: int)
    requires CloudOk(c) && dt >= 0.0 && CloudHeightOk(newY)
    ensures CloudOk(CloudTick(c, dt, newY))
    ensures c.x + c.speed * dt > CloudWrapX ==>
      CloudTick(c, dt, newY).x == CloudRestartX && CloudTick(c, dt, newY).y == newY as real
    ensures c.x + c.speed * dt <= CloudWrapX ==>
      CloudTick(c, dt, newY).x >= c.x && CloudTick(c, dt, newY).y == c.y
  {
    assert c.speed * dt >= 0.0;
  }

  predicate ShardsLive(ss: seq<Shard>) { forall s :: s in ss ==> s.life > 0.0 }
  predicate TextsLive(ts: seq<PopText>) { forall t :: t in ts ==> t.life > 0.0 }

  /** Particles move and fall; spent ones go. */
  function ShardsFrame(ss: seq<Shard>, dt: real): (r: seq<Shard>)
    ensures ShardsLive(r) && |r| <= |ss|
    ensures forall s :: s in ss && s.life - dt > 0.0 ==> ShardTick(s, dt) in r
    ensures forall q :: q in r ==> exists s :: s in ss && q == ShardTick(s, dt)
  {
    var moved := Map(ss, (s: Shard) => ShardTick(s, dt));
    assert forall s :: s in ss ==> ShardTick(s, dt) in moved by {
      forall s | s in ss ensures ShardTick(s, dt) in moved {
        var i :| 0 <= i < |ss| && ss[i] == s;
        assert moved[i] == ShardTick(s, dt);
      }
    }
    assert forall q :: q in moved ==> exists s :: s in ss && q == ShardTick(s, dt) by {
      forall q | q in moved ensures exists s :: s in ss && q == ShardTick(s, dt) {
        var i :| 0 <= i < |moved| && moved[i] == q;
        assert ss[i] in ss;
      }
    }
    Filter(moved, (s: Shard) => s.life > 0.0)
  }

  /** Floating texts rise; spent ones go. */
  function TextsFrame(ts: seq<PopText>, dt: real): (r: seq<PopText>)
    ensures TextsLive(r) && |r| <= |ts|
    ensures forall t :: t in ts && t.life - dt > 0.0 ==> TextTick(t, dt) in r
    ensures forall q :: q in r ==> exists t :: t in ts && q == TextTick(t, dt)
  {
    var moved := Map(ts, (t: PopText) => TextTick(t, dt));
    assert forall t :: t in ts ==> TextTick(t, dt) in moved by {
      forall t | t in ts ensures TextTick(t, dt) in moved {
        var i :| 0 <= i < |ts| && ts[i] == t;
        assert moved[i] == TextTick(t, dt);
      }
    }
    assert forall q :: q in moved ==> exists t :: t in ts && q == TextTick(t, dt) by {
      forall q | q in moved ensures exists t :: t in ts && q == TextTick(t, dt) {
        var i :| 0 <= i < |moved| && moved[i] == q;
        assert ts[i] in ts;
      }
    }
    Filter(moved, (t: PopText) => t.life > 0.0)
  }

  /** Every cloud drifts; `newY(i)` is cloud i's height after a wrap. */
  function CloudsFrame(cs: seq<Cloud>, dt: real, newY: nat -> int): (r: seq<Cloud>)
    requires dt >= 0.0 && forall c :: c in cs ==> CloudOk(c)
    requires forall i: nat :: CloudHeightOk(newY(i))
    ensures |r| == |cs| && forall c :: c in r ==> CloudOk(c)
    ensures forall i :: 0 <= i < |cs| ==> r[i] == CloudTick(cs[i], dt, newY(i))
  {
    var r := seq(|cs|, i requires 0 <= i < |cs| => CloudTick(cs[i], dt, newY(i)));
    assert forall c :: c in r ==> CloudOk(c) by {
      forall c | c in r ensures CloudOk(c) {
        var i :| 0 <= i < |r| && r[i] == c;
        assert cs[i] in cs;
        CloudTickStays(cs[i], dt, newY(i));
      }
    }
    r
  }

  class BubblePopScreen {
    var bubbles: seq<Bubble>
    var particles: seq<Shard>
    var texts: seq<PopText>
    var clouds: seq<Cloud>
    /** Set by the first draw. */
    var backRect: Option<Rect>
    var time: real

    ghost predicate Valid() reads this {
      (forall b :: b in bubbles ==> InBounds(b))
      && (forall c :: c in clouds ==> CloudOk(c))
    }

    /** Six clouds (supplied, as drawn at start-up), nothing else yet. */
    constructor (cs: seq<Cloud>)
      requires forall c :: c in cs ==> CloudOk(c)
      ensures Valid() && bubbles == [] && particles == [] && texts == []
      ensures clouds == cs && backRect == None && time == 0.0
    {
      bubbles, particles, texts, clouds := [], [], [], cs;
      backRect := None;
      time := 0.0;
    }

    /** The only state drawing changes: the back button's rectangle. */
    method Draw()
      modifies this
      ensures backRect == Some(BackRect)
      ensures bubbles == old(bubbles) && particles == old(particles) && texts == old(texts)
      ensures clouds == old(clouds) && time == old(time)
    {
      backRect := Some(BackRect);
    }

    /** `spawn_bubble`: place a new bubble by the retry loop (clearance
        radius sum plus 5) and append it. */
    method SpawnBubble(d: BubbleDraw)
      requires Valid() && DrawOk(d)
      modifies this
      ensures Valid()
      ensures |bubbles| == |old(bubbles)| + 1 && bubbles[..|old(bubbles)|] == old(bubbles)
      ensures Spawned(bubbles[|old(bubbles)|], d, old(bubbles))
      ensures particles == old(particles) && texts == old(texts) && clouds == old(clouds)
      ensures backRect == old(backRect) && time == old(time)
    {
      var p := Place(d.radius, Gap, d.cands, Discs(bubbles));
      var b := Bubble(p.x, p.y, d.radius, d.colour, d.phase, d.bobSpeed, d.bobAmount);
      assert InBounds(b);
      bubbles := bubbles + [b];
    }

    /** A fresh game: exactly twelve bubbles, each spawned from its own
        draw among the ones before it; no particles, no texts. */
    method OnEnter(draw: nat -> BubbleDraw)
      requires Valid() && forall j :: DrawOk(draw(j))
      modifies this
      ensures Valid() && |bubbles| == BubbleCount
      ensures forall k :: 0 <= k < BubbleCount ==> Spawned(bubbles[k], draw(k), bubbles[..k])
      ensures particles == [] && texts == [] && time == 0.0
      ensures clouds == old(clouds) && backRect == old(backRect)
    {
      bubbles, particles, texts := [], [], [];
      time := 0.0;
      var k := 0;
      while k < BubbleCount
        invariant 0 <= k <= BubbleCount && |bubbles| == k && Valid()
        invariant forall j :: 0 <= j < k ==> Spawned(bubbles[j], draw(j), bubbles[..j])
        invariant particles == [] && texts == [] && time == 0.0
        invariant clouds == old(clouds) && backRect == old(backRect)
      {
        ghost var before := bubbles;
        SpawnBubble(draw(k));
        SpawnedExtend(before, bubbles, draw);
        k := k + 1;
      }
    }

    /** A press (any button): back first; otherwise the first bubble hit
        pops: 15 particles and one "POP!" appear, the bubble is removed and
        a new one is placed, so the count of bubbles never changes. */
    method HandleEvent(e: Event, bob: nat -> real, shard: nat -> ShardDraw, respawn: BubbleDraw)
      returns (nav: Nav)
      requires Valid() && DrawOk(respawn)
      modifies this
      ensures Valid() && |bubbles| == |old(bubbles)|
      ensures nav == GoBack <==> e.MouseDown? && old(backRect).Some? && old(backRect).value.Contains(e.pos)
      ensures nav != GoBack ==> nav == Stay
      // A tap pops the first bubble it hits (`FirstPop`), exactly as `Pop`
      // states; a tap that hits none changes nothing.
      ensures nav == Stay && e.MouseDown? ==>
        var k := FirstPop(old(bubbles), e.pos, bob, 0);
        if k.Some? then
          var b, rest := old(bubbles)[k.value], old(bubbles)[..k.value] + old(bubbles)[k.value + 1..];
          && bubbles[..|bubbles| - 1] == rest
          && Spawned(bubbles[|bubbles| - 1], respawn, rest)
          && particles == old(particles) + Burst(b, bob(k.value), shard)
          && texts == old(texts) + [PopLabel(b, bob(k.value))]
        else bubbles == old(bubbles) && particles == old(particles) && texts == old(texts)
      ensures !(nav == Stay && e.MouseDown?) ==>
        bubbles == old(bubbles) && particles == old(particles) && texts == old(texts)
      ensures clouds == old(clouds) && backRect == old(backRect) && time == old(time)
    {
      nav := Stay;
      if !e.MouseDown? {
        return;
      }
      if backRect.Some? && backRect.value.Contains(e.pos) {
        return GoBack;
      }
      var k := FindPop(bubbles, e.pos, bob);
      if k.Some? {
        Pop(k.value, bob(k.value), shard, respawn);
      }
    }

    /** Bubble `i` pops at its bobbed centre and is replaced. */
    method Pop(i: nat, bob: real, shard: nat -> ShardDraw, respawn: BubbleDraw)
      requires Valid() && DrawOk(respawn) && i < |bubbles|
      modifies this
      ensures Valid() && |bubbles| == |old(bubbles)|
      ensures bubbles[..|bubbles| - 1] == old(bubbles)[..i] + old(bubbles)[i + 1..]
      ensures Spawned(bubbles[|bubbles| - 1], respawn, old(bubbles)[..i] + old(bubbles)[i + 1..])
      ensures particles == old(particles) + Burst(old(bubbles)[i], bob, shard)
      ensures texts == old(texts) + [PopLabel(old(bubbles)[i], bob)]
      ensures clouds == old(clouds) && backRect == old(backRect) && time == old(time)
    {
      var b := bubbles[i];
      particles := particles + Burst(b, bob, shard);
      texts := texts + [PopLabel(b, bob)];
      var rest := bubbles[..i] + bubbles[i + 1..];
      assert forall c :: c in rest ==> c in bubbles;
      bubbles := rest;
      SpawnBubble(respawn);
    }

    /** One frame: clouds drift (and wrap), particles and texts move, and
        spent particles and texts are dropped. */
    method Update(dt: real, newY: nat -> int)
      requires Valid() && dt >= 0.0
      requires forall i: nat :: CloudHeightOk(newY(i))
      modifies this
      ensures Valid() && time == old(time) + dt && bubbles == old(bubbles)
      ensures clouds == CloudsFrame(old(clouds), dt, newY)
      ensures particles == ShardsFrame(old(particles), dt) && texts == TextsFrame(old(texts), dt)
      ensures ShardsLive(particles) && TextsLive(texts)
      ensures backRect == old(backRect)
    {
      time := time + dt;
      clouds := CloudsFrame(clouds, dt, newY);
      particles := ShardsFrame(particles, dt);
      texts := TextsFrame(texts, dt);
    }
  }
}
