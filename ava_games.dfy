/** Ava's Game Box (ava_games.py): a stand-alone two-state app. A splash
    screen with a play button; once tapped, ten bubbles appear and a tap
    on a bubble pops it and places a new one. */
module AvaGames {
  import opened Kit
  import opened Placement

  const StartCount: nat := 10
  const MinRadius: int := 30
  const MaxRadius: int := 60
  /** `pygame.Rect(WIDTH // 4, HEIGHT // 2 + 100, WIDTH // 2, 100)`. */
  const PlayButton: Rect := Rect(Width / 4, Height / 2 + 100, Width / 2, 100)

  datatype Phase = Splash | Bubbles

  datatype AvaBubble = AvaBubble(x: int, y: int, r: int, red: int, green: int, blue: int)

  /** The random parts of a new bubble: radius, 50 candidate centres, colour. */
  datatype AvaDraw = AvaDraw(radius: int, cands: seq<Point>, red: int, green: int, blue: int)

  predicate CentreInRange(p: Point, r: int) {
    r <= p.x <= Width - r && r <= p.y <= Height - r
  }

  predicate DrawOk(d: AvaDraw) {
    MinRadius <= d.radius <= MaxRadius && |d.cands| == Tries
    && forall c :: c in d.cands ==> CentreInRange(c, d.radius)
  }

  /** Radius in [30, 60], wholly on screen. */
  predicate InBounds(b: AvaBubble) {
    MinRadius <= b.r <= MaxRadius && CentreInRange(Point(b.x, b.y), b.r)
  }

  function Discs(bs: seq<AvaBubble>): (ds: seq<Disc>)
    ensures |ds| == |bs| && forall i :: 0 <= i < |bs| ==> ds[i] == Disc(bs[i].x, bs[i].y, bs[i].r)
  {
    Map(bs, (b: AvaBubble) => Disc(b.x, b.y, b.r))
  }

  /** `dist < radius`, on squares (the radius is positive). */
  predicate Hit(b: AvaBubble, pos: Point) {
    (pos.x - b.x) * (pos.x - b.x) + (pos.y - b.y) * (pos.y - b.y) < b.r * b.r
  }

  /** The first bubble from index `from` on that the tap is inside of, or
      None exactly when it is inside none of them. */
  function FirstHit(bs: seq<AvaBubble>, pos: Point, from: nat): (k: Option<nat>)
    requires from <= |bs|
    ensures k.Some? ==> from <= k.value < |bs| && Hit(bs[k.value], pos)
    ensures k.Some? ==> forall j :: from <= j < k.value ==> !Hit(bs[j], pos)
    ensures k.None? ==> forall j :: from <= j < |bs| ==> !Hit(bs[j], pos)
    decreases |bs| - from
  {
    if from == |bs| then None
    else if Hit(bs[from], pos) then Some(from)
    else FirstHit(bs, pos, from + 1)
  }

  /** The first bubble the tap is inside of. */
  method FindHit(bs: seq<AvaBubble>, pos: Point) returns (k: Option<nat>)
    ensures k == FirstHit(bs, pos, 0)
    ensures k.Some? ==> k.value < |bs| && Hit(bs[k.value], pos)
    ensures k.Some? ==> forall j :: 0 <= j < k.value ==> !Hit(bs[j], pos)
    ensures k.None? ==> forall j :: 0 <= j < |bs| ==> !Hit(bs[j], pos)
  {
    var i := 0;
    while i < |bs|
      invariant 0 <= i <= |bs|
      invariant forall j :: 0 <= j < i ==> !Hit(bs[j], pos)
      invariant FirstHit(bs, pos, 0) == FirstHit(bs, pos, i)
    {
      if Hit(bs[i], pos) {
        return Some(i);
      }
      i := i + 1;
    }
    return None;
  }

  /** Bubble `b` is what `spawn_bubble` makes from draw `d` while `others`
      are on screen: the drawn radius and colour, at the centre the retry
      loop picks with no extra gap. */
  ghost predicate Spawned(b: AvaBubble, d: AvaDraw, others: seq<AvaBubble>) {
    && b.r == d.radius && b.red == d.red && b.green == d.green && b.blue == d.blue
    && Chosen(Point(b.x, b.y), d.cands, d.radius, 0, Discs(others))
  }

  class AvaGameBox {
    var phase: Phase
    var bubbles: seq<AvaBubble>

    /** Bubbles exist only after the splash, and all of them are on screen. */
    ghost predicate Valid() reads this {
      (phase == Splash ==> bubbles == [])
      && forall b :: b in bubbles ==> InBounds(b)
    }

    /** The box starts on the splash screen with no bubbles. */
    constructor ()
      ensures Valid() && phase == Splash && bubbles == []
    {
      phase := Splash;
      bubbles := [];
    }

    /** `spawn_bubble`: the retry loop with clearance `r + d.r`. */
    method SpawnBubble(d: AvaDraw)
      requires Valid() && DrawOk(d) && phase == Bubbles
      modifies this
      ensures Valid() && phase == Bubbles
      ensures |bubbles| == |old(bubbles)| + 1 && bubbles[..|old(bubbles)|] == old(bubbles)
      ensures Spawned(bubbles[|old(bubbles)|], d, old(bubbles))
    {
      var p := Place(d.radius, 0, d.cands, Discs(bubbles));
      var b := AvaBubble(p.x, p.y, d.radius, d.red, d.green, d.blue);
      assert InBounds(b);
      bubbles := bubbles + [b];
    }

    /** A press in `run`. On the splash screen only the play button reacts:
        the box switches to bubbles and places ten. With bubbles, the first
        bubble hit is popped and replaced, so their number stays the same.
        Nothing leads back to the splash screen. */
    method HandleEvent(e: Event, draw: nat -> AvaDraw, respawn: AvaDraw)
      requires Valid() && DrawOk(respawn) && forall j :: DrawOk(draw(j))
      modifies this
      ensures Valid()
      ensures old(phase) == Bubbles ==> phase == Bubbles && |bubbles| == |old(bubbles)|
      ensures old(phase) == Splash ==>
        if e.MouseDown? && PlayButton.Contains(e.pos) then
          && phase == Bubbles && |bubbles| == StartCount
          && forall k :: 0 <= k < StartCount ==> Spawned(bubbles[k], draw(k), bubbles[..k])
        else phase == Splash && bubbles == []
      // The first bubble hit (`FirstHit`) is removed and one new bubble is
      // spawned from `respawn` among the rest; a miss changes nothing.
      ensures old(phase) == Bubbles && e.MouseDown? ==>
        var k := FirstHit(old(bubbles), e.pos, 0);
        if k.Some? then
          var rest := old(bubbles)[..k.value] + old(bubbles)[k.value + 1..];
          bubbles[..|bubbles| - 1] == rest && Spawned(bubbles[|bubbles| - 1], respawn, rest)
        else bubbles == old(bubbles)
      ensures !e.MouseDown? ==> phase == old(phase) && bubbles == old(bubbles)
    {
      if !e.MouseDown? {
        return;
      }
      if phase == Splash {
        if PlayButton.Contains(e.pos) {
          phase := Bubbles;
          var k := 0;
          while k < StartCount
            invariant 0 <= k <= StartCount && |bubbles| == k && Valid() && phase == Bubbles
            invariant forall j :: 0 <= j < k ==> Spawned(bubbles[j], draw(j), bubbles[..j])
          {
            ghost var before := bubbles;
            SpawnBubble(draw(k));
            forall j | 0 <= j < k ensures Spawned(bubbles[j], draw(j), bubbles[..j]) {
              assert bubbles[j] == before[j] && bubbles[..j] == before[..j];
            }
            assert bubbles[..k] == before;
            k := k + 1;
          }
        }
      } else {
        var k := FindHit(bubbles, e.pos);
        if k.Some? {
          var i := k.value;
          var rest := bubbles[..i] + bubbles[i + 1..];
          assert forall c :: c in rest ==> c in bubbles;
          bubbles := rest;
          SpawnBubble(respawn);
        }
      }
    }
  }
}
