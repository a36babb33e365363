/** Bounded-retry rejection sampling for placing a bubble among others, as
    written twice in the source (`spawn_bubble` in screens/bubble_pop.py
    and in ava_games.py): up to 50 random candidate centres are tried, the
    first one far enough from every bubble is kept, and when none is, the
    last candidate is kept anyway. */
module Placement {
  import opened Kit

  /** Number of candidates drawn (`for _ in range(50)`). */
  const Tries: nat := 50

  /** What placement needs to know of a bubble already on screen. */
  datatype Disc = Disc(x: int, y: int, r: int)

  /** A candidate centre `p` for a bubble of radius `r` is clear when its
      distance to every disc is at least `r + d.r + gap`. The source
      compares `sqrt(d2) < r + d.r + gap`; with a nonnegative right-hand
      side that is `d2 < (r + d.r + gap)^2`, so the negation is stated on
      squares. */
  predicate Clear(p: Point, r: int, gap: int, others: seq<Disc>) {
    forall d :: d in others ==>
      (p.x - d.x) * (p.x - d.x) + (p.y - d.y) * (p.y - d.y) >= (r + d.r + gap) * (r + d.r + gap)
  }

  /** The outcome of the retry loop: the candidate at some index `k` is
      taken, every earlier candidate was not clear, and `k` is either clear
      or the last try. */
  ghost predicate Chosen(p: Point, cands: seq<Point>, r: int, gap: int, others: seq<Disc>) {
    exists k :: 0 <= k < |cands| && p == cands[k]
      && (forall j :: 0 <= j < k ==> !Clear(cands[j], r, gap, others))
      && (Clear(cands[k], r, gap, others) || k == |cands| - 1)
  }

  /** The retry loop. It always ends: there are exactly 50 tries. */
  method Place(r: int, gap: int, cands: seq<Point>, others: seq<Disc>) returns (p: Point)
    requires |cands| == Tries
    ensures p in cands
    ensures Chosen(p, cands, r, gap, others)
    ensures (exists j :: 0 <= j < |cands| && Clear(cands[j], r, gap, others)) ==> Clear(p, r, gap, others)
  {
    var i := 0;
    p := cands[0];
    while i < |cands|
      invariant 0 <= i <= |cands|
      invariant forall j :: 0 <= j < i ==> !Clear(cands[j], r, gap, others)
      invariant i > 0 ==> p == cands[i - 1]
    {
      p := cands[i];
      if Clear(p, r, gap, others) {
        return;
      }
      i := i + 1;
    }
    assert p == cands[|cands| - 1];
  }

  /** When nothing is on screen yet, the first candidate is taken. */
  lemma FirstCandidateWhenEmpty(p: Point, cands: seq<Point>, r: int, gap: int)
    requires Chosen(p, cands, r, gap, [])
    ensures p == cands[0]
  {
    var k :| 0 <= k < |cands| && p == cands[k]
      && (forall j :: 0 <= j < k ==> !Clear(cands[j], r, gap, []))
      && (Clear(cands[k], r, gap, []) || k == |cands| - 1);
    assert Clear(cands[0], r, gap, []);
  }
}
