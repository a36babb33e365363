/** Shared vocabulary of the kiosk: display constants, screen identifiers,
    touch events and the integer rectangles every screen hit-tests against. */
module Kit {

  /** The fixed display (config.py). */
  const Width: int := 720
  const Height: int := 720

  /** The back button every screen draws in the top-left corner. */
  const BackBtnSize: int := 80
  const BackBtnMargin: int := 15

  /** One tag per screen (config.py "States"). */
  datatype ScreenId =
    | MainMenu | GamesMenu | FingerPaint | ShapeSorter | MagicGarden
    | Fireworks | ParticlePlayground | WeatherToy | Shows | Remote | Videos

  datatype Option<T> = None | Some(value: T)

  /** A colour as three 0-255 channels. */
  datatype Rgb = Rgb(red: int, green: int, blue: int)

  /** A touch position in whole pixels. */
  datatype Point = Point(x: int, y: int)

  /** The touch events the screens react to; everything else is `OtherEvent`. */
  datatype Event =
    | MouseDown(pos: Point, button: int)
    | MouseMotion(pos: Point)
    | MouseUp(pos: Point, button: int)
    | OtherEvent

  /** An axis-aligned rectangle with pygame's half-open hit test. */
  datatype Rect = Rect(x: int, y: int, w: int, h: int) {
    predicate Contains(p: Point) {
      x <= p.x < x + w && y <= p.y < y + h
    }
  }

  /** The rectangle returned by `draw_back_button`. */
  const BackRect: Rect := Rect(BackBtnMargin, BackBtnMargin, BackBtnSize, BackBtnSize)

  /** Python's `int()` on a float: truncation toward zero. */
  function Trunc(v: real): (r: int)
    ensures 0.0 <= v ==> r as real <= v < r as real + 1.0
    ensures v < 0.0 ==> r as real - 1.0 < v <= r as real
  {
    if v >= 0.0 then v.Floor else -((-v).Floor)
  }

  function Abs(v: int): (r: int)
    ensures r >= 0 && (r == v || r == -v)
  {
    if v < 0 then -v else v
  }

  function Max(a: int, b: int): (r: int)
    ensures r >= a && r >= b && (r == a || r == b)
  {
    if a >= b then a else b
  }

  function Min(a: int, b: int): (r: int)
    ensures r <= a && r <= b && (r == a || r == b)
  {
    if a <= b then a else b
  }

  /** Squared Euclidean distance: every `hypot(dx, dy) < d` test of the
      source is stated as `SqDist < d * d` for a nonnegative `d`. */
  function SqDist(x1: real, y1: real, x2: real, y2: real): (r: real)
    ensures r >= 0.0
  {
    (x1 - x2) * (x1 - x2) + (y1 - y2) * (y1 - y2)
  }

  /** `r` is `s` with some elements left out: what remains keeps its
      order. */
  ghost predicate Subsequence<T>(r: seq<T>, s: seq<T>)
    decreases |s|
  {
    if r == [] then true
    else if s == [] then false
    else (r[0] == s[0] && Subsequence(r[1..], s[1..])) || Subsequence(r, s[1..])
  }

  /** An offset whose square is below (at most) the square of `r` is within
      `r`, strictly (or not). */
  lemma SquareBound(d: int, r: int)
    requires r >= 0
    ensures d * d < r * r ==> -r < d < r
    ensures d * d <= r * r ==> -r <= d <= r
  {
    if d > r {
      MulMore(d, r);
    } else if d < -r {
      MulMore(-d, r);
    } else if d == r || d == -r {
      assert d * d == r * r;
    }
  }

  /** Squaring is strictly increasing on the naturals. */
  lemma MulMore(d: int, r: int)
    requires 0 <= r < d
    ensures d * d > r * r
  {
    assert d * d > d * r;
    assert d * r >= r * r;
  }

  /** A point strictly inside the circle of radius `r` about a centre lies
      strictly within `r` of it on each axis. */
  lemma DiscBound(dx: int, dy: int, r: int)
    requires r >= 0
    ensures dx * dx + dy * dy < r * r ==> -r < dx < r && -r < dy < r
  {
    assert dx * dx >= 0 && dy * dy >= 0;
    SquareBound(dx, r);
    SquareBound(dy, r);
  }

  /** A point on or inside the circle of radius `r` about a centre lies
      within `r` of it on each axis. */
  lemma DiscBoundAtMost(dx: int, dy: int, r: int)
    requires r >= 0
    ensures dx * dx + dy * dy <= r * r ==> -r <= dx <= r && -r <= dy <= r
  {
    assert dx * dx >= 0 && dy * dy >= 0;
    SquareBound(dx, r);
    SquareBound(dy, r);
  }

  /** `DiscBound` over the reals. */
  lemma DiscBoundReal(dx: real, dy: real, r: real)
    requires r >= 0.0
    ensures dx * dx + dy * dy < r * r ==> -r < dx < r && -r < dy < r
  {
    assert dx * dx >= 0.0 && dy * dy >= 0.0;
    if dx >= r {
      assert dx * dx >= dx * r >= r * r;
    } else if dx <= -r {
      assert (-dx) * (-dx) >= (-dx) * r >= r * r;
    }
    if dy >= r {
      assert dy * dy >= dy * r >= r * r;
    } else if dy <= -r {
      assert (-dy) * (-dy) >= (-dy) * r >= r * r;
    }
  }

  /** The elements of `s` that satisfy `keep`, in order: the list
      comprehension `[p for p in s if keep(p)]`. Every element meeting
      `keep` stays as often as it occurs in `s`, every other goes, and the
      order is kept. */
  function Filter<T>(s: seq<T>, keep: T -> bool): (r: seq<T>)
    ensures |r| <= |s|
    ensures forall t :: t in r ==> t in s && keep(t)
    ensures forall t :: t in s && keep(t) ==> t in r
    ensures forall t {:trigger multiset(r)[t]} :: t in s ==> multiset(r)[t] == if keep(t) then multiset(s)[t] else 0
    ensures Subsequence(r, s)
  {
    if s == [] then []
    else
      var rest := Filter(s[1..], keep);
      var r := (if keep(s[0]) then [s[0]] else []) + rest;
      assert s == [s[0]] + s[1..];
      forall t | t in s ensures multiset(r)[t] == if keep(t) then multiset(s)[t] else 0 {
        assert multiset(s)[t] == multiset([s[0]])[t] + multiset(s[1..])[t];
        assert multiset(r)[t] == multiset(if keep(s[0]) then [s[0]] else [])[t] + multiset(rest)[t];
        if t !in s[1..] {
          assert t !in rest;
        }
      }
      assert Subsequence(r, s) by {
        assert Subsequence(rest, s[1..]);
        if keep(s[0]) {
          assert r == [s[0]] + rest;
          assert r[0] == s[0] && r[1..] == rest;
        } else {
          assert r == rest;
        }
      }
      r
  }

  /** `[f(p) for p in s]`. */
  function Map<T, U>(s: seq<T>, f: T -> U): (r: seq<U>)
    ensures |r| == |s| && forall k :: 0 <= k < |s| ==> r[k] == f(s[k])
  {
    seq(|s|, k requires 0 <= k < |s| => f(s[k]))
  }

  /** The time elapsed over frames of lengths `dts`. */
  function Sum(dts: seq<real>): real
    decreases |dts|
  {
    if dts == [] then 0.0 else dts[0] + Sum(dts[1..])
  }

  /** Frames never have negative length, so elapsed time is never
      negative. */
  lemma {:induction false} SumNonnegative(dts: seq<real>)
    requires forall i :: 0 <= i < |dts| ==> dts[i] >= 0.0
    ensures Sum(dts) >= 0.0
    decreases |dts|
  {
    if dts != [] {
      SumNonnegative(dts[1..]);
    }
  }

  /** The first `k` values of a supplied sequence of random draws. */
  function Draws<T>(k: nat, draw: nat -> T): (r: seq<T>)
    ensures |r| == k && forall j :: 0 <= j < k ==> r[j] == draw(j)
  {
    seq(k, j requires 0 <= j => draw(j))
  }
}
