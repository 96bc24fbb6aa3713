/**
 * Collision detection: the bird's sprite rectangle, the approximate circle
 * inside it, and the test of that circle against every pipe pair and
 * against the top and bottom of the screen.
 *
 * The radius is a real number; the game computes it in floating point, so
 * a comparison that is exactly an equality here may come out either way there.
 */
module Collision {
  import opened Config
  import opened Pipes

  /** Python's int() on a float: truncation toward zero. */
  function Trunc(y: real): (n: int)
    ensures 0.0 <= y ==> n as real <= y < n as real + 1.0
    ensures y < 0.0 ==> n as real - 1.0 < y <= n as real
  {
    if y >= 0.0 then y.Floor else -((-y).Floor)
  }

  /**
   * The rectangle of the (rotated) bird sprite of size w x h, centred on the
   * bird's fixed x and on int(bird_y), as get_rect(center=...) places it.
   */
  function BirdRect(birdY: real, w: nat, h: nat): (r: Rect)
    ensures r.w == w && r.h == h
    ensures r.CenterX() == BIRD_X && r.CenterY() == Trunc(birdY)
    ensures r.Left() <= BIRD_X <= r.Right() && r.Top() <= Trunc(birdY) <= r.Bottom()
  {
    Rect(BIRD_X - w / 2, Trunc(birdY) - h / 2, w, h)
  }

  datatype Circle = Circle(cx: int, cy: int, radius: real)

  /** get_collision_circle: a circle on the sprite's centre, smaller than the sprite. */
  function CollisionCircle(r: Rect): (c: Circle)
    ensures c.cx == r.CenterX() && c.cy == r.CenterY()
    ensures 0 <= r.w && 0 <= r.h ==> 0.0 <= c.radius
    ensures 2 <= r.w && 2 <= r.h ==>
      && r.Left() as real <= c.cx as real - c.radius
      && c.cx as real + c.radius <= r.Right() as real
      && r.Top() as real <= c.cy as real - c.radius
      && c.cy as real + c.radius <= r.Bottom() as real
  {
    Circle(r.CenterX(), r.CenterY(), Min(r.w, r.h) as real * BIRD_COLLISION_MARGIN / 2.0)
  }

  /** The test against a top pipe: the circle overlaps it horizontally and reaches above its bottom. */
  predicate HitsTop(c: Circle, r: Rect) {
    && c.cx as real + c.radius > r.Left() as real
    && c.cx as real - c.radius < r.Right() as real
    && c.cy as real - c.radius < r.Bottom() as real
  }

  /** The test against a bottom pipe: the circle overlaps it horizontally and reaches below its top. */
  predicate HitsBottom(c: Circle, r: Rect) {
    && c.cx as real + c.radius > r.Left() as real
    && c.cx as real - c.radius < r.Right() as real
    && c.cy as real + c.radius > r.Top() as real
  }

  predicate PipeHit(c: Circle, p: Pipe) {
    HitsTop(c, p.top.rect) || HitsBottom(c, p.bottom.rect)
  }

  /** The circle touches or crosses the top or the bottom of the screen. */
  predicate BoundaryHit(c: Circle) {
    c.cy as real - c.radius <= 0.0 || c.cy as real + c.radius >= WINDOW_HEIGHT as real
  }

  /** What check_collision decides: a boundary hit or a hit on some pipe pair. */
  predicate Collides(c: Circle, ps: seq<Pipe>) {
    BoundaryHit(c) || exists k :: 0 <= k < |ps| && PipeHit(c, ps[k])
  }

  /** check_collision: scan the pipes oldest first and stop at the first hit; then test the boundaries. */
  method CheckCollision(bird: Rect, pipes: seq<Pipe>) returns (hit: bool)
    ensures hit <==> Collides(CollisionCircle(bird), pipes)
    ensures BoundaryHit(CollisionCircle(bird)) ==> hit
    ensures pipes == [] ==> (hit <==> BoundaryHit(CollisionCircle(bird)))
  {
    var c := CollisionCircle(bird);
    var i := 0;
    while i < |pipes|
      invariant 0 <= i <= |pipes|
      invariant forall k :: 0 <= k < i ==> !PipeHit(c, pipes[k])
    {
      if HitsTop(c, pipes[i].top.rect) {
        return true;
      }
      if HitsBottom(c, pipes[i].bottom.rect) {
        return true;
      }
      i := i + 1;
    }
    hit := BoundaryHit(c);
  }

  /** The verdict depends only on which pipes there are, not on their order. */
  lemma CollidesPermutation(c: Circle, a: seq<Pipe>, b: seq<Pipe>)
    requires multiset(a) == multiset(b)
    ensures Collides(c, a) <==> Collides(c, b)
  {
    forall x: seq<Pipe>, y: seq<Pipe> | multiset(x) == multiset(y) && Collides(c, x)
      ensures Collides(c, y)
    {
      if !BoundaryHit(c) {
        var k :| 0 <= k < |x| && PipeHit(c, x[k]);
        assert x[k] in multiset(y);
        var m :| 0 <= m < |y| && y[m] == x[k];
      }
    }
  }
}
