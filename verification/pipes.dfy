/**
 * Pipe pairs: how create_pipe builds one, how a playing frame moves every pipe
 * left and drops the ones that left the screen, and the list removal the
 * game loop uses for that.
 */
module Pipes {
  import opened Config

  /** An integer rectangle as pygame.Rect stores it: left edge, top edge, width, height. */
  datatype Rect = Rect(x: int, y: int, w: int, h: int) {
    function Left(): int { x }
    function Right(): int { x + w }
    function Top(): int { y }
    function Bottom(): int { y + h }
    /** pygame's centre, for the non-negative sizes the game uses. */
    function CenterX(): int { x + w / 2 }
    function CenterY(): int { y + h / 2 }
  }

  /** One pipe of a pair: its collision rectangle and the height kept for drawing. */
  datatype Half = Half(rect: Rect, height: int)

  /** A pipe pair. The two rectangles are moved separately, so each keeps its own x. */
  datatype Pipe = Pipe(top: Half, bottom: Half) {
    function X(): int { top.rect.x }
  }

  /** The shape every pipe pair of the game has: shared x, stacked heights, gap in between. */
  predicate WellFormed(p: Pipe) {
    && p.top.rect == Rect(p.X(), 0, PIPE_WIDTH, p.top.height)
    && p.bottom.rect == Rect(p.X(), p.top.height + PIPE_GAP, PIPE_WIDTH, p.bottom.height)
    && p.top.height + PIPE_GAP + p.bottom.height == WINDOW_HEIGHT
    && p.top.height >= MIN_PIPE_HEIGHT && p.bottom.height >= MIN_PIPE_HEIGHT
  }

  /** create_pipe, with the random gap centre as a parameter. */
  function CreatePipe(gapY: int): (p: Pipe)
    ensures p.top.height + PIPE_GAP + p.bottom.height == WINDOW_HEIGHT
    ensures p.top.rect.Top() == 0 && p.bottom.rect.Bottom() == WINDOW_HEIGHT
    ensures p.bottom.rect.Top() - p.top.rect.Bottom() == PIPE_GAP
    ensures p.top.rect.Bottom() + PIPE_GAP / 2 == gapY
    ensures p.top.rect.Left() == p.bottom.rect.Left() == WINDOW_WIDTH
    ensures p.top.rect.Right() == p.bottom.rect.Right() == WINDOW_WIDTH + PIPE_WIDTH
    ensures GAP_Y_MIN <= gapY <= GAP_Y_MAX ==> WellFormed(p)
  {
    var topHeight := gapY - PIPE_GAP / 2;
    var bottomHeight := WINDOW_HEIGHT - (gapY + PIPE_GAP / 2);
    Pipe(Half(Rect(WINDOW_WIDTH, 0, PIPE_WIDTH, topHeight), topHeight),
         Half(Rect(WINDOW_WIDTH, gapY + PIPE_GAP / 2, PIPE_WIDTH, bottomHeight), bottomHeight))
  }

  /** One frame of motion: both rectangles move left by the pipe speed. */
  function Moved(p: Pipe): (q: Pipe)
    ensures q.top.rect.x == p.top.rect.x - PIPE_SPEED
    ensures q.bottom.rect.x == p.bottom.rect.x - PIPE_SPEED
    ensures q.top.height == p.top.height && q.bottom.height == p.bottom.height
    ensures q.top.rect == p.top.rect.(x := q.top.rect.x) && q.bottom.rect == p.bottom.rect.(x := q.bottom.rect.x)
    ensures WellFormed(p) ==> WellFormed(q)
  {
    Pipe(p.top.(rect := p.top.rect.(x := p.top.rect.x - PIPE_SPEED)),
         p.bottom.(rect := p.bottom.rect.(x := p.bottom.rect.x - PIPE_SPEED)))
  }

  /** The removal test of the game loop: the top rectangle's right edge is left of the screen. */
  predicate OffScreen(p: Pipe) {
    p.top.rect.Right() < 0
  }

  /** The pipe list after one frame: every pipe moved, those now off screen dropped, order kept. */
  function Scrolled(ps: seq<Pipe>): (r: seq<Pipe>)
    ensures |r| <= |ps|
    ensures forall k :: 0 <= k < |r| ==> !OffScreen(r[k])
  {
    if ps == [] then []
    else
      var q := Moved(ps[|ps| - 1]);
      Scrolled(ps[..|ps| - 1]) + (if OffScreen(q) then [] else [q])
  }

  /** How many pipes of the list leave the screen in the coming frame. */
  function Exits(ps: seq<Pipe>): nat {
    if ps == [] then 0
    else Exits(ps[..|ps| - 1]) + (if OffScreen(Moved(ps[|ps| - 1])) then 1 else 0)
  }

  /** Every pipe leaves by exactly one way: it survives the scroll or it is counted as an exit. */
  lemma {:induction false} ScrolledCount(ps: seq<Pipe>)
    ensures |Scrolled(ps)| + Exits(ps) == |ps|
  {
    if ps != [] {
      ScrolledCount(ps[..|ps| - 1]);
    }
  }

  /** The survivors are exactly the moved pipes that are still on screen. */
  lemma {:induction false} ScrolledMembers(ps: seq<Pipe>, q: Pipe)
    ensures q in Scrolled(ps) <==> exists k :: 0 <= k < |ps| && q == Moved(ps[k]) && !OffScreen(q)
  {
    if ps != [] {
      var init := ps[..|ps| - 1];
      ScrolledMembers(init, q);
      if exists k :: 0 <= k < |ps| && q == Moved(ps[k]) && !OffScreen(q) {
        var k :| 0 <= k < |ps| && q == Moved(ps[k]) && !OffScreen(q);
        if k < |init| {
          assert init[k] == ps[k];
        }
      }
      if q in Scrolled(init) {
        var k :| 0 <= k < |init| && q == Moved(init[k]) && !OffScreen(q);
        assert ps[k] == init[k];
      }
    }
  }

  /** Pipes in arrival order: each one further right than every older one. */
  predicate Increasing(ps: seq<Pipe>) {
    forall i, j :: 0 <= i < j < |ps| ==> ps[i].X() < ps[j].X()
  }

  /** What holds of the pipe list between frames. */
  predicate PipesValid(ps: seq<Pipe>) {
    && (forall k :: 0 <= k < |ps| ==>
          WellFormed(ps[k]) && !OffScreen(ps[k]) && ps[k].X() + PIPE_SPEED <= WINDOW_WIDTH)
    && Increasing(ps)
  }

  /** Scrolling well-formed pipes in arrival order, none right of the spawn point, gives a valid list. */
  lemma {:induction false} ScrolledValid(ps: seq<Pipe>)
    requires forall k :: 0 <= k < |ps| ==> WellFormed(ps[k]) && ps[k].X() <= WINDOW_WIDTH
    requires Increasing(ps)
    ensures PipesValid(Scrolled(ps))
  {
    if ps != [] {
      var init := ps[..|ps| - 1];
      var last := ps[|ps| - 1];
      ScrolledValid(init);
      var q := Moved(last);
      if !OffScreen(q) {
        var r := Scrolled(init);
        forall i | 0 <= i < |r|
          ensures r[i].X() < q.X()
        {
          ScrolledMembers(init, r[i]);
          var k :| 0 <= k < |init| && r[i] == Moved(init[k]) && !OffScreen(r[i]);
          assert init[k] == ps[k];
        }
        assert Scrolled(ps) == r + [q];
      }
    }
  }

  /** Appending one pipe and scrolling scrolls the old list and then the new pipe. */
  lemma ScrolledSnoc(ps: seq<Pipe>, p: Pipe)
    ensures Scrolled(ps + [p]) == Scrolled(ps) + (if OffScreen(Moved(p)) then [] else [Moved(p)])
    ensures Exits(ps + [p]) == Exits(ps) + (if OffScreen(Moved(p)) then 1 else 0)
  {
  }

  /** list.remove: drop the first element equal to v, which must be present (Python raises otherwise). */
  function RemoveFirst(s: seq<Pipe>, v: Pipe): (r: seq<Pipe>)
    requires v in s
    ensures |r| == |s| - 1
    ensures multiset(r) == multiset(s) - multiset{v}
  {
    if s[0] == v then
      assert s == [s[0]] + s[1..];
      s[1..]
    else
      assert s == [s[0]] + s[1..];
      [s[0]] + RemoveFirst(s[1..], v)
  }

  /** Removing by value removes the element at index j when no earlier element equals it. */
  lemma {:induction false} RemoveFirstAt(s: seq<Pipe>, j: nat, v: Pipe)
    requires j < |s| && s[j] == v
    requires forall k :: 0 <= k < j ==> s[k] != v
    ensures RemoveFirst(s, v) == s[..j] + s[j + 1..]
  {
    if j > 0 {
      assert s[1..][j - 1] == v;
      RemoveFirstAt(s[1..], j - 1, v);
      assert s[..j] == [s[0]] + s[1..][..j - 1];
      assert s[j + 1..] == s[1..][j..];
    }
  }
}
