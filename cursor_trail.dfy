/**
 * The custom cursor's trail: a fixed pool of twenty particle elements used
 * as a ring buffer. Each animation frame lights the particle at the write
 * index, fades the one written on the previous frame and advances the
 * index. Mouse moves are accepted at most once every 8 ms.
 */
module CursorTrail {
  import opened Arithmetic

  /** Size of the particle pool. */
  const TrailParticleCount: nat := 20
  /** Minimum milliseconds between two accepted mouse moves. */
  const MinMoveInterval: real := 8.0
  /** Cursor scale, in percent, over an interactive element and elsewhere. */
  const HoverScalePercent: int := 150
  const RestScalePercent: int := 100

  /** The style of one pooled particle: position, opacity and scale (percent). */
  datatype Particle = Particle(left: real, top: real, opacity: int, scalePercent: int)

  /** A particle as first rendered: at the origin, transparent, unscaled. */
  const Hidden: Particle := Particle(0.0, 0.0, 0, 100)

  /** A freshly written particle: at the cursor, fully opaque, full size. */
  function Lit(x: real, y: real): Particle
  {
    Particle(x, y, 1, 100)
  }

  /** A particle faded out where it stands, shrunk to 30%. */
  function Faded(p: Particle): Particle
  {
    p.(opacity := 0, scalePercent := 30)
  }

  /** The pool after one frame that writes slot `i` at cursor position (x, y). */
  function Frame(pool: seq<Particle>, i: nat, x: real, y: real): (r: seq<Particle>)
    requires i < |pool|
    ensures |r| == |pool|
    ensures |pool| >= 2 ==> r[i] == Lit(x, y)
    ensures |pool| >= 2 ==> r[PrevIndex(i, |pool|)] == Faded(pool[PrevIndex(i, |pool|)])
    ensures forall j :: 0 <= j < |pool| && j != i && j != PrevIndex(i, |pool|) ==> r[j] == pool[j]
  {
    var written := pool[i := Lit(x, y)];
    var p := PrevIndex(i, |pool|);
    written[p := Faded(written[p])]
  }

  /** No particle other than slot `k` has a non-zero target opacity. */
  predicate DarkExcept(pool: seq<Particle>, k: nat)
  {
    forall j :: 0 <= j < |pool| && j != k ==> pool[j].opacity == 0
  }

  /** If only the previous slot may be lit, then after a frame only the slot
      just written is lit. */
  lemma FrameKeepsOneLit(pool: seq<Particle>, i: nat, x: real, y: real)
    requires 2 <= |pool| && i < |pool|
    requires DarkExcept(pool, PrevIndex(i, |pool|))
    ensures DarkExcept(Frame(pool, i, x, y), i)
    ensures Frame(pool, i, x, y)[i].opacity == 1
  {
  }

  /** The pool and write index after a run of frames, one per cursor position. */
  function Frames(pool: seq<Particle>, i: nat, moves: seq<(real, real)>): (r: (seq<Particle>, nat))
    requires i < |pool|
    ensures |r.0| == |pool| && r.1 < |pool|
    decreases |moves|
  {
    if moves == [] then (pool, i)
    else Frames(Frame(pool, i, moves[0].0, moves[0].1), NextIndex(i, |pool|), moves[1..])
  }

  /** Starting with every particle transparent, after any number of frames at
      most one particle is set to opacity 1: the one written last, at the last
      cursor position. Every other particle is set to opacity 0. */
  lemma {:induction false} FramesLeaveOneLit(pool: seq<Particle>, i: nat, moves: seq<(real, real)>)
    requires 2 <= |pool| && i < |pool|
    requires DarkExcept(pool, PrevIndex(i, |pool|))
    ensures var (after, k) := Frames(pool, i, moves);
      DarkExcept(after, PrevIndex(k, |pool|))
      && (moves != [] ==> after[PrevIndex(k, |pool|)] == Lit(moves[|moves| - 1].0, moves[|moves| - 1].1))
    decreases |moves|
  {
    if moves != [] {
      var next := Frame(pool, i, moves[0].0, moves[0].1);
      var j := NextIndex(i, |pool|);
      FrameKeepsOneLit(pool, i, moves[0].0, moves[0].1);
      assert PrevIndex(j, |pool|) == i;
      FramesLeaveOneLit(next, j, moves[1..]);
      if moves[1..] == [] {
        assert Frames(next, j, moves[1..]) == (next, j);
      }
    }
  }

  /** The trail component's mutable references. */
  class Trail {
    const pool: array<Particle>
    var trailIndex: nat
    var mouseX: real
    var mouseY: real
    var lastX: real
    var lastY: real
    var lastUpdateTime: real
    var isHovering: bool

    ghost predicate Valid()
      reads this, pool
    {
      pool.Length == TrailParticleCount && trailIndex < pool.Length
      && DarkExcept(pool[..], PrevIndex(trailIndex, pool.Length))
    }

    /** Mount: every particle hidden, the cursor off screen at (-100, -100). */
    constructor ()
      ensures Valid() && fresh(pool)
      ensures pool[..] == seq(TrailParticleCount, _ => Hidden) && trailIndex == 0
      ensures mouseX == -100.0 && mouseY == -100.0 && lastX == -100.0 && lastY == -100.0
      ensures lastUpdateTime == 0.0 && !isHovering
    {
      pool := new Particle[TrailParticleCount](_ => Hidden);
      trailIndex := 0;
      mouseX, mouseY := -100.0, -100.0;
      lastX, lastY := -100.0, -100.0;
      lastUpdateTime := 0.0;
      isHovering := false;
    }

    /** A mouse move at time `now`: stored only if at least 8 ms have passed
        since the last stored one. */
    method HandleMouseMove(now: real, clientX: real, clientY: real)
      modifies this`mouseX, this`mouseY, this`lastUpdateTime
      ensures now - old(lastUpdateTime) < MinMoveInterval ==>
        mouseX == old(mouseX) && mouseY == old(mouseY) && lastUpdateTime == old(lastUpdateTime)
      ensures now - old(lastUpdateTime) >= MinMoveInterval ==>
        mouseX == clientX && mouseY == clientY && lastUpdateTime == now
    {
      if now - lastUpdateTime < MinMoveInterval {
        return;
      }
      lastUpdateTime := now;
      mouseX, mouseY := clientX, clientY;
    }

    /** A pointer-over event: whether the target is inside an interactive element. */
    method HandleMouseOver(interactive: bool)
      modifies this`isHovering
      ensures isHovering == interactive
    {
      isHovering := interactive;
    }

    /** Scale of the main cursor, in percent. */
    function CursorScale(): (s: int)
      reads this
      ensures s == HoverScalePercent <==> isHovering
      ensures s == RestScalePercent <==> !isHovering
    {
      if isHovering then HoverScalePercent else RestScalePercent
    }

    /** One animation frame with the smoothed cursor position (newX, newY). */
    method Animate(newX: real, newY: real)
      requires Valid()
      modifies this`trailIndex, this`lastX, this`lastY, pool
      ensures Valid()
      ensures lastX == newX && lastY == newY
      ensures pool[..] == Frame(old(pool[..]), old(trailIndex), newX, newY)
      ensures trailIndex == NextIndex(old(trailIndex), pool.Length)
      ensures pool[PrevIndex(trailIndex, pool.Length)].opacity == 1
    {
      lastX, lastY := newX, newY;
      var i := trailIndex;
      ghost var before := pool[..];
      pool[i] := Lit(newX, newY);
      var p := (i + pool.Length - 1) % pool.Length;
      assert p == PrevIndex(i, pool.Length);
      pool[p] := pool[p].(opacity := 0, scalePercent := 30);
      assert pool[..] == Frame(before, i, newX, newY);
      FrameKeepsOneLit(before, i, newX, newY);
      trailIndex := (i + 1) % pool.Length;
      assert trailIndex == NextIndex(i, pool.Length);
    }
  }
}
