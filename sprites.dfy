/** The three sprite kinds of the game (blocks, the player, bullets) and the
    per-frame update rule of each. */
module Sprites {
  import opened Geometry

  const ScreenWidth := 1200
  const ScreenHeight := 800
  /** How far a bullet climbs in one frame. */
  const BulletSpeed := 3
  /** Block velocities are drawn from [-MaxSpeed, MaxSpeed]. */
  const MaxSpeed := 3

  function Abs(n: int): (r: int) { if n < 0 then -n else n }

  /** The state of a block as a value: its rectangle, its velocity and the
      box it bounces inside. */
  datatype Motion = Motion(rect: Rect, changeX: int, changeY: int,
                           leftBoundary: int, topBoundary: int,
                           rightBoundary: int, bottomBoundary: int)

  /** The block touches or passes its left or right boundary. */
  predicate AtSide(m: Motion) {
    m.rect.Right() > m.rightBoundary || m.rect.Left() <= m.leftBoundary
  }

  /** The block touches or passes its top or bottom boundary. */
  predicate AtEnd(m: Motion) {
    m.rect.Bottom() >= m.bottomBoundary || m.rect.Top() <= m.topBoundary
  }

  /** One frame of Block.update: move by the velocity, then reverse each
      velocity component whose boundary pair the moved block touches. */
  function BlockStep(m: Motion): (r: Motion)
    ensures r.rect.Left() == m.rect.Left() + m.changeX
    ensures r.rect.Top() == m.rect.Top() + m.changeY
    ensures r.rect.w == m.rect.w && r.rect.h == m.rect.h
    ensures r.leftBoundary == m.leftBoundary && r.rightBoundary == m.rightBoundary
    ensures r.topBoundary == m.topBoundary && r.bottomBoundary == m.bottomBoundary
    ensures AtSide(r) ==> r.changeX == -m.changeX
    ensures !AtSide(r) ==> r.changeX == m.changeX
    ensures AtEnd(r) ==> r.changeY == -m.changeY
    ensures !AtEnd(r) ==> r.changeY == m.changeY
    ensures Abs(r.changeX) == Abs(m.changeX) && Abs(r.changeY) == Abs(m.changeY)
  {
    var moved := m.(rect := Rect(m.rect.x + m.changeX, m.rect.y + m.changeY, m.rect.w, m.rect.h));
    moved.(changeX := if AtSide(moved) then -m.changeX else m.changeX,
           changeY := if AtEnd(moved) then -m.changeY else m.changeY)
  }

  /** The state after n frames. */
  function Bounced(m: Motion, n: nat): (r: Motion)
    decreases n
  {
    if n == 0 then m else Bounced(BlockStep(m), n - 1)
  }

  /** What every block of the game satisfies: it bounces inside the screen
      and each velocity component is in [-3, 3]. */
  predicate Roaming(m: Motion) {
    m.leftBoundary == 0 && m.topBoundary == 0 &&
    m.rightBoundary == ScreenWidth && m.bottomBoundary == ScreenHeight &&
    -MaxSpeed <= m.changeX <= MaxSpeed && -MaxSpeed <= m.changeY <= MaxSpeed
  }

  /** However many frames pass, a block keeps its size, its boundaries and
      the magnitude of each velocity component, so its velocity stays in
      [-3, 3]. */
  lemma {:induction false} RoamingForever(m: Motion, n: nat)
    requires Roaming(m)
    ensures var r := Bounced(m, n);
      Roaming(r) && r.rect.w == m.rect.w && r.rect.h == m.rect.h &&
      Abs(r.changeX) == Abs(m.changeX) && Abs(r.changeY) == Abs(m.changeY)
    decreases n
  {
    if n > 0 {
      RoamingForever(BlockStep(m), n - 1);
    }
  }

  /** The block is within one frame's displacement (3 units) of its
      boundaries, and so is the place its current velocity takes it next. */
  predicate Contained(m: Motion) {
    var r := m.rect;
    r.Left() >= m.leftBoundary - MaxSpeed && r.Left() + m.changeX >= m.leftBoundary - MaxSpeed &&
    r.Right() <= m.rightBoundary + MaxSpeed && r.Right() + m.changeX <= m.rightBoundary + MaxSpeed &&
    r.Top() >= m.topBoundary - MaxSpeed && r.Top() + m.changeY >= m.topBoundary - MaxSpeed &&
    r.Bottom() <= m.bottomBoundary + MaxSpeed && r.Bottom() + m.changeY <= m.bottomBoundary + MaxSpeed
  }

  /** One frame keeps a roaming block contained. */
  lemma ContainedStep(m: Motion)
    requires Roaming(m) && Contained(m)
    ensures Contained(BlockStep(m))
  {
  }

  /** Reflection never lets a contained block escape: after any number of
      frames it is still within 3 units of the screen on every side. */
  lemma {:induction false} ContainedForever(m: Motion, n: nat)
    requires Roaming(m) && Contained(m)
    ensures Contained(Bounced(m, n))
    ensures var r := Bounced(m, n).rect;
      -MaxSpeed <= r.Left() && r.Right() <= ScreenWidth + MaxSpeed &&
      -MaxSpeed <= r.Top() && r.Bottom() <= ScreenHeight + MaxSpeed
    decreases n
  {
    if n > 0 {
      ContainedStep(m);
      ContainedForever(BlockStep(m), n - 1);
    }
  }

  /** The block as the setup loop creates it from its random draws. */
  function Spawned(x: int, y: int, changeX: int, changeY: int, w: nat, h: nat): (m: Motion) {
    Motion(Rect(x, y, w, h), changeX, changeY, 0, 0, ScreenWidth, ScreenHeight)
  }

  /** Any block drawn from the setup ranges (x in [25, 1175), y in [0, 650),
      velocity in [-3, 3]) roams the screen, and it is contained when its
      image is at most 26 wide and 151 high. */
  lemma SpawnedRoaming(x: int, y: int, changeX: int, changeY: int, w: nat, h: nat)
    requires 25 <= x < ScreenWidth - 25 && 0 <= y < ScreenHeight - 150
    requires -MaxSpeed <= changeX <= MaxSpeed && -MaxSpeed <= changeY <= MaxSpeed
    ensures Roaming(Spawned(x, y, changeX, changeY, w, h))
    ensures w <= 26 && h <= 151 ==> Contained(Spawned(x, y, changeX, changeY, w, h))
  {
  }

  /** A target block (main.py Block). */
  class Block {
    var rect: Rect
    var leftBoundary: int
    var rightBoundary: int
    var topBoundary: int
    var bottomBoundary: int
    var changeX: int
    var changeY: int

    /** The block's fields as one value. */
    function State(): (m: Motion)
      reads this
    {
      Motion(rect, changeX, changeY, leftBoundary, topBoundary, rightBoundary, bottomBoundary)
    }

    /** A block whose image is w by h: placed at the origin, standing still,
        with all boundaries at 0. */
    constructor (w: nat, h: nat)
      ensures State() == Motion(Rect(0, 0, w, h), 0, 0, 0, 0, 0, 0)
    {
      rect := Rect(0, 0, w, h);
      leftBoundary, rightBoundary, topBoundary, bottomBoundary := 0, 0, 0, 0;
      changeX, changeY := 0, 0;
    }

    /** Block.update. */
    method Update()
      modifies this
      ensures State() == BlockStep(old(State()))
    {
      rect := rect.(x := rect.x + changeX);
      rect := rect.(y := rect.y + changeY);
      if rect.Right() > rightBoundary || rect.Left() <= leftBoundary {
        changeX := -changeX;
      }
      if rect.Bottom() >= bottomBoundary || rect.Top() <= topBoundary {
        changeY := -changeY;
      }
    }
  }

  /** The player's ship (main.py Player). */
  class Player {
    var rect: Rect

    /** A player whose image is w by h, at the origin. */
    constructor (w: nat, h: nat)
      ensures rect == Rect(0, 0, w, h)
    {
      rect := Rect(0, 0, w, h);
    }

    /** Player.update: the ship's left edge follows the pointer's x. */
    method Update(pointerX: int)
      modifies this
      ensures rect.Left() == pointerX
      ensures rect.Top() == old(rect.Top()) && rect.w == old(rect.w) && rect.h == old(rect.h)
    {
      rect := rect.(x := pointerX);
    }
  }

  /** A projectile (main.py Bullet). */
  class Bullet {
    var rect: Rect

    /** A bullet whose image is w by h, at the origin. */
    constructor (w: nat, h: nat)
      ensures rect == Rect(0, 0, w, h)
    {
      rect := Rect(0, 0, w, h);
    }

    /** Bullet.update: climb 3 units straight up. */
    method Update()
      modifies this
      ensures rect.Top() == old(rect.Top()) - BulletSpeed
      ensures rect.Left() == old(rect.Left()) && rect.w == old(rect.w) && rect.h == old(rect.h)
    {
      rect := rect.(y := rect.y - BulletSpeed);
    }
  }
}
