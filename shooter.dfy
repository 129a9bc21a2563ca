/** The game state and the frame loop of main.py, without drawing, sound,
    or frame pacing. */
module Shooter {
  import opened Geometry
  import opened Groups
  import opened Sprites
  import opened Collisions
  import opened Starfield

  /** Number of blocks created at setup; shooting them all wins. */
  const BlockCount := 50
  /** The player's ship stays on this row. */
  const PlayerRow := ScreenHeight - 100
  /** A bullet leaves the ship this far right of the ship's left edge. */
  const MuzzleOffset := 42

  /** The input events of one frame, as the loop tells them apart. */
  datatype Event = Quit | MouseButtonDown | OtherEvent

  /** How many bullets the events fire. */
  function Clicks(events: seq<Event>): (n: nat)
    ensures n <= |events|
    ensures n == 0 <==> MouseButtonDown !in events
    decreases |events|
  {
    if events == [] then 0
    else
      var front := events[..|events| - 1];
      assert events == front + [events[|events| - 1]];
      Clicks(front) + (if events[|events| - 1] == MouseButtonDown then 1 else 0)
  }

  /** The random draws for one block at setup. */
  datatype Draw = Draw(x: int, y: int, changeX: int, changeY: int)

  /** A draw in the ranges the setup loop uses: x in [25, 1175),
      y in [0, 650), each velocity component in [-3, 3]. */
  predicate InDrawRange(d: Draw) {
    25 <= d.x < ScreenWidth - 25 && 0 <= d.y < ScreenHeight - 150 &&
    -MaxSpeed <= d.changeX < MaxSpeed + 1 && -MaxSpeed <= d.changeY < MaxSpeed + 1
  }

  /** The blocks of a group, as objects. */
  function BlockSet(s: seq<Block>): (r: set<object>) {
    set b | b in s :: b as object
  }

  /** The bullets of a group, as objects. */
  function BulletSet(s: seq<Bullet>): (r: set<object>) {
    set u | u in s :: u as object
  }

  /** The rectangle of each bullet of a group. */
  function BulletRects(s: seq<Bullet>): (aim: map<Bullet, Rect>)
    reads set u | u in s
  {
    map u | u in s :: u.rect
  }

  /** The rectangle of each block of a group. */
  function BlockRects(s: seq<Block>): (at: map<Block, Rect>)
    reads set b | b in s
  {
    map b | b in s :: b.rect
  }

  /** The blocks left by spritecollide are those of the group minus those
      it kills. */
  lemma BlockSetMissed(shot: Rect, live: seq<Block>, at: map<Block, Rect>)
    requires Placed(live, at)
    ensures BlockSet(Missed(shot, live, at)) == BlockSet(live) - BlockSet(Hit(shot, live, at))
  {
    Split(shot, live, at);
  }

  /** Group.remove takes exactly one sprite out of the set of members. */
  lemma BulletSetRemove(s: seq<Bullet>, u: Bullet)
    ensures BulletSet(Remove(s, u)) == BulletSet(s) - {u}
  {
  }

  /** Adding a bullet to a group adds it to the set of members. */
  lemma BulletSetAppend(s: seq<Bullet>, u: Bullet)
    ensures BulletSet(s + [u]) == BulletSet(s) + {u}
  {
    forall o | o in BulletSet(s + [u])
      ensures o in BulletSet(s) + {u}
    {
      var v :| v in s + [u] && o == v as object;
    }
    forall o | o in BulletSet(s) + {u}
      ensures o in BulletSet(s + [u])
    {
      if o != u {
        var v :| v in s && o == v as object;
        assert v in s + [u];
      } else {
        assert u in s + [u];
      }
    }
  }

  /** A bullet sits once in a duplicate-free group, and removing it once or
      twice leaves the sprites around it. */
  lemma ShotOnce(before: seq<Bullet>, u: Bullet, after: seq<Bullet>)
    requires Distinct(before + [u] + after)
    ensures u !in before && u !in after
    ensures Remove(before + [u] + after, u) == before + after
    ensures Remove(before + after, u) == before + after
  {
    var s := before + [u] + after;
    forall k | 0 <= k < |before|
      ensures before[k] != u
    {
      assert s[k] == before[k] && s[|before|] == u;
    }
    forall k | 0 <= k < |after|
      ensures after[k] != u
    {
      assert s[|before| + 1 + k] == after[k] && s[|before|] == u;
    }
    RemoveOnly(before, u, after);
  }

  /** The groups and the score as the collision loop carries them:
      block_list, bullet_list, all_sprites_list and score. */
  datatype Board = Board(blocks: seq<Block>, bullets: seq<Bullet>, members: set<object>, score: int)

  /** The bookkeeping invariant of the groups: each destroyed block scored
      exactly one point, each group holds a sprite at most once, and
      all_sprites_list is exactly the blocks, the bullets and the player. */
  predicate Tallied(g: Board, player: Player) {
    0 <= g.score && g.score + |g.blocks| == BlockCount &&
    Distinct(g.blocks) && Distinct(g.bullets) &&
    g.members == BlockSet(g.blocks) + BulletSet(g.bullets) + {player}
  }

  /** The collision loop body for bullet u, whose rectangle is shot:
      spritecollide kills every block u overlaps, taking it out of
      block_list and all_sprites_list; each kill removes u from bullet_list
      and all_sprites_list and scores one point; then u is removed if it
      has flown above OffscreenTop. */
  function Turn(g: Board, u: Bullet, shot: Rect, at: map<Block, Rect>): (next: Board)
    requires Placed(g.blocks, at)
    ensures next.blocks == Missed(shot, g.blocks, at)
    ensures next.score == g.score + |Hit(shot, g.blocks, at)|
    ensures Distinct(g.bullets) ==>
      (u in next.bullets <==> u in g.bullets && Hit(shot, g.blocks, at) == [] && shot.y >= OffscreenTop)
  {
    var hit := Hit(shot, g.blocks, at);
    var left := Missed(shot, g.blocks, at);
    if hit == [] && shot.y >= OffscreenTop then Board(left, g.bullets, g.members, g.score)
    else Board(left, Remove(g.bullets, u), g.members - BlockSet(hit) - {u}, g.score + |hit|)
  }

  /** One bullet's turn keeps the bookkeeping invariant: the blocks it
      destroys leave both groups and add one point each, and the bullet
      leaves bullet_list and all_sprites_list together. */
  lemma TurnTallied(g: Board, u: Bullet, shot: Rect, at: map<Block, Rect>, player: Player)
    requires Placed(g.blocks, at)
    requires Tallied(g, player) && u in g.bullets
    ensures Tallied(Turn(g, u, shot, at), player)
  {
    Split(shot, g.blocks, at);
    BlockSetMissed(shot, g.blocks, at);
    BulletSetRemove(g.bullets, u);
  }

  /** The collision loop body as the program runs it: spritecollide, then
      the inner loop over the killed blocks, which removes u again and again
      (a no-op after the first time), then the off-screen check. */
  method Shoot(g: Board, u: Bullet, shot: Rect, at: map<Block, Rect>) returns (next: Board)
    requires Placed(g.blocks, at)
    ensures next == Turn(g, u, shot, at)
  {
    var hits := Hit(shot, g.blocks, at);
    var left := Missed(shot, g.blocks, at);
    var flying, members, score := g.bullets, g.members - BlockSet(hits), g.score;
    for j := 0 to |hits|
      invariant score == g.score + j
      invariant flying == if j == 0 then g.bullets else Remove(g.bullets, u)
      invariant members == if j == 0 then g.members - BlockSet(hits) else g.members - BlockSet(hits) - {u}
    {
      flying := Remove(flying, u);
      members := members - {u};
      score := score + 1;
    }
    if shot.y < OffscreenTop {
      flying := Remove(flying, u);
      members := members - {u};
    }
    next := Board(left, flying, members, score);
  }

  /** The collision loop after the first i bullets of the snapshot shots:
      the board is the outcome of the pass over them, followed by the
      bullets not yet handled; base is the score before the pass. */
  predicate Midway(g: Board, shots: seq<Bullet>, i: nat, start: seq<Block>,
                   aim: map<Bullet, Rect>, at: map<Block, Rect>, base: int)
  {
    i <= |shots| && Placed(shots, aim) && Placed(start, at) &&
    Placed(shots[..i], aim) &&
    var r := Resolve(shots[..i], start, aim, at);
    g.bullets == r.bullets + shots[i..] && g.blocks == r.blocks && g.score == base + r.kills
  }

  /** Bullet i of the snapshot sits between the bullets kept so far and
      those not yet handled. */
  lemma Around(kept: seq<Bullet>, shots: seq<Bullet>, i: nat)
    requires i < |shots|
    ensures kept + shots[i..] == kept + [shots[i]] + shots[i + 1..]
  {
    assert shots[i..] == [shots[i]] + shots[i + 1..];
  }

  /** Bullet i's turn advances the loop by one bullet. */
  lemma PassStep(g: Board, shots: seq<Bullet>, i: nat, start: seq<Block>,
                 aim: map<Bullet, Rect>, at: map<Block, Rect>, base: int)
    requires Midway(g, shots, i, start, aim, at, base) && Distinct(g.bullets) && i < |shots|
    ensures Placed(g.blocks, at) && shots[i] in g.bullets
    ensures Midway(Turn(g, shots[i], aim[shots[i]], at), shots, i + 1, start, aim, at, base)
  {
    var u := shots[i];
    var prev := Resolve(shots[..i], start, aim, at);
    ResolveStep(shots, start, aim, at, i);
    Around(prev.bullets, shots, i);
    ShotOnce(prev.bullets, u, shots[i + 1..]);
  }

  /** The collision loop of a frame over the snapshot shots of bullet_list,
      with the rectangles aim and at the sprites have when it starts. */
  method Pass(g0: Board, shots: seq<Bullet>, aim: map<Bullet, Rect>, at: map<Block, Rect>, player: Player)
    returns (g: Board)
    requires Tallied(g0, player) && g0.bullets == shots
    requires Placed(shots, aim) && Placed(g0.blocks, at)
    ensures Tallied(g, player)
    ensures var r := Resolve(shots, g0.blocks, aim, at);
      g.bullets == r.bullets && g.blocks == r.blocks && g.score == g0.score + r.kills
  {
    g := g0;
    for i := 0 to |shots|
      invariant Midway(g, shots, i, g0.blocks, aim, at, g0.score) && Tallied(g, player)
    {
      PassStep(g, shots, i, g0.blocks, aim, at, g0.score);
      TurnTallied(g, shots[i], aim[shots[i]], at, player);
      g := Shoot(g, shots[i], aim[shots[i]], at);
    }
    assert shots[..|shots|] == shots;
  }

  class Game {
    /** block_list */
    var blocks: seq<Block>
    /** bullet_list */
    var bullets: seq<Bullet>
    /** all_sprites_list */
    var allSprites: set<object>
    var score: int
    const player: Player
    /** star_list */
    const stars: array<Star>
    /** Size of the bullet image. */
    const bulletW: nat
    const bulletH: nat

    /** The game's invariant: each destroyed block scored exactly one point,
        each group holds a sprite at most once, all_sprites_list is exactly
        the blocks, the bullets and the player, every block roams the screen
        at a speed of at most 3 per axis, the ship stays on its row and every
        star stays in the field. */
    ghost predicate Valid()
      reads this, player, stars, set b | b in blocks
    {
      Tallied(Board(blocks, bullets, allSprites, score), player) &&
      (forall b :: b in blocks ==> Roaming(b.State())) &&
      player.rect.y == PlayerRow &&
      stars.Length == StarCount &&
      (forall i :: 0 <= i < stars.Length ==> InField(stars[i]))
    }

    /** The setup of main.py: 50 blocks from the given draws, the player on
        its row, no bullets, a zero score, and 2000 stars from the given
        draws. The sizes are those of the sprite images. */
    constructor (draws: seq<Draw>, sky: seq<Star>, blockW: nat, blockH: nat,
                 playerW: nat, playerH: nat, bulletW: nat, bulletH: nat)
      requires |draws| == BlockCount && forall i :: 0 <= i < |draws| ==> InDrawRange(draws[i])
      requires |sky| == StarCount && forall i :: 0 <= i < |sky| ==> Seeded(sky[i])
      ensures Valid()
      ensures score == 0 && bullets == [] && |blocks| == BlockCount
      ensures forall i :: 0 <= i < BlockCount ==>
        fresh(blocks[i]) &&
        blocks[i].State() == Spawned(draws[i].x, draws[i].y, draws[i].changeX, draws[i].changeY, blockW, blockH)
      ensures fresh(player) && player.rect == Rect(0, PlayerRow, playerW, playerH)
      ensures fresh(stars) && stars[..] == sky
      ensures this.bulletW == bulletW && this.bulletH == bulletH
    {
      var made: seq<Block> := [];
      for i := 0 to BlockCount
        invariant |made| == i && Distinct(made)
        invariant forall j :: 0 <= j < i ==>
          fresh(made[j]) &&
          made[j].State() == Spawned(draws[j].x, draws[j].y, draws[j].changeX, draws[j].changeY, blockW, blockH)
      {
        var block := new Block(blockW, blockH);
        block.rect := block.rect.(x := draws[i].x);
        block.rect := block.rect.(y := draws[i].y);
        block.changeX := draws[i].changeX;
        block.changeY := draws[i].changeY;
        block.leftBoundary := 0;
        block.topBoundary := 0;
        block.rightBoundary := ScreenWidth;
        block.bottomBoundary := ScreenHeight;
        DistinctAppend(made, block);
        made := made + [block];
      }
      var ship := new Player(playerW, playerH);
      ship.rect := ship.rect.(y := PlayerRow);
      var field := new Star[StarCount];
      for i := 0 to StarCount
        invariant forall j :: 0 <= j < i ==> field[j] == sky[j]
        modifies field
      {
        field[i] := sky[i];
      }
      blocks := made;
      bullets := [];
      player := ship;
      stars := field;
      score := 0;
      this.bulletW := bulletW;
      this.bulletH := bulletH;
      allSprites := BlockSet(made) + {ship};
      new;
      assert stars[..] == sky;
      forall b | b in blocks
        ensures Roaming(b.State())
      {
        var j :| 0 <= j < |blocks| && blocks[j] == b;
        SpawnedRoaming(draws[j].x, draws[j].y, draws[j].changeX, draws[j].changeY, blockW, blockH);
      }
    }

    /** A click: a new bullet at the ship's muzzle, added to bullet_list
        and to all_sprites_list. */
    method Fire() returns (shot: Bullet)
      requires Valid()
      modifies this
      ensures Valid()
      ensures fresh(shot)
      ensures shot.rect == Rect(player.rect.x + MuzzleOffset, player.rect.y, bulletW, bulletH)
      ensures bullets == old(bullets) + [shot]
      ensures allSprites == old(allSprites) + {shot}
      ensures blocks == old(blocks) && score == old(score)
    {
      shot := new Bullet(bulletW, bulletH);
      shot.rect := shot.rect.(x := player.rect.x + MuzzleOffset);
      shot.rect := shot.rect.(y := player.rect.y);
      DistinctAppend(bullets, shot);
      BulletSetAppend(bullets, shot);
      allSprites := allSprites + {shot};
      bullets := bullets + [shot];
    }

    /** The event loop of a frame: a Quit event asks to stop, and each
        MouseButtonDown fires one bullet. */
    method HandleEvents(events: seq<Event>) returns (quit: bool, ghost fired: seq<Bullet>)
      requires Valid()
      modifies this
      ensures Valid()
      ensures quit <==> Quit in events
      ensures bullets == old(bullets) + fired && |fired| == Clicks(events)
      ensures forall u :: u in fired ==>
        fresh(u) && u.rect == Rect(player.rect.x + MuzzleOffset, PlayerRow, bulletW, bulletH)
      ensures blocks == old(blocks) && score == old(score)
    {
      quit := false;
      fired := [];
      for i := 0 to |events|
        invariant Valid()
        invariant quit <==> Quit in events[..i]
        invariant bullets == old(bullets) + fired && |fired| == Clicks(events[..i])
        invariant forall u :: u in fired ==>
          fresh(u) && u.rect == Rect(player.rect.x + MuzzleOffset, PlayerRow, bulletW, bulletH)
        invariant blocks == old(blocks) && score == old(score)
      {
        assert events[..i + 1] == events[..i] + [events[i]];
        if events[i] == Quit {
          quit := true;
        } else if events[i] == MouseButtonDown {
          var shot := Fire();
          fired := fired + [shot];
        }
      }
      assert events[..|events|] == events;
    }

    /** all_sprites_list.update(): every block bounces, the ship follows
        the pointer and every bullet climbs. */
    method UpdateAll(pointerX: int)
      requires Valid()
      modifies player, set b | b in blocks, set u | u in bullets
      ensures Valid()
      ensures player.rect == old(player.rect).(x := pointerX)
      ensures forall b :: b in blocks ==> b.State() == BlockStep(old(b.State()))
      ensures forall u :: u in bullets ==> u.rect == old(u.rect).(y := old(u.rect.y) - BulletSpeed)
    {
      for i := 0 to |blocks|
        invariant forall j :: 0 <= j < i ==> blocks[j].State() == BlockStep(old(blocks[j].State()))
        invariant forall j :: i <= j < |blocks| ==> blocks[j].State() == old(blocks[j].State())
        invariant player.rect == old(player.rect)
        invariant forall u :: u in bullets ==> u.rect == old(u.rect)
      {
        blocks[i].Update();
      }
      player.Update(pointerX);
      for i := 0 to |bullets|
        invariant forall j :: 0 <= j < i ==> bullets[j].rect == old(bullets[j].rect).(y := old(bullets[j].rect.y) - BulletSpeed)
        invariant forall j :: i <= j < |bullets| ==> bullets[j].rect == old(bullets[j].rect)
        invariant forall b :: b in blocks ==> b.State() == BlockStep(old(b.State()))
        invariant player.rect == old(player.rect).(x := pointerX)
      {
        bullets[i].Update();
      }
    }

    /** The collision step of a frame. No sprite moves during the pass, so
        every rectangle is read once when it starts. */
    method ResolveCollisions()
      requires Valid()
      modifies this`blocks, this`bullets, this`allSprites, this`score
      ensures Valid()
      ensures var r := old(Resolve(bullets, blocks, BulletRects(bullets), BlockRects(blocks)));
        bullets == r.bullets && blocks == r.blocks && score == old(score) + r.kills
    {
      var g := Pass(Board(blocks, bullets, allSprites, score), bullets,
                    BulletRects(bullets), BlockRects(blocks), player);
      blocks, bullets, allSprites, score := g.blocks, g.bullets, g.members, g.score;
    }

    /** The win check of the draw step: the banner is shown instead of the
        sprites exactly when the score is 50, which is exactly when no block
        is left. */
    method WinBannerShown() returns (shown: bool)
      requires Valid()
      ensures shown <==> score == BlockCount
      ensures shown <==> blocks == []
    {
      shown := score == BlockCount;
    }

    /** The starfield step of a frame; xs and ys are the draws each star
        would use if it respawns. */
    method ScrollStars(xs: seq<int>, ys: seq<int>)
      requires Valid()
      requires |xs| == stars.Length && |ys| == stars.Length
      requires forall i :: 0 <= i < |xs| ==> RespawnColumn(xs[i])
      requires forall i :: 0 <= i < |ys| ==> RespawnRow(ys[i])
      modifies stars
      ensures Valid()
      ensures stars[..] == Scrolled(old(stars[..]), xs, ys)
    {
      ScrollAll(stars, xs, ys);
    }

    /** The first half of a frame: the event loop, then every sprite's
        update. aim and at are the rectangles the bullets and blocks have
        afterwards. */
    method Advance(events: seq<Event>, pointerX: int)
      returns (quit: bool, ghost fired: seq<Bullet>,
               ghost aim: map<Bullet, Rect>, ghost at: map<Block, Rect>)
      requires Valid()
      modifies this, player, set b | b in blocks, set u | u in bullets
      ensures Valid()
      ensures quit <==> Quit in events
      ensures bullets == old(bullets) + fired && |fired| == Clicks(events)
      ensures forall u :: u in fired ==> fresh(u)
      ensures blocks == old(blocks) && score == old(score)
      ensures player.rect == old(player.rect).(x := pointerX)
      ensures forall b :: b in blocks ==> b.State() == BlockStep(old(b.State()))
      ensures aim == BulletRects(bullets) && at == BlockRects(blocks)
      ensures forall b :: b in old(blocks) ==> b in at && at[b] == BlockStep(old(b.State())).rect
      ensures forall u :: u in old(bullets) ==>
        u in aim && aim[u] == old(u.rect).(y := old(u.rect.y) - BulletSpeed)
      ensures forall u :: u in fired ==>
        u in aim && aim[u] == Rect(old(player.rect.x) + MuzzleOffset, PlayerRow - BulletSpeed, bulletW, bulletH)
    {
      quit, fired := HandleEvents(events);
      UpdateAll(pointerX);
      aim, at := BulletRects(bullets), BlockRects(blocks);
    }

    /** The second half of a frame: the collision loop, the win check and
        the starfield. Sprites leave the groups but none of them moves. */
    method Settle(xs: seq<int>, ys: seq<int>) returns (won: bool)
      requires Valid()
      requires |xs| == stars.Length && |ys| == stars.Length
      requires forall i :: 0 <= i < |xs| ==> RespawnColumn(xs[i])
      requires forall i :: 0 <= i < |ys| ==> RespawnRow(ys[i])
      modifies this`blocks, this`bullets, this`allSprites, this`score, stars
      ensures Valid()
      ensures var r := old(Resolve(bullets, blocks, BulletRects(bullets), BlockRects(blocks)));
        bullets == r.bullets && blocks == r.blocks && score == old(score) + r.kills
      ensures forall b :: b in blocks ==> b in old(blocks)
      ensures forall u :: u in bullets ==> u in old(bullets)
      ensures won <==> score == BlockCount
      ensures won <==> blocks == []
      ensures stars[..] == Scrolled(old(stars[..]), xs, ys)
    {
      ghost var aim, at := BulletRects(bullets), BlockRects(blocks);
      Accounted(bullets, blocks, aim, at);
      ResolveCollisions();
      won := WinBannerShown();
      ScrollStars(xs, ys);
    }

    /** One iteration of the main loop: events, update, collisions, the win
        check and the starfield. xs and ys are the draws each star would use
        if it respawns this frame. aim and at are the rectangles the bullets
        and blocks have once they have moved, when the collision pass runs. */
    method Step(events: seq<Event>, pointerX: int, xs: seq<int>, ys: seq<int>)
      returns (quit: bool, won: bool, ghost fired: seq<Bullet>,
               ghost aim: map<Bullet, Rect>, ghost at: map<Block, Rect>)
      requires Valid()
      requires |xs| == stars.Length && |ys| == stars.Length
      requires forall i :: 0 <= i < |xs| ==> RespawnColumn(xs[i])
      requires forall i :: 0 <= i < |ys| ==> RespawnRow(ys[i])
      modifies this, player, stars, set b | b in blocks, set u | u in bullets
      ensures Valid()
      ensures quit <==> Quit in events
      ensures |fired| == Clicks(events) && forall u :: u in fired ==> fresh(u)
      ensures Distinct(old(bullets) + fired)
      ensures Placed(old(blocks), at) && Placed(old(bullets) + fired, aim)
      ensures forall b :: b in old(blocks) ==> b in at && at[b] == BlockStep(old(b.State())).rect
      ensures forall u :: u in old(bullets) ==>
        u in aim && aim[u] == old(u.rect).(y := old(u.rect.y) - BulletSpeed)
      ensures forall u :: u in fired ==>
        u in aim && aim[u] == Rect(old(player.rect.x) + MuzzleOffset, PlayerRow - BulletSpeed, bulletW, bulletH)
      ensures var r := Resolve(old(bullets) + fired, old(blocks), aim, at);
        bullets == r.bullets && blocks == r.blocks && score == old(score) + r.kills
      ensures player.rect == old(player.rect).(x := pointerX)
      ensures forall b :: b in blocks ==> b.State() == BlockStep(old(b.State())) && b.rect == at[b]
      ensures forall u :: u in bullets ==> u in aim && u.rect == aim[u]
      ensures old(score) <= score
      ensures won <==> score == BlockCount
      ensures won <==> blocks == []
      ensures stars[..] == Scrolled(old(stars[..]), xs, ys)
    {
      quit, fired, aim, at := Advance(events, pointerX);
      won := Settle(xs, ys);
    }
  }
}
