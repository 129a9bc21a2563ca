/** The collision and scoring pass of one frame. Nothing moves during the
    pass, so it is specified over the rectangles the sprites have when it
    starts: `aim` gives each bullet's rectangle and `at` each block's. */
module Collisions {
  import opened Geometry
  import opened Groups
  import opened Sprites

  /** A bullet whose top is above this row is taken off the screen. */
  const OffscreenTop := -10

  /** Every sprite of the group has a rectangle in the layout. */
  predicate Placed<T>(group: seq<T>, layout: map<T, Rect>) {
    forall i :: 0 <= i < |group| ==> group[i] in layout
  }

  /** The blocks of live that a bullet with rectangle shot overlaps, in
      group order. */
  function Hit(shot: Rect, live: seq<Block>, at: map<Block, Rect>): (r: seq<Block>)
    requires Placed(live, at)
    ensures forall b :: b in r ==> b in live && Overlaps(shot, at[b])
    ensures forall b :: b in live && Overlaps(shot, at[b]) ==> b in r
    decreases |live|
  {
    if live == [] then []
    else
      var b := live[|live| - 1];
      var r := Hit(shot, live[..|live| - 1], at);
      if Overlaps(shot, at[b]) then r + [b] else r
  }

  /** The blocks of live that the bullet does not overlap, in group order:
      those spritecollide leaves alive. */
  function Missed(shot: Rect, live: seq<Block>, at: map<Block, Rect>): (r: seq<Block>)
    requires Placed(live, at)
    ensures forall b :: b in r ==> b in live
    ensures Placed(r, at)
    decreases |live|
  {
    if live == [] then []
    else
      var b := live[|live| - 1];
      var r := Missed(shot, live[..|live| - 1], at);
      if Overlaps(shot, at[b]) then r else r + [b]
  }

  /** spritecollide splits the group in two: the blocks the bullet overlaps
      (as Hit states) and the others, each block landing in exactly one part,
      neither part holding a block twice if the group does not. */
  lemma {:induction false} Split(shot: Rect, live: seq<Block>, at: map<Block, Rect>)
    requires Placed(live, at)
    ensures forall b :: b in Missed(shot, live, at) ==> b in live && !Overlaps(shot, at[b])
    ensures forall b :: b in live && !Overlaps(shot, at[b]) ==> b in Missed(shot, live, at)
    ensures |Hit(shot, live, at)| + |Missed(shot, live, at)| == |live|
    ensures Distinct(live) ==> Distinct(Hit(shot, live, at)) && Distinct(Missed(shot, live, at))
    decreases |live|
  {
    if live != [] {
      var b := live[|live| - 1];
      var front := live[..|live| - 1];
      assert live == front + [b];
      Split(shot, front, at);
      if Distinct(live) {
        DistinctSplit(front, b);
        if Overlaps(shot, at[b]) {
          DistinctAppend(Hit(shot, front, at), b);
        } else {
          DistinctAppend(Missed(shot, front, at), b);
        }
      }
    }
  }

  /** What the pass leaves behind: the bullets still in flight, the blocks
      still alive, and how many blocks were destroyed. */
  datatype Outcome = Outcome(bullets: seq<Bullet>, blocks: seq<Block>, kills: nat)

  /** The pass over a snapshot of the bullets, in order. Each bullet destroys
      every block still alive that it overlaps and scores one per block; it
      is then removed if it destroyed any block or if its top is above
      OffscreenTop. Stated for the last bullet after the pass over the
      bullets before it. */
  function Resolve(shots: seq<Bullet>, live: seq<Block>,
                   aim: map<Bullet, Rect>, at: map<Block, Rect>): (r: Outcome)
    requires Placed(shots, aim) && Placed(live, at)
    ensures forall b :: b in r.blocks ==> b in live
    ensures Placed(r.blocks, at)
    decreases |shots|
  {
    if shots == [] then Outcome([], live, 0)
    else
      var u := shots[|shots| - 1];
      var prev := Resolve(shots[..|shots| - 1], live, aim, at);
      var hit := Hit(aim[u], prev.blocks, at);
      Outcome(if hit == [] && aim[u].y >= OffscreenTop then prev.bullets + [u] else prev.bullets,
              Missed(aim[u], prev.blocks, at), prev.kills + |hit|)
  }

  /** The pass over the first i + 1 bullets is the pass over the first i
      followed by bullet i's turn. */
  lemma ResolveStep(shots: seq<Bullet>, live: seq<Block>,
                    aim: map<Bullet, Rect>, at: map<Block, Rect>, i: nat)
    requires Placed(shots, aim) && Placed(live, at) && i < |shots|
    ensures var prev := Resolve(shots[..i], live, aim, at);
      var u := shots[i];
      Resolve(shots[..i + 1], live, aim, at) ==
        Outcome(if Hit(aim[u], prev.blocks, at) == [] && aim[u].y >= OffscreenTop
                then prev.bullets + [u] else prev.bullets,
                Missed(aim[u], prev.blocks, at), prev.kills + |Hit(aim[u], prev.blocks, at)|)
  {
    assert shots[..i + 1][..i] == shots[..i];
  }

  /** Every block of the snapshot is either destroyed, and counted once, or
      still alive; the bullets still in flight come from the snapshot and
      none of them is above OffscreenTop. */
  lemma {:induction false} Accounted(shots: seq<Bullet>, live: seq<Block>,
                                     aim: map<Bullet, Rect>, at: map<Block, Rect>)
    requires Placed(shots, aim) && Placed(live, at)
    ensures var r := Resolve(shots, live, aim, at);
      r.kills + |r.blocks| == |live| &&
      (forall u :: u in r.bullets ==> u in shots && aim[u].y >= OffscreenTop)
    decreases |shots|
  {
    if shots != [] {
      var u := shots[|shots| - 1];
      var front := shots[..|shots| - 1];
      assert shots == front + [u];
      Accounted(front, live, aim, at);
      Split(aim[u], Resolve(front, live, aim, at).blocks, at);
    }
  }

  /** The pass never duplicates a sprite in either group. */
  lemma {:induction false} ResolveDistinct(shots: seq<Bullet>, live: seq<Block>,
                                           aim: map<Bullet, Rect>, at: map<Block, Rect>)
    requires Placed(shots, aim) && Placed(live, at)
    requires Distinct(shots) && Distinct(live)
    ensures Distinct(Resolve(shots, live, aim, at).bullets)
    ensures Distinct(Resolve(shots, live, aim, at).blocks)
    decreases |shots|
  {
    if shots != [] {
      var u := shots[|shots| - 1];
      var front := shots[..|shots| - 1];
      assert shots == front + [u];
      DistinctSplit(front, u);
      ResolveDistinct(front, live, aim, at);
      var prev := Resolve(front, live, aim, at);
      Split(aim[u], prev.blocks, at);
      Accounted(front, live, aim, at);
      if Hit(aim[u], prev.blocks, at) == [] && aim[u].y >= OffscreenTop {
        DistinctAppend(prev.bullets, u);
      }
    }
  }

  /** A block survives the pass exactly when it was alive and no bullet of
      the snapshot overlaps it: an overlapping bullet destroys it unless an
      earlier one already has. */
  lemma {:induction false} BlockSurvivesIff(shots: seq<Bullet>, live: seq<Block>,
                                            aim: map<Bullet, Rect>, at: map<Block, Rect>, b: Block)
    requires Placed(shots, aim) && Placed(live, at)
    ensures b in Resolve(shots, live, aim, at).blocks <==>
            b in live && forall u :: u in shots ==> !Overlaps(aim[u], at[b])
    decreases |shots|
  {
    if shots != [] {
      var front := shots[..|shots| - 1];
      var u := shots[|shots| - 1];
      assert shots == front + [u];
      BlockSurvivesIff(front, live, aim, at, b);
      Split(aim[u], Resolve(front, live, aim, at).blocks, at);
    }
  }

  /** The fate of the k-th bullet of a duplicate-free snapshot: it is still
      in flight after the pass exactly when it overlaps none of the blocks
      left alive by the bullets before it and its top is not above
      OffscreenTop. */
  lemma {:induction false} BulletSurvivesIff(shots: seq<Bullet>, live: seq<Block>,
                                             aim: map<Bullet, Rect>, at: map<Block, Rect>, k: nat)
    requires Placed(shots, aim) && Placed(live, at)
    requires Distinct(shots) && k < |shots|
    ensures shots[k] in Resolve(shots, live, aim, at).bullets <==>
            Hit(aim[shots[k]], Resolve(shots[..k], live, aim, at).blocks, at) == [] &&
            aim[shots[k]].y >= OffscreenTop
    decreases |shots|
  {
    var front := shots[..|shots| - 1];
    var u := shots[|shots| - 1];
    assert shots == front + [u];
    DistinctSplit(front, u);
    Accounted(front, live, aim, at);
    if k == |shots| - 1 {
      assert shots[..k] == front;
    } else {
      assert front[k] == shots[k] && front[..k] == shots[..k];
      BulletSurvivesIff(front, live, aim, at, k);
    }
  }
}
