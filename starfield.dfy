/** The decorative starfield: 2000 points that scroll up one unit per frame
    and reappear below the screen once they leave its top. */
module Starfield {
  import opened Sprites

  const StarCount := 2000
  /** Initial star rows are drawn from [0, ScreenHeight + StarSpread). */
  const StarSpread := 25
  /** Respawned star rows are drawn from [ScreenHeight + RespawnLow, ScreenHeight + RespawnHigh). */
  const RespawnLow := 10
  const RespawnHigh := 50

  /** One star, a point on the screen (a two-element list in main.py). */
  datatype Star = Star(x: int, y: int)

  /** The region every star stays in: a screen column, and a row from the
      top of the screen down to the lowest respawn row. */
  predicate InField(s: Star) {
    0 <= s.x < ScreenWidth && 0 <= s.y < ScreenHeight + RespawnHigh
  }

  /** A star as the setup loop draws it. */
  predicate Seeded(s: Star) {
    0 <= s.x < ScreenWidth && 0 <= s.y < ScreenHeight + StarSpread
  }

  /** A column a respawned star may be given. */
  predicate RespawnColumn(x: int) { 0 <= x < ScreenWidth }

  /** A row a respawned star may be given. */
  predicate RespawnRow(y: int) { ScreenHeight + RespawnLow <= y < ScreenHeight + RespawnHigh }

  /** Every star drawn at setup lies in the field. */
  lemma SeededInField(s: Star)
    requires Seeded(s)
    ensures InField(s)
  {
  }

  /** One frame for one star: it rises one row; if that takes it above the
      screen it is moved to the respawn column x and row y. */
  function Scroll(s: Star, x: int, y: int): (r: Star)
    ensures s.y >= 1 ==> r.x == s.x && r.y == s.y - 1
    ensures s.y < 1 ==> r.x == x && r.y == y
    ensures InField(s) && RespawnColumn(x) && RespawnRow(y) ==> InField(r)
  {
    var risen := s.(y := s.y - 1);
    if risen.y < 0 then Star(x, y) else risen
  }

  /** One frame for the whole field; xs and ys hold the draws each star
      would use if it respawns. Stars in the field stay in the field when
      the draws are in range, frame after frame. */
  function Scrolled(stars: seq<Star>, xs: seq<int>, ys: seq<int>): (r: seq<Star>)
    requires |xs| == |stars| && |ys| == |stars|
    ensures |r| == |stars|
    ensures forall i :: 0 <= i < |r| ==> r[i] == Scroll(stars[i], xs[i], ys[i])
    ensures (forall i :: 0 <= i < |stars| ==> InField(stars[i]) && RespawnColumn(xs[i]) && RespawnRow(ys[i])) ==>
            forall i :: 0 <= i < |r| ==> InField(r[i])
  {
    seq(|stars|, i requires 0 <= i < |stars| => Scroll(stars[i], xs[i], ys[i]))
  }

  /** The star loop of a frame, overwriting each entry of the array in
      turn. */
  method ScrollAll(stars: array<Star>, xs: seq<int>, ys: seq<int>)
    requires |xs| == stars.Length && |ys| == stars.Length
    modifies stars
    ensures stars[..] == Scrolled(old(stars[..]), xs, ys)
  {
    for i := 0 to stars.Length
      invariant forall j :: 0 <= j < i ==> stars[j] == Scroll(old(stars[j]), xs[j], ys[j])
      invariant forall j :: i <= j < stars.Length ==> stars[j] == old(stars[j])
    {
      var s := stars[i].(y := stars[i].y - 1);
      if s.y < 0 {
        s := s.(y := ys[i]);
        s := s.(x := xs[i]);
      }
      stars[i] := s;
    }
  }
}
