/** Procedural wall layout: one pass over the wall segments, accumulating a running
    height and emitting a left and/or a right wall platform per segment. The random
    draws are supplied by the caller, each within the range the random source
    draws it from. */
module WallLayout {
  import opened Engine
  import opened Platforms
  import opened ScreenSpec

  const MinGap: real := 120.0
  const MaxGap: real := 250.0
  const MinOffset: real := -60.0
  const MaxOffset: real := 80.0

  /** The random values drawn for one segment, in the order they are drawn. */
  datatype SegmentDraws = SegmentDraws(
    verticalGap: real,
    spawnLeft: bool,
    spawnRight: bool,
    offsetY: real,
    leftJitter: Jitter,
    rightJitter: Jitter)

  predicate DrawInRange(d: SegmentDraws) {
    MinGap <= d.verticalGap <= MaxGap &&
    MinOffset <= d.offsetY <= MaxOffset &&
    JitterInRange(d.leftJitter) && JitterInRange(d.rightJitter)
  }

  predicate AllInRange(draws: seq<SegmentDraws>) {
    forall i :: 0 <= i < |draws| ==> DrawInRange(draws[i])
  }

  datatype Side = Left | Right

  predicate Spawns(d: SegmentDraws, side: Side) {
    if side == Left then d.spawnLeft else d.spawnRight
  }

  /** The running height after the first n segments: the sum of their gaps, so
      between n times the smallest and n times the largest gap. */
  function RunningHeight(draws: seq<SegmentDraws>, n: nat): (h: real)
    requires n <= |draws|
    ensures AllInRange(draws) ==> MinGap * n as real <= h <= MaxGap * n as real
  {
    if n == 0 then 0.0 else RunningHeight(draws, n - 1) + draws[n - 1].verticalGap
  }

  /** The height of segment i: the running height once its own gap is added. */
  function SegmentHeight(draws: seq<SegmentDraws>, i: nat): (h: real)
    requires i < |draws|
    ensures AllInRange(draws) ==>
      RunningHeight(draws, i) + MinGap <= h <= RunningHeight(draws, i) + MaxGap
  {
    RunningHeight(draws, i + 1)
  }

  /** The segments, among the first n, that emit a wall on `side`, in order. */
  function Segments(draws: seq<SegmentDraws>, n: nat, side: Side): (r: seq<nat>)
    requires n <= |draws|
    ensures |r| <= n
    ensures forall k :: 0 <= k < |r| ==> r[k] < n && Spawns(draws[r[k]], side)
    ensures forall k1, k2 :: 0 <= k1 < k2 < |r| ==> r[k1] < r[k2]
    ensures forall i :: 0 <= i < n && Spawns(draws[i], side) ==> i in r
  {
    if n == 0 then []
    else Segments(draws, n - 1, side) + (if Spawns(draws[n - 1], side) then [n - 1] else [])
  }

  /** With every gap at least MinGap, the running height grows by at least
      MinGap per segment. */
  lemma {:induction false} HeightGrowth(draws: seq<SegmentDraws>, i: nat, j: nat)
    requires i <= j <= |draws| && AllInRange(draws)
    ensures RunningHeight(draws, j) - RunningHeight(draws, i) >= MinGap * (j - i) as real
    decreases j
  {
    if i < j {
      HeightGrowth(draws, i, j - 1);
      assert DrawInRange(draws[j - 1]);
    }
  }

  /** The walls of one side climb: every later wall is at least MinGap above every
      earlier one. */
  lemma SegmentHeightsClimb(draws: seq<SegmentDraws>, side: Side)
    requires AllInRange(draws)
    ensures var seg := Segments(draws, |draws|, side);
      forall k1, k2 :: 0 <= k1 < k2 < |seg| ==>
        SegmentHeight(draws, seg[k1]) + MinGap <= SegmentHeight(draws, seg[k2])
  {
    var seg := Segments(draws, |draws|, side);
    forall k1, k2 | 0 <= k1 < k2 < |seg|
      ensures SegmentHeight(draws, seg[k1]) + MinGap <= SegmentHeight(draws, seg[k2])
    {
      var i1, i2 := seg[k1], seg[k2];
      assert i1 < i2 < |draws|;
      HeightGrowth(draws, i1 + 1, i2 + 1);
    }
  }

  /** The left walls generated for the first n segments: at x = 0 and at the
      heights of the segments that emit one. */
  predicate LeftLayout(left: seq<Platform>, tex: Texture, draws: seq<SegmentDraws>, n: nat)
    requires n <= |draws|
  {
    var seg := Segments(draws, n, Left);
    |left| == |seg| &&
    forall k :: 0 <= k < |left| ==> LeftWallOf(left[k], tex, draws, seg[k])
  }

  /** The left wall segment i builds. */
  predicate LeftWallOf(p: Platform, tex: Texture, draws: seq<SegmentDraws>, i: nat)
    requires i < |draws|
  {
    p.Built(0.0, SegmentHeight(draws, i), tex, true, draws[i].leftJitter)
  }

  /** The right wall segment i builds. */
  predicate RightWallOf(p: Platform, tex: Texture, draws: seq<SegmentDraws>, i: nat)
    requires i < |draws|
  {
    p.Built(ScreenWidth - tex.width as real, SegmentHeight(draws, i) + draws[i].offsetY,
            tex, false, draws[i].rightJitter)
  }

  /** The right walls generated for the first n segments: flush with the right
      screen edge and offset from their segment's height by the drawn offset. */
  predicate RightLayout(right: seq<Platform>, tex: Texture, draws: seq<SegmentDraws>, n: nat)
    requires n <= |draws|
  {
    var seg := Segments(draws, n, Right);
    |right| == |seg| &&
    forall k :: 0 <= k < |right| ==> RightWallOf(right[k], tex, draws, seg[k])
  }

  /** Appending the walls segment n emits (none, or the one it builds) extends a
      left layout of the first n segments to one of the first n + 1. */
  lemma LeftLayoutStep(left: seq<Platform>, added: seq<Platform>, tex: Texture, draws: seq<SegmentDraws>, n: nat)
    requires n < |draws| && LeftLayout(left, tex, draws, n)
    requires if draws[n].spawnLeft
      then |added| == 1 && LeftWallOf(added[0], tex, draws, n)
      else added == []
    ensures LeftLayout(left + added, tex, draws, n + 1)
  {
    var before, seg := Segments(draws, n, Left), Segments(draws, n + 1, Left);
    assert seg == before + if draws[n].spawnLeft then [n] else [];
    forall k | 0 <= k < |left + added|
      ensures LeftWallOf((left + added)[k], tex, draws, seg[k])
    {
      if k < |left| {
        assert (left + added)[k] == left[k] && seg[k] == before[k];
      } else {
        assert (left + added)[k] == added[0] && seg[k] == n;
      }
    }
  }

  lemma RightLayoutStep(right: seq<Platform>, added: seq<Platform>, tex: Texture, draws: seq<SegmentDraws>, n: nat)
    requires n < |draws| && RightLayout(right, tex, draws, n)
    requires if draws[n].spawnRight
      then |added| == 1 && RightWallOf(added[0], tex, draws, n)
      else added == []
    ensures RightLayout(right + added, tex, draws, n + 1)
  {
    var before, seg := Segments(draws, n, Right), Segments(draws, n + 1, Right);
    assert seg == before + if draws[n].spawnRight then [n] else [];
    forall k | 0 <= k < |right + added|
      ensures RightWallOf((right + added)[k], tex, draws, seg[k])
    {
      if k < |right| {
        assert (right + added)[k] == right[k] && seg[k] == before[k];
      } else {
        assert (right + added)[k] == added[0] && seg[k] == n;
      }
    }
  }

  /** A complete left layout: every wall at x = 0, each at least MinGap above the
      one before it in the list. */
  lemma LeftLayoutClimbs(left: seq<Platform>, tex: Texture, draws: seq<SegmentDraws>)
    requires AllInRange(draws) && LeftLayout(left, tex, draws, |draws|)
    ensures |left| <= |draws|
    ensures forall k :: 0 <= k < |left| ==> left[k].position.x == 0.0
    ensures forall k1, k2 :: 0 <= k1 < k2 < |left| ==>
      left[k1].position.y + MinGap <= left[k2].position.y
  {
    var seg := Segments(draws, |draws|, Left);
    forall k | 0 <= k < |left|
      ensures left[k].position == Vec2(0.0, SegmentHeight(draws, seg[k]))
    {
      assert LeftWallOf(left[k], tex, draws, seg[k]);
    }
    forall k1, k2 | 0 <= k1 < k2 < |left|
      ensures left[k1].position.y + MinGap <= left[k2].position.y
    {
      assert left[k1].position.y == SegmentHeight(draws, seg[k1]);
      assert left[k2].position.y == SegmentHeight(draws, seg[k2]);
      HeightGrowth(draws, seg[k1] + 1, seg[k2] + 1);
    }
  }

  /** A complete right layout: every wall flush with the right screen edge and
      within [MinOffset, MaxOffset] of its segment's height. */
  lemma RightLayoutPlaced(right: seq<Platform>, tex: Texture, draws: seq<SegmentDraws>)
    requires AllInRange(draws) && RightLayout(right, tex, draws, |draws|)
    ensures |right| <= |draws|
    ensures forall k :: 0 <= k < |right| ==> right[k].position.x == ScreenWidth - tex.width as real
    ensures forall k :: 0 <= k < |right| ==>
      var h := SegmentHeight(draws, Segments(draws, |draws|, Right)[k]);
      h + MinOffset <= right[k].position.y <= h + MaxOffset
  {
    var seg := Segments(draws, |draws|, Right);
    forall k | 0 <= k < |right|
      ensures SegmentHeight(draws, seg[k]) + MinOffset <= right[k].position.y
           <= SegmentHeight(draws, seg[k]) + MaxOffset
    {
      assert RightWallOf(right[k], tex, draws, seg[k]);
      assert DrawInRange(draws[seg[k]]);
    }
  }

  method GenerateWalls(wallTexture: Texture, draws: seq<SegmentDraws>)
      returns (left: seq<Platform>, right: seq<Platform>)
    requires AllInRange(draws)
    ensures LeftLayout(left, wallTexture, draws, |draws|)
    ensures RightLayout(right, wallTexture, draws, |draws|)
    ensures |left| <= |draws| && |right| <= |draws|
    ensures forall k :: 0 <= k < |left| ==> left[k].position.x == 0.0
    ensures forall k1, k2 :: 0 <= k1 < k2 < |left| ==>
      left[k1].position.y + MinGap <= left[k2].position.y
    ensures forall k :: 0 <= k < |right| ==>
      right[k].position.x == ScreenWidth - wallTexture.width as real
    ensures forall k :: 0 <= k < |right| ==>
      var h := SegmentHeight(draws, Segments(draws, |draws|, Right)[k]);
      h + MinOffset <= right[k].position.y <= h + MaxOffset
  {
    var currentY := 0.0;
    left, right := [], [];
    for i := 0 to |draws|
      invariant currentY == RunningHeight(draws, i)
      invariant LeftLayout(left, wallTexture, draws, i)
      invariant RightLayout(right, wallTexture, draws, i)
    {
      var d := draws[i];
      currentY := currentY + d.verticalGap;
      var addedLeft, addedRight := [], [];
      if d.spawnLeft {
        var wall := new Platform(0.0, currentY, wallTexture, true, d.leftJitter);
        addedLeft := [wall];
      }
      if d.spawnRight {
        var wall := new Platform(ScreenWidth - wallTexture.width as real, currentY + d.offsetY,
                                 wallTexture, false, d.rightJitter);
        addedRight := [wall];
      }
      LeftLayoutStep(left, addedLeft, wallTexture, draws, i);
      RightLayoutStep(right, addedRight, wallTexture, draws, i);
      left, right := left + addedLeft, right + addedRight;
    }
    LeftLayoutClimbs(left, wallTexture, draws);
    RightLayoutPlaced(right, wallTexture, draws);
  }
}
