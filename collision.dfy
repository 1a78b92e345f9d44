/** Wall collision resolution as functions on a snapshot of the player: a scan over
    the left walls, then over the right walls, each acting on the first wall in list
    order whose bounds overlap the player's. */
module Collision {
  import opened Engine
  import opened Platforms

  datatype Option<T> = None | Some(value: T)

  datatype PlayerState = Grounded | OnWallLeft | OnWallRight | Airborne

  /** The player fields collision resolution reads and writes. */
  datatype Body = Body(position: Vec2, bounds: Rect, state: PlayerState, hasAirBounced: bool)

  /** The index of the first wall whose bounds overlap `box`, if any. */
  function FirstOverlap(box: Rect, walls: seq<Platform>): (r: Option<nat>)
    ensures r.Some? ==>
      r.value < |walls| && Overlaps(box, walls[r.value].bounds) &&
      forall j :: 0 <= j < r.value ==> !Overlaps(box, walls[j].bounds)
    ensures r.None? <==> forall j :: 0 <= j < |walls| ==> !Overlaps(box, walls[j].bounds)
  {
    if |walls| == 0 then None
    else if Overlaps(box, walls[0].bounds) then Some(0)
    else match FirstOverlap(box, walls[1..])
      case None => None
      case Some(i) => Some(i + 1)
  }

  /** Sticks the player's left edge to the wall's right edge (its texture width to
      the right of its x), keeping the height and the box size. */
  function SnapLeft(b: Body, wall: Platform): (r: Body)
    ensures r.position == Vec2(wall.texture.width as real + wall.position.x, b.position.y)
    ensures r.bounds == Rect(r.position.x, r.position.y, b.bounds.w, b.bounds.h)
    ensures r.state == OnWallLeft && !r.hasAirBounced
  {
    var x := wall.position.x + wall.GetTexture().width as real;
    Body(Vec2(x, b.position.y), b.bounds.SetPosition(x, b.position.y), OnWallLeft, false)
  }

  /** Sticks the player's right edge (its texture width to the right of its x) to
      the wall's left edge, keeping the height and the box size. */
  function SnapRight(b: Body, wall: Platform, playerWidth: nat): (r: Body)
    ensures r.position == Vec2(wall.position.x - playerWidth as real, b.position.y)
    ensures r.bounds == Rect(r.position.x, r.position.y, b.bounds.w, b.bounds.h)
    ensures r.state == OnWallRight && !r.hasAirBounced
  {
    var x := wall.position.x - playerWidth as real;
    Body(Vec2(x, b.position.y), b.bounds.SetPosition(x, b.position.y), OnWallRight, false)
  }

  /** The left-wall scan: the player is left alone unless some wall overlaps it,
      and then it ends on a left wall. */
  function LeftScan(b: Body, walls: seq<Platform>): (r: Body)
    ensures r.position.y == b.position.y && r.bounds.w == b.bounds.w && r.bounds.h == b.bounds.h
    ensures (forall j :: 0 <= j < |walls| ==> !Overlaps(b.bounds, walls[j].bounds)) ==> r == b
    ensures (exists j :: 0 <= j < |walls| && Overlaps(b.bounds, walls[j].bounds)) ==>
      r.state == OnWallLeft && !r.hasAirBounced && r.bounds.x == r.position.x && r.bounds.y == r.position.y
  {
    match FirstOverlap(b.bounds, walls)
    case None => b
    case Some(i) => SnapLeft(b, walls[i])
  }

  /** The right-wall scan, the mirror image of the left one. */
  function RightScan(b: Body, walls: seq<Platform>, playerWidth: nat): (r: Body)
    ensures r.position.y == b.position.y && r.bounds.w == b.bounds.w && r.bounds.h == b.bounds.h
    ensures (forall j :: 0 <= j < |walls| ==> !Overlaps(b.bounds, walls[j].bounds)) ==> r == b
    ensures (exists j :: 0 <= j < |walls| && Overlaps(b.bounds, walls[j].bounds)) ==>
      r.state == OnWallRight && !r.hasAirBounced && r.bounds.x == r.position.x && r.bounds.y == r.position.y
  {
    match FirstOverlap(b.bounds, walls)
    case None => b
    case Some(i) => SnapRight(b, walls[i], playerWidth)
  }

  /** Both scans in frame order: the right scan sees the bounds the left one left. */
  function ResolveWalls(b: Body, left: seq<Platform>, right: seq<Platform>, playerWidth: nat): (r: Body)
    ensures r.position.y == b.position.y && r.bounds.w == b.bounds.w && r.bounds.h == b.bounds.h
    ensures r != b ==>
      (r.state == OnWallLeft || r.state == OnWallRight) && !r.hasAirBounced &&
      r.bounds.x == r.position.x && r.bounds.y == r.position.y
  {
    RightScan(LeftScan(b, left), right, playerWidth)
  }

  /** The left scan acts on the first overlapping wall, whatever comes after it. */
  lemma {:induction false} LeftScanFirstHitWins(b: Body, walls: seq<Platform>, i: nat, rest: seq<Platform>)
    requires i < |walls| && Overlaps(b.bounds, walls[i].bounds)
    requires forall j :: 0 <= j < i ==> !Overlaps(b.bounds, walls[j].bounds)
    ensures LeftScan(b, walls + rest) == SnapLeft(b, walls[i])
    ensures LeftScan(b, walls[..i + 1] + rest) == LeftScan(b, walls)
  {
    FirstOverlapAt(b.bounds, walls + rest, i);
    FirstOverlapAt(b.bounds, walls[..i + 1] + rest, i);
    FirstOverlapAt(b.bounds, walls, i);
  }

  /** The same for the right scan. */
  lemma {:induction false} RightScanFirstHitWins(b: Body, walls: seq<Platform>, playerWidth: nat, i: nat, rest: seq<Platform>)
    requires i < |walls| && Overlaps(b.bounds, walls[i].bounds)
    requires forall j :: 0 <= j < i ==> !Overlaps(b.bounds, walls[j].bounds)
    ensures RightScan(b, walls + rest, playerWidth) == SnapRight(b, walls[i], playerWidth)
    ensures RightScan(b, walls[..i + 1] + rest, playerWidth) == RightScan(b, walls, playerWidth)
  {
    FirstOverlapAt(b.bounds, walls + rest, i);
    FirstOverlapAt(b.bounds, walls[..i + 1] + rest, i);
    FirstOverlapAt(b.bounds, walls, i);
  }

  /** A first hit at i in the first `i + 1` walls of a list is its first hit. */
  lemma FirstOverlapAt(box: Rect, walls: seq<Platform>, i: nat)
    requires i < |walls| && Overlaps(box, walls[i].bounds)
    requires forall j :: 0 <= j < i ==> !Overlaps(box, walls[j].bounds)
    ensures FirstOverlap(box, walls) == Some(i)
  {
  }

  /** What one frame of collision resolution does to the player. */
  lemma ResolveWallsOutcome(b: Body, left: seq<Platform>, right: seq<Platform>, playerWidth: nat)
    ensures var r := ResolveWalls(b, left, right, playerWidth);
      var afterLeft := LeftScan(b, left);
      // the height and the box size never change
      r.position.y == b.position.y && r.bounds.w == b.bounds.w && r.bounds.h == b.bounds.h &&
      // a right hit, tested on the bounds the left scan left, decides the outcome
      (match FirstOverlap(afterLeft.bounds, right)
       case Some(k) =>
         r.position.x == right[k].position.x - playerWidth as real &&
         r.state == OnWallRight && !r.hasAirBounced &&
         r.bounds.x == r.position.x && r.bounds.y == r.position.y
       case None =>
         match FirstOverlap(b.bounds, left)
         case Some(k) =>
           r.position.x == left[k].position.x + left[k].texture.width as real &&
           r.state == OnWallLeft && !r.hasAirBounced &&
           r.bounds.x == r.position.x && r.bounds.y == r.position.y
         case None => r == b)
  {
  }

  /** When no wall of either list overlaps the player, nothing changes. */
  lemma ResolveWallsNoHit(b: Body, left: seq<Platform>, right: seq<Platform>, playerWidth: nat)
    requires forall j :: 0 <= j < |left| ==> !Overlaps(b.bounds, left[j].bounds)
    requires forall j :: 0 <= j < |right| ==> !Overlaps(b.bounds, right[j].bounds)
    ensures ResolveWalls(b, left, right, playerWidth) == b
  {
  }

  /** When the left scan snaps the player and the moved bounds then hit a right
      wall, the player ends on the right wall. */
  lemma ResolveWallsBothHit(b: Body, left: seq<Platform>, right: seq<Platform>, playerWidth: nat)
    requires FirstOverlap(b.bounds, left).Some?
    requires FirstOverlap(LeftScan(b, left).bounds, right).Some?
    ensures ResolveWalls(b, left, right, playerWidth).state == OnWallRight
    ensures !ResolveWalls(b, left, right, playerWidth).hasAirBounced
  {
  }
}
