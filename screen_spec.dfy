/** The game screen's constants and the two pieces of per-frame decision logic that
    are pure: which jump-charge call the input triggers, and where the camera goes. */
module ScreenSpec {
  import opened Engine

  const ScreenWidth: real := 400.0
  const ScreenHeight: real := 800.0
  /** The camera never centres below half a screen, so the world floor stays in view. */
  const MinCameraY: real := ScreenHeight / 2.0
  /** The fixed per-frame fraction of the distance the camera closes. */
  const CameraLerp: real := 0.1
  const NumWallSegments: nat := 50

  /** The call the frame makes on the player for the current input. */
  datatype JumpCall = StartJumpCharge | ReleaseJumpCharge | NoCall

  /** A touch starts a charge unless one is running; no touch releases a running one. */
  function InputDispatch(touched: bool, charging: bool): (c: JumpCall)
    ensures c == StartJumpCharge <==> touched && !charging
    ensures c == ReleaseJumpCharge <==> !touched && charging
    ensures c == NoCall <==> touched == charging
  {
    if touched then
      (if !charging then StartJumpCharge else NoCall)
    else
      (if charging then ReleaseJumpCharge else NoCall)
  }

  /** Where the camera heads: the player's height, floored at MinCameraY. */
  function CameraTarget(playerY: real): (t: real)
    ensures t >= playerY && t >= MinCameraY
    ensures t == playerY || t == MinCameraY
  {
    if playerY > MinCameraY then playerY else MinCameraY
  }

  /** The camera height after one frame of following a player at height playerY:
      the distance to the target shrinks to nine tenths. */
  function FollowY(cameraY: real, playerY: real): (n: real)
    ensures CameraTarget(playerY) - n == (1.0 - CameraLerp) * (CameraTarget(playerY) - cameraY)
  {
    Lerp(cameraY, CameraTarget(playerY), CameraLerp)
  }

  /** One step lands between the old camera height and the target, and closes
      exactly a tenth of the distance. */
  lemma FollowBetween(cameraY: real, playerY: real)
    ensures var t, n := CameraTarget(playerY), FollowY(cameraY, playerY);
      (cameraY <= t ==> cameraY <= n <= t) &&
      (t <= cameraY ==> t <= n <= cameraY) &&
      t - n == (1.0 - CameraLerp) * (t - cameraY)
  {
  }

  /** The floor is an invariant of following: once at or above MinCameraY, the
      camera stays there whatever the player does. */
  lemma FollowKeepsFloor(cameraY: real, playerY: real)
    requires cameraY >= MinCameraY
    ensures FollowY(cameraY, playerY) >= MinCameraY
  {
    FollowBetween(cameraY, playerY);
  }
}
