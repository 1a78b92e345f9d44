/** The game screen: the player fields the frame update touches, the camera, the
    two wall lists, and the per-frame update (input dispatch, wall collision,
    camera follow). */
module Screen {
  import opened Engine
  import opened Platforms
  import opened Collision
  import opened ScreenSpec
  import opened WallLayout

  /** The player as the screen sees it. Its constructor, its own per-frame step and
      its jump-charge operations are not part of this model: the texture stands for
      the one the player loads for itself, and the contract claims nothing about
      the initial box, state and flags. */
  class Player {
    var position: Vec2
    var bounds: Rect
    var currentState: PlayerState
    var hasAirBounced: bool
    var isChargingJump: bool
    /** The current image; the player's own step may replace it. */
    var texture: Texture

    constructor (x: real, y: real, texture: Texture)
      ensures position == Vec2(x, y) && this.texture == texture
    {
      position := Vec2(x, y);
      bounds := Rect(x, y, texture.width as real, texture.height as real);
      currentState := Grounded;
      hasAirBounced := false;
      isChargingJump := false;
      this.texture := texture;
    }

    /** The fields collision resolution reads and writes. */
    function View(): (b: Body)
      reads this
    {
      Body(position, bounds, currentState, hasAirBounced)
    }
  }

  /** The following camera; only its position matters here. */
  class Camera {
    var position: Vec2

    constructor (x: real, y: real)
      ensures position == Vec2(x, y)
    {
      position := Vec2(x, y);
    }
  }

  class GameScreen {
    const player: Player
    const camera: Camera
    var leftWallPlatforms: seq<Platform>
    var rightWallPlatforms: seq<Platform>

    /** The camera never shows what lies below the world floor. */
    ghost predicate Valid()
      reads this, camera
    {
      camera.position.y >= MinCameraY
    }

    /** Textures are given by their sizes. `centringTexture` is the character image
        whose width centres the player; `playerTexture` is the one the player loads
        for itself, whose width the right-wall snap uses. `draws` are the random
        values the wall generation consumes, one entry per segment. */
    constructor (groundTexture: Texture, centringTexture: Texture, playerTexture: Texture,
                 wallTexture: Texture, draws: seq<SegmentDraws>)
      requires |draws| == NumWallSegments && AllInRange(draws)
      ensures Valid()
      ensures camera.position == Vec2(ScreenWidth / 2.0, ScreenHeight / 2.0)
      ensures player.position == Vec2((ScreenWidth - centringTexture.width as real) / 2.0,
                                      groundTexture.height as real)
      ensures player.texture == playerTexture
      ensures LeftLayout(leftWallPlatforms, wallTexture, draws, |draws|)
      ensures RightLayout(rightWallPlatforms, wallTexture, draws, |draws|)
      ensures |leftWallPlatforms| <= NumWallSegments && |rightWallPlatforms| <= NumWallSegments
    {
      camera := new Camera(ScreenWidth / 2.0, ScreenHeight / 2.0);
      var playerWidth := centringTexture.width as real;
      var playerX := (ScreenWidth - playerWidth) / 2.0;
      var playerY := groundTexture.height as real;
      player := new Player(playerX, playerY, playerTexture);
      var left, right := GenerateWalls(wallTexture, draws);
      leftWallPlatforms, rightWallPlatforms := left, right;
    }

    /** One frame: dispatch the input, let the player take its own step, resolve
        wall collisions, follow the player. Returns the jump-charge call the frame
        makes on the player. `afterStep` and `afterStepTexture` are the collision
        fields and the texture the player's own step leaves (that step's body is not
        part of this model); the right-wall snap reads the width of the latter. */
    method Update(touched: bool, afterStep: Body, afterStepTexture: Texture) returns (call: JumpCall)
      requires Valid()
      modifies player, camera
      ensures Valid()
      ensures call == InputDispatch(touched, old(player.isChargingJump))
      ensures player.texture == afterStepTexture
      ensures player.View() ==
        ResolveWalls(afterStep, leftWallPlatforms, rightWallPlatforms, afterStepTexture.width)
      ensures camera.position ==
        Vec2(old(camera.position.x), FollowY(old(camera.position.y), player.position.y))
    {
      call := InputDispatch(touched, player.isChargingJump);
      player.position, player.bounds := afterStep.position, afterStep.bounds;
      player.currentState, player.hasAirBounced := afterStep.state, afterStep.hasAirBounced;
      player.texture := afterStepTexture;
      ResolveLeftWalls();
      ResolveRightWalls();
      FollowPlayer();
    }

    /** Snap the player to the first left wall it overlaps, if any. */
    method ResolveLeftWalls()
      modifies player
      ensures player.View() == LeftScan(old(player.View()), leftWallPlatforms)
      ensures player.isChargingJump == old(player.isChargingJump)
      ensures player.texture == old(player.texture)
    {
      var i := 0;
      while i < |leftWallPlatforms|
        invariant 0 <= i <= |leftWallPlatforms|
        invariant player.View() == old(player.View())
        invariant forall j :: 0 <= j < i ==> !Overlaps(player.bounds, leftWallPlatforms[j].bounds)
      {
        var wall := leftWallPlatforms[i];
        if Overlaps(player.bounds, wall.bounds) {
          var newX := wall.position.x + wall.GetTexture().width as real;
          player.position := player.position.(x := newX);
          player.bounds := player.bounds.SetPosition(player.position.x, player.position.y);
          player.currentState := OnWallLeft;
          player.hasAirBounced := false;
          break;
        }
        i := i + 1;
      }
    }

    /** Snap the player to the first right wall its (possibly moved) bounds overlap. */
    method ResolveRightWalls()
      modifies player
      ensures player.View() ==
        RightScan(old(player.View()), rightWallPlatforms, player.texture.width)
      ensures player.isChargingJump == old(player.isChargingJump)
      ensures player.texture == old(player.texture)
    {
      var i := 0;
      while i < |rightWallPlatforms|
        invariant 0 <= i <= |rightWallPlatforms|
        invariant player.View() == old(player.View())
        invariant forall j :: 0 <= j < i ==> !Overlaps(player.bounds, rightWallPlatforms[j].bounds)
      {
        var wall := rightWallPlatforms[i];
        if Overlaps(player.bounds, wall.bounds) {
          var newX := wall.position.x - player.texture.width as real;
          player.position := player.position.(x := newX);
          player.bounds := player.bounds.SetPosition(player.position.x, player.position.y);
          player.currentState := OnWallRight;
          player.hasAirBounced := false;
          break;
        }
        i := i + 1;
      }
    }

    /** Move the camera a tenth of the way towards the clamped target height. */
    method FollowPlayer()
      requires Valid()
      modifies camera
      ensures Valid()
      ensures camera.position ==
        Vec2(old(camera.position.x), FollowY(old(camera.position.y), player.position.y))
    {
      var minCameraY := ScreenHeight / 2.0;
      var targetY := if player.position.y > minCameraY then player.position.y else minCameraY;
      FollowKeepsFloor(camera.position.y, player.position.y);
      camera.position := camera.position.(y := Lerp(camera.position.y, targetY, CameraLerp));
    }
  }
}
