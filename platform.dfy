/** A static obstacle (a wall segment): its position and bounding box come from the
    constructor's arguments and its texture's size; its sprite gets a one-off
    cosmetic scale and rotation jitter that the bounding box ignores. */
module Platforms {
  import opened Engine

  /** The two random values a platform draws when it is built. */
  datatype Jitter = Jitter(scale: real, rotationOffset: real)

  /** The ranges the random source draws the jitter from. */
  predicate JitterInRange(j: Jitter) {
    0.95 <= j.scale <= 1.05 && -5.0 <= j.rotationOffset <= 5.0
  }

  /** The drawable: texture, placement, scale and rotation in degrees. */
  datatype Sprite = Sprite(texture: Texture, x: real, y: real, scale: real, rotation: real)

  /** A fresh sprite over a whole texture: at the origin, unscaled, unrotated. */
  function NewSprite(texture: Texture): (s: Sprite) {
    Sprite(texture, 0.0, 0.0, 1.0, 0.0)
  }

  /** The sprite rotation: a quarter turn (clockwise for a left wall) plus the offset. */
  function Rotation(rotateLeft: bool, offset: real): (r: real)
    requires -5.0 <= offset <= 5.0
    ensures rotateLeft ==> -95.0 <= r <= -85.0
    ensures !rotateLeft ==> 85.0 <= r <= 95.0
  {
    (if rotateLeft then -90.0 else 90.0) + offset
  }

  class Platform {
    // Nothing in the modelled core assigns these fields after construction, so they
    // are constants here.
    const position: Vec2
    const bounds: Rect
    const texture: Texture
    const sprite: Sprite

    /** The state the constructor leaves for these arguments and random draws. */
    predicate Built(x: real, y: real, tex: Texture, rotateLeft: bool, jitter: Jitter) {
      JitterInRange(jitter) &&
      position == Vec2(x, y) &&
      texture == tex &&
      bounds == Rect(x, y, tex.width as real, tex.height as real) &&
      sprite == Sprite(tex, x, y, jitter.scale, Rotation(rotateLeft, jitter.rotationOffset))
    }

    constructor (x: real, y: real, texture: Texture, rotateLeft: bool, jitter: Jitter)
      requires JitterInRange(jitter)
      ensures Built(x, y, texture, rotateLeft, jitter)
    {
      position := Vec2(x, y);
      this.texture := texture;
      bounds := Rect(x, y, texture.width as real, texture.height as real);
      var s := NewSprite(texture);
      s := s.(x := x, y := y);
      s := s.(scale := jitter.scale);
      s := s.(rotation := Rotation(rotateLeft, jitter.rotationOffset));
      sprite := s;
    }

    function GetTexture(): (t: Texture)
      ensures t == texture
    {
      texture
    }
  }

  /** Whatever the draws, the sprite's scale and rotation stay in their bands. */
  lemma SpriteJitterBounded(p: Platform, x: real, y: real, tex: Texture, rotateLeft: bool, jitter: Jitter)
    requires p.Built(x, y, tex, rotateLeft, jitter)
    ensures p.sprite.x == x && p.sprite.y == y
    ensures 0.95 <= p.sprite.scale <= 1.05
    ensures rotateLeft ==> -95.0 <= p.sprite.rotation <= -85.0
    ensures !rotateLeft ==> 85.0 <= p.sprite.rotation <= 95.0
  {
  }

  /** Two platforms built from the same position and texture have the same bounds
      and position, whatever their jitter and rotation side. */
  lemma BoundsIgnoreJitter(p: Platform, q: Platform, x: real, y: real, tex: Texture,
                           leftP: bool, leftQ: bool, jp: Jitter, jq: Jitter)
    requires p.Built(x, y, tex, leftP, jp) && q.Built(x, y, tex, leftQ, jq)
    ensures p.bounds == q.bounds && p.position == q.position
    ensures p.bounds.w == tex.width as real && p.bounds.h == tex.height as real
  {
  }
}
