/**
 * The two operations of src/sprite.c. Both write fields of one record through
 * a pointer; here the record is a slot of an array of records (the decoration
 * array of the world, or any caller buffer) and the method rewrites that slot.
 */
module SpriteOps {
  import opened SpriteLayout

  /** Horizontal drift, in world units per second. */
  const DRIFT_SPEED: real := 10.0
  /** Angular speed, in radians per second. */
  const SPIN_SPEED: real := 0.5
  /** Past this x the sprite wraps back to 0. */
  const WRAP_X: real := 1200.0

  /**
   * sprite_init: fills every field from the arguments except `padding2`,
   * which keeps whatever the slot held before.
   */
  method SpriteInit(buf: array<Sprite>, i: nat, x: real, y: real, width: real, height: real,
                    uvStart: Vec2, uvEnd: Vec2, layerIndex: real, parX: real, parY: real, zIndex: real)
    requires i < buf.Length
    modifies buf
    ensures buf[i].position == Vec2(x, y) && buf[i].size == Vec2(width, height)
    ensures buf[i].rotation == 0.0
    ensures buf[i].uvStart == uvStart && buf[i].uvEnd == uvEnd
    ensures buf[i].layerIndex == layerIndex && buf[i].zIndex == zIndex
    ensures buf[i].parallaxFactorX == parX && buf[i].parallaxFactorY == parY
    ensures buf[i].padding2 == old(buf[i].padding2)
    ensures forall k :: 0 <= k < buf.Length && k != i ==> buf[k] == old(buf[k])
  {
    var s := buf[i];
    s := s.(position := Vec2(x, y), size := Vec2(width, height), rotation := 0.0);
    s := s.(uvStart := uvStart, uvEnd := uvEnd);
    s := s.(layerIndex := layerIndex, parallaxFactorX := parX, parallaxFactorY := parY, zIndex := zIndex);
    buf[i] := s;
  }

  /**
   * sprite_update: the sprite drifts right and spins; once its x passes
   * WRAP_X it is put back at 0. Nothing but x and the rotation changes.
   */
  method SpriteUpdate(buf: array<Sprite>, i: nat, deltaTime: real)
    requires i < buf.Length
    modifies buf
    ensures var moved := old(buf[i].position.x) + DRIFT_SPEED * deltaTime;
      buf[i].position.x == if moved > WRAP_X then 0.0 else moved
    ensures buf[i].position.x <= WRAP_X
    ensures buf[i].rotation == old(buf[i].rotation) + SPIN_SPEED * deltaTime
    ensures buf[i] == old(buf[i]).(position := Vec2(buf[i].position.x, old(buf[i].position.y)),
                                   rotation := buf[i].rotation)
    ensures forall k :: 0 <= k < buf.Length && k != i ==> buf[k] == old(buf[k])
  {
    var s := buf[i];
    s := s.(position := s.position.(x := s.position.x + DRIFT_SPEED * deltaTime));
    s := s.(rotation := s.rotation + SPIN_SPEED * deltaTime);
    if s.position.x > WRAP_X {
      s := s.(position := s.position.(x := 0.0));
    }
    buf[i] := s;
  }
}
