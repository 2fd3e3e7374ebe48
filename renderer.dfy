/**
 * renderer_set_sprites of src/renderer.c: the per-frame instance buffer is
 * filled with the live decorations of the world, in order. Enemies and
 * projectiles are not copied.
 */
module Renderer {
  import opened SpriteLayout
  import opened World

  /**
   * Copies decorations[0..count) into drawing[0..count) (one memcpy) and
   * returns count. The caller's buffer must hold at least count records and,
   * as memcpy demands, must not be the world's own array.
   */
  method SetSprites(world: GameWorld, drawing: array<Sprite>) returns (count: nat)
    requires world.Valid()
    requires world.decorationCount <= drawing.Length && drawing != world.decorations
    modifies drawing
    ensures count == world.decorationCount
    ensures drawing[..count] == world.decorations[..count]
    ensures drawing[count..] == old(drawing[count..])
  {
    count := 0;
    forall k | 0 <= k < world.decorationCount {
      drawing[k] := world.decorations[k];
    }
    count := count + world.decorationCount;
  }
}
