# celesteclone core, modelled in Dafny

This project models the bounded, sequential logic of the celesteclone game
prototype (a C/OpenGL sprite renderer) and proves what that logic promises.
The model covers six parts:

- **The entity world** (`src/entities.c`, `include/entities.h`). It is modelled
  by `entities.dfy` (module `Entities`, the pure rules) and `world.dfy` (module
  `World`, the `GameWorld` class over arrays). It has:
  - one player;
  - an enemy pool of 50 and a projectile pool of 100, each with a live count;
  - the decoration array that `init_game_world` fills with a 200-sprite grid.

  The factories refuse to create past capacity. Each frame moves every live
  enemy (patrol reversal) and projectile (flight, switched off off-screen).
  It then resolves collisions (each active projectile, in index order, removes
  itself and the first active enemy it strictly overlaps). Finally it compacts
  both pools stably. The pool methods are proved against value-level functions
  (`Entities.Frame`, `Entities.Collide`, `Entities.Compacted`), and the
  properties of the frame are proved about those functions.
- **The bump allocator** (`src/celeste_lib.h`), modelled by `arena.dfy`. It
  covers create, allocation with word rounding and a bounds check, and reset.
  Addresses are natural numbers, with 0 for NULL. A ghost list of handed-out
  regions proves that successful allocations tile the used part of the area
  without overlap.
- **Instance packing** (`renderer_set_sprites` in `src/renderer.c`), modelled
  by `renderer.dfy`. It copies the live decorations into the caller's buffer.
- **The GPU instance record** (`include/sprite.h`, modelled by
  `sprite_layout.dfy`) and its two operations (`src/sprite.c`, modelled by
  `sprite.dfy`). Field offsets are computed as prefix sums of the declared
  sizes and compared with the offsets the header's comments state.
- **The scene-graph sketches of `src/main_old.c`**, in four files:
  - child lists with capacity doubling and shift-down removal (`scene.dfy`);
  - the sprite batch count bookkeeping (`batch.dfy`);
  - grid-cell lookup, clamping and per-cell removal (`grid.dfy`);
  - the animation controller: sequence lookup, play/stop/pause/resume, and the
    frame-advance loop (`animation.dfy`, `playback.dfy`).
- **Shared sequence vocabulary** (`seqs.dfy`, `wrappers.dfy`). This holds
  stable filtering, counting, first occurrence, and the two in-place array
  loops the C code writes out by hand: compaction with a write cursor, and
  removal by shifting down.

How the C constructs are represented:

- C `float` arithmetic is exact `real` arithmetic here.
- Calls to `rand()` and `malloc` results become parameters.
- Pointers to records are classes (`Sprite`, `AnimationController`,
  `GridCell`, `BumpAllocator`).
- Fixed arrays are Dafny arrays.

## Model

| member | source | states |
|---|---|---|
| `World.GameWorld.Init` | src/entities.c:7-21 | init_game_world: the world is zeroed, both pools are empty, and decoration k (k < 200) is the grid decoration for its two rolls. The remaining decoration slots are zero. |
| `World.GridDecoration` | src/entities.c:10-19 | decoration i sits at column i % 30 and row i / 30 (40-unit spacing, 20-unit margin) with size 32x32 and the first eighth of the atlas. Its layer is one of 0..3, its parallax is 0.5 or 1, and the parallax doubles as the z-index. |
| `World.LayerOf` | src/entities.c:16 | rand() % 4 as a float is one of 0, 1, 2, 3 |
| `World.ParallaxOf` | src/entities.c:17 | 1 - (rand() % 2) * 0.5 is 1.0 or 0.5 |
| `World.GridDecorationsApart` | src/entities.c:12-18 | no two decorations of the initial grid overlap, whatever the rolls |
| `World.GameWorld.CreatePlayer` | src/entities.c:23-37 | the player becomes a 32x32 box at (x, y) with speed 200, health 100, active |
| `World.GameWorld.CreateEnemy` | src/entities.c:39-56 | a full pool gives None and nothing changes. Otherwise slot `old count` holds a 32x32 enemy (speed 100, damage 10, patrol range 100, patrol start x, active), its index is returned, the count grows by one, and no other slot changes. |
| `World.GameWorld.CreateProjectile` | src/entities.c:58-75 | a full pool gives None and nothing changes. Otherwise slot `old count` holds an 8x8 projectile (speed 300, the given direction, damage 20, active), its index is returned, the count grows by one, and no other slot changes. |
| `Entities.EnemyStep` | src/entities.c:85-97 | an inactive enemy is unchanged. An active one negates its speed exactly when \|x - patrol_start_x\| > patrol_range, then moves x by the new speed times dt; every other field is unchanged. |
| `Entities.ProjectileStep` | src/entities.c:99-114 | an inactive projectile is unchanged. An active one moves by direction times speed times dt and stays active exactly when its new position is in [0,800]x[0,600], bounds included; every other field is unchanged. |
| `Entities.MoveEnemies` | src/entities.c:122-125 | every enemy of the pool takes its own step; the length is kept |
| `Entities.MoveProjectiles` | src/entities.c:127-130 | every projectile of the pool takes its own step; the length is kept |
| `World.GameWorld.MoveEntities` | src/entities.c:122-130 | the two update loops leave the live prefixes equal to the moved pools |
| `Entities.CheckCollision` | src/entities.c:139-145 | for boxes of positive size: collision iff the open x-extents meet and the open y-extents meet. Boxes that only touch along an edge never collide. |
| `Entities.CollisionSymmetric` | src/entities.c:139-145 | the overlap test is symmetric in its two boxes |
| `Entities.FirstHit` | src/entities.c:155-167 | the lowest index of an enemy that is active and overlapped. No enemy before it is hit; the result is the pool length when none is hit. |
| `Entities.CollideStep` | src/entities.c:150-168 | one turn of handle_collisions: an active projectile and the first active enemy it overlaps are switched off, and nothing else changes. The turn only clears flags, and a projectile still active after its turn overlaps no active enemy. |
| `World.GameWorld.ProjectileTurn` | src/entities.c:150-168 | one pass of the outer loop (a projectile's turn) changes the live pools exactly as the specified turn does, and leaves the slots past the counts alone |
| `World.GameWorld.HandleCollisions` | src/entities.c:147-172 | the live pools become the specified resolution (projectiles take their turns in index order), and the slots past the counts are unchanged |
| `Entities.CollideUpTo` | src/entities.c:150-169 | after any number of turns both pools keep their lengths |
| `Entities.Collide` | src/entities.c:147-172 | handle_collisions on the pools: every projectile takes its turn in index order. Only flags are cleared, and no active projectile is left overlapping an active enemy. |
| `Entities.CountAfterSwitchOff` | src/entities.c:164-165 | switching off one active entry lowers the active count by exactly one |
| `Entities.CollideUpToSwitchesPairs` | src/entities.c:150-169 | turns only switch is_active flags off (positions and every other field are kept), and exactly as many enemies as projectiles are switched off |
| `Entities.CollideUpToLeavesNoOverlap` | src/entities.c:150-169 | after the first n turns, none of those n projectiles that is still active overlaps an enemy that is still active |
| `Entities.CollideProperties` | src/entities.c:147-172 | handle_collisions only deactivates, removes one enemy per removed projectile, and leaves no active projectile overlapping an active enemy |
| `Seqs.Compact` | src/entities.c:177-189 | the write-cursor loop leaves exactly the kept entries of the old prefix, in order, and returns their number. Slots from the new count on keep their old values. |
| `World.GameWorld.RemoveInactiveEntities` | src/entities.c:174-205 | each live prefix becomes the active entries of the old one, in order. Each count becomes the number of entries that were active. |
| `Entities.Compacted` | src/entities.c:174-205 | remove_inactive_entities on the pools: the active entries of each pool in order, as many as were active, all of them active |
| `Entities.CompactedProperties` | src/entities.c:174-205 | compaction keeps as many entries as were active, and it distributes over concatenation (survivors keep their relative order) |
| `Seqs.FilterAppend` | src/entities.c:178-188 | filtering distributes over concatenation |
| `Seqs.FilterLength` | src/entities.c:178-189 | the filtered prefix is exactly as long as the number of kept entries |
| `Seqs.FilterMembers` | src/entities.c:178-188 | an entry survives compaction iff it was present and kept |
| `World.GameWorld.UpdateGameWorld` | src/entities.c:116-137 | the live pools become the specified frame: move, then collide, then compact. Counts never grow, the player is unchanged, every live entry is active, and no live projectile overlaps a live enemy. |
| `Entities.Frame` | src/entities.c:116-137 | update_game_world on the pools: move, then collide, then compact. Neither pool grows and every entry left is active. |
| `Entities.FrameProperties` | src/entities.c:116-137 | after a frame neither pool grows, every entry is active, and no projectile overlaps an enemy |
| `Renderer.SetSprites` | src/renderer.c:309-317 | returns exactly the decoration count. The buffer's first count records equal the live decorations in order, and no slot from count on is written. |
| `SpriteOps.SpriteInit` | src/sprite.c:4-17 | sets position (x, y), size (w, h), rotation 0, both UV corners, layer, parallax factors and z-index as given. padding2 keeps its old value, and no other record changes. |
| `SpriteOps.SpriteUpdate` | src/sprite.c:19-28 | x drifts by 10 dt and becomes 0 when it passes 1200, so it ends at most 1200. The rotation grows by 0.5 dt and nothing else in the record changes. |
| `SpriteLayout.Index` | include/sprite.h:8-17 | the declared field order: each field is found at its own index of the field list |
| `SpriteLayout.OffsetAligned` | include/sprite.h:8-17 | every prefix-sum offset is a multiple of 4 bytes |
| `SpriteLayout.OffsetsIncrease` | include/sprite.h:8-17 | a field declared earlier ends no later than any later field starts |
| `SpriteLayout.FieldAligned` | include/sprite.h:8-17 | every field starts float-aligned |
| `SpriteLayout.FieldsAdjacent` | include/sprite.h:8-17 | each field starts exactly where the previous one ends (no implicit padding) |
| `SpriteLayout.FieldsInOrder` | include/sprite.h:8-18 | fields lie in declared order without overlap, each inside the record |
| `SpriteLayout.ComputedOffsets` | include/sprite.h:8-18 | the computed offsets are 0, 8, 16, 20, 24, 32, 40, 44, 48, 52, and the record is 56 bytes |
| `SpriteLayout.CommentAgreesUpToSize` | include/sprite.h:8-13 | the commented offsets of uvStart through size agree with the computed ones |
| `SpriteLayout.CommentDisagreesFromRotation` | include/sprite.h:14-18 | from rotation on, every commented offset is 4 bytes short, and so is the commented total of 52 |
| `SpriteLayout.Flatten` | include/sprite.h:6-18 | the record is 14 floats, which is the computed record size |
| `SpriteLayout.FlattenRoundTrip` | include/sprite.h:6-18 | writing a record out as floats and reading it back is the identity, in both directions |
| `SpriteLayout.Slot` | include/sprite.h:8-17 | each field starts at a whole float slot inside the record |
| `SpriteLayout.FlattenMatchesOffsets` | include/sprite.h:8-17 | in the flattened record, each field's first float is at the slot its computed offset names |
| `Arena.AlignAsWrittenRoundsUp` | src/celeste_lib.h:117 | without wrap-around, (size + 7) & ~7 is a multiple of 8, at least size, and less than size + 8 |
| `Arena.AlignAsWritten` | src/celeste_lib.h:117 | the rounding as written in 64-bit arithmetic, where the addition wraps; the result is always a multiple of 8 |
| `Arena.AlignAsWrittenWraps` | src/celeste_lib.h:117 | for the last seven size_t values the addition wraps and the rounded size is 0 |
| `Arena.AlignUp` | src/celeste_lib.h:117 | the rounding in unbounded integers: a multiple of 8, at least size, less than size + 8 |
| `Arena.AlignUpIsLeast` | src/celeste_lib.h:117 | the rounded size is the least multiple of 8 that covers the request |
| `Arena.AllocAsWritten` | src/celeste_lib.h:109-130 | bump_allocator_alloc as written: the result is NULL or the old cursor. A zero-byte request is refused, and otherwise the cursor either stays or advances by the wrapped rounded size without passing the area's end. |
| `Arena.AllocAsWrittenGrantsOversizedRequest` | src/celeste_lib.h:111-127 | as written, a SIZE_MAX request from a non-NULL area returns the non-NULL cursor without advancing it, and the next 8-byte request returns that same address |
| `Arena.AlignUpRefusesOversizedRequest` | src/celeste_lib.h:117-123 | with the corrected rounding, a SIZE_MAX request never fits |
| `Arena.TilesExtend` | src/celeste_lib.h:126-127 | bumping the cursor by a positive multiple of 8 extends the tiling of handed-out regions |
| `Arena.TilesDisjoint` | src/celeste_lib.h:117-129 | handed-out regions lie inside [start, ptr) in increasing order, do not overlap, and each starts a multiple of 8 bytes after start |
| `Arena.BumpAllocator.constructor` | src/celeste_lib.h:102-103 | the cursor starts at the area's start, with the size recorded and nothing handed out |
| `Arena.Create` | src/celeste_lib.h:85-106 | NULL iff either malloc fails. Otherwise a fresh, empty, valid allocator over the area with the size recorded. |
| `Arena.Alloc` | src/celeste_lib.h:109-130 | NULL with no change for a NULL allocator, a NULL area, size 0, or a rounded request that does not fit. Otherwise it returns the old cursor (non-NULL), advances the cursor by the rounded size, records the new region, and keeps start <= ptr <= start + size. |
| `Arena.Reset` | src/celeste_lib.h:133-139 | the cursor returns to start with start and size unchanged; NULL is left alone |
| `Scene.Sprite.constructor` | src/main_old.c:1114-1140 | createSprite: no parent, no children, capacity 0, transform dirty, no animation controller, grid cell (-1, -1) |
| `Scene.GrownCapacity` | src/main_old.c:445-446 | a full child array grows from 0 to 4 and otherwise doubles, always strictly |
| `Scene.AddChild` | src/main_old.c:443-457 | the children become the old children plus the child at the end, and childCount <= capacity is kept. The array is replaced by a fresh one of the grown capacity only when it was full. The child points back at the parent and is dirty. |
| `Seqs.ShiftDown` | src/main_old.c:463-465 | each slot from i to n - 2 takes the value of its successor; all other slots are unchanged |
| `Seqs.RemoveFirst` | src/main_old.c:461-474 | reports whether x was in the prefix. If it was, the prefix without its first occurrence is shifted into place and the old last slot is left as it was; if not, nothing changes. |
| `Seqs.RemoveFirstOfProperties` | src/main_old.c:461-474 | removing a present child takes out exactly one copy and keeps the order of the rest; removing an absent one changes nothing |
| `Scene.RemoveChild` | src/main_old.c:460-475 | if the child is present, its first occurrence is removed with the order kept, and the child loses its parent and is dirty. If it is absent, nothing changes. |
| `Scene.SetSpriteParent` | src/main_old.c:425-440 | the sprite's parent becomes the new one and it is dirty. The old parent's children lose it, and the new parent's children gain it at the end (after removal when the two parents are the same). |
| `Scene.AddThenRemove` | src/main_old.c:443-475 | removeChild undoes addChild for a child that was not already present |
| `Batch.BeginBatch` | src/main_old.c:318-320 | the count becomes 0 |
| `Batch.FlushBatch` | src/main_old.c:354-382 | a no-op at count 0; otherwise the pending batch is drawn and the count becomes 0 |
| `Batch.AddStep` | src/main_old.c:323-334 | with capacity at least 1, the count after an add is in [1, capacity]; below capacity it grows by one |
| `Batch.AddSpriteToBatch` | src/main_old.c:323-351 | a full buffer is drawn first; then one instance is added and count <= capacity is kept |
| `Batch.CountAfterAddsClosedForm` | src/main_old.c:318-351 | after beginBatch and n >= 1 adds the count is (n - 1) mod capacity + 1, always within [0, capacity] |
| `Grid.GridCell.constructor` | src/main_old.c:684-686 | a new cell is empty with capacity 0 |
| `Grid.GetGridCell` | src/main_old.c:730-736 | NULL exactly when the column is outside [0, width) or the row outside [0, height); otherwise cells[row][column] |
| `Grid.TruncateToInt` | src/main_old.c:719-720 | the (int) cast rounds toward zero |
| `Grid.ClampedCell` | src/main_old.c:719-726 | the truncated index when it is in range, 0 below and n - 1 above, and always in [0, n) when n >= 1 |
| `Grid.SpriteGridPosition` | src/main_old.c:708-727 | on a grid of at least one cell each way, the clamped cell lies in [0, width-1] x [0, height-1] |
| `Grid.ClampedPositionHasCell` | src/main_old.c:708-736 | getGridCell never returns NULL for a clamped position |
| `Grid.RemoveSpriteFromGrid` | src/main_old.c:762-777 | when the sprite's cell exists and holds it, the first occurrence is removed in order. Otherwise nothing changes. |
| `Animation.CreateAnimationSequence` | src/main_old.c:955-962 | an empty sequence with the given name, frame capacity and looping flag |
| `Animation.AddFrameToSequence` | src/main_old.c:965-969 | the frame is appended at index frameCount; nothing else changes |
| `Animation.BudgetDecreases` | src/main_old.c:1067-1069 | consuming one frame's duration lowers the bound on the frames left to pay, so the loop ends |
| `Animation.Advance` | src/main_old.c:1066-1089 | the frame-advance rule. The frame stays in range, and while playing the leftover time is below the frame's duration. A non-looping sequence that runs out stops on its last frame, a looping one never stops, and time short of the current frame changes nothing. |
| `Animation.AdvanceShortDelta` | src/main_old.c:1066-1089 | from a paid-off state, a delta shorter than every frame advances at most one frame, or wraps or stops at the end |
| `Animation.NameIndex` | src/main_old.c:987-994 | the lowest index whose name matches, or -1 exactly when none matches |
| `Animation.AnimationController.constructor` | src/main_old.c:943-952 | no sequences, current sequence -1, frame 0, no time accumulated, not playing |
| `Animation.AnimationController.AddAnimationSequence` | src/main_old.c:972-984 | the sequence is appended; nothing else changes |
| `Animation.AnimationController.FindAnimationSequence` | src/main_old.c:987-994 | the linear scan returns the lowest matching index, or -1 |
| `Playback.PlayAnimation` | src/main_old.c:997-1018 | a no-op without a controller, for an unknown name, or when that sequence is already playing and restart is false. Otherwise that sequence becomes current at frame 0 with time 0 and playing, and the region shows its first frame. |
| `Playback.StopAnimation` | src/main_old.c:1021-1034 | stops and rewinds to frame 0 with time 0. When a sequence is current the region shows its first frame; otherwise the definition is unchanged. |
| `Playback.PauseAnimation` | src/main_old.c:1037-1040 | only the playing flag changes, to false |
| `Playback.ResumeAnimation` | src/main_old.c:1043-1046 | only the playing flag changes, to true |
| `Playback.ConsumeTime` | src/main_old.c:1063-1089 | the time-accumulation loop ends in exactly the state the frame-advance rule gives for the old frame and old time plus delta |
| `Playback.UpdateAnimation` | src/main_old.c:1049-1093 | nothing changes unless a valid sequence is playing. Otherwise frame, time and playing follow the advance rule, the frame stays in [0, frameCount), and the region ends equal to the current frame's region. |

## Left out

- Floating point: every C `float` is an exact `real`. Rounding, NaN, and the float-to-int cast of out-of-range values are not modelled.
- Randomness and allocation outcomes: the `rand()` results of `init_game_world` are parameters (`layerRolls`, `parallaxRolls`), and so are the two `malloc` results of `bump_allocator_create` (`structOk`, `area`).
- The capacity of the decoration array: include/entities.h declares neither `decorazioni` nor `count_decorazioni`, although src/entities.c and src/renderer.c use both. The model gives the world a decoration array of 8192 slots.
- `update_player`: its body does nothing beyond the activity test, so `UpdateGameWorld` leaves the player unchanged. `player_count` is declared but never used, so it is not modelled.
- `bump_allocator_destroy`, `destroySprite`, `destroyAnimationController`, `destroySpatialGrid` and `createSpatialGrid` (beyond a cell's initial state): memory release and the malloc/free lifecycle are not modelled.
- Arena.Alloc: the model computes the rounding without wrap-around (see Findings). The agreement between the 64-bit mask and the unbounded rounding for sizes up to SIZE_MAX - 7 is stated only as `Arena.AlignAsWrittenRoundsUp` on bit-vectors, not as an equation between the two functions.
- Pointer arithmetic: `ptr + aligned_size` is compared as an unbounded integer, so a cursor that would pass the end of the address space is not modelled.
- Scene.AddChild: `realloc` is modelled as a fresh array with the children copied over. Whether it moved or grew the block in place is not observable in the model, and an allocation failure is not modelled.
- Scene.SetSpriteParent: it requires that the old and the new parent do not share one child array. Two live sprites never do in the C code, but the C code does not state this.
- Matrix transforms (`updateSpriteTransform`, `updateSpriteHierarchy`): the world position that `getSpriteGridPosition` reads is a parameter of `Grid.SpriteGridPosition`, and the refresh of a dirty transform is not modelled.
- `addSpriteToGrid`, `updateSpriteInGrid`, `getVisibleCells` and `renderVisibleSprites` are not modelled.
- Batch.AddSpriteToBatch: only the count bookkeeping is modelled. The instance record written (position, UV region, colour) and the OpenGL upload and draw in `flushBatch` are not, and `flushed` records only the size of each batch drawn.
- Integer widths: `int` counts and capacities (child capacity doubling, frame counts) are unbounded, so their overflow is not modelled.
- Names of animation sequences are compared as whole strings, which is what `strcmp(...) == 0` decides for NUL-terminated strings.
- The triangle demo, window/context setup, shaders, textures, the GL work of `src/renderer.c`, logging, file I/O, `editor/editor.js` and `include/game.h` are outside the model.
- src/main_old.c declares `Sprite` three times with different fields. The model keeps one class holding the fields the modelled functions use: the children list, the grid cell and the animation controller.

## Findings

| source | as written | input that shows it | evidently intended | confidence | as-written member | corrected member |
|---|---|---|---|---|---|---|
| include/sprite.h:14-18 | the comments place rotation at 36, parallaxFactorX at 40, parallaxFactorY at 44 and padding2 at 48, with a total of 52 bytes | size is a vec2 of 8 bytes at offset 32, so rotation starts at 40; the ten declared fields are 14 floats, 56 bytes | offsets 40, 44, 48, 52 and a 56-byte record, as the declarations give | high (not executed) | `SpriteLayout.CommentDisagreesFromRotation` | `SpriteLayout.ComputedOffsets` |
| src/celeste_lib.h:117 | `(size + 7) & ~7` in size_t arithmetic wraps for size > SIZE_MAX - 7 and yields 0, which then passes the bounds check | `bump_allocator_alloc(a, SIZE_MAX)` on any allocator with room left returns the current cursor without advancing it, and the next allocation returns the same address | refuse any request whose rounded size does not fit, so that successful allocations never overlap | high (not executed) | `Arena.AllocAsWritten`, `Arena.AllocAsWrittenGrantsOversizedRequest` | `Arena.Alloc`, `Arena.TilesDisjoint` |
