/**
 * The GameWorld of src/entities.c: one player, fixed-size enemy and projectile
 * pools with live counts, and the decoration array. The factory functions,
 * collision resolution, compaction and the frame update change the pools in
 * place; their effect on the live prefixes is tied to the value-level rules of
 * module Entities.
 */
module World {
  import opened Wrappers
  import opened Seqs
  import opened Entities
  import opened SpriteLayout
  import SpriteOps

  /**
   * Capacity of the decoration array. include/entities.h declares no such
   * array although src/entities.c fills 200 slots of it; any capacity of at
   * least 200 fits, and 8192 is taken here.
   */
  const MAX_DECORATIONS: nat := 8192
  /** init_game_world places this many decorations on a grid. */
  const GRID_DECORATIONS: nat := 200
  /** Decorations per grid row. */
  const GRID_COLUMNS: nat := 30
  /** Distance between neighbouring decorations, and the margin of the first one. */
  const GRID_SPACING: real := 40.0
  const GRID_MARGIN: real := 20.0
  /** Side of every decoration. */
  const DECORATION_SIZE: real := 32.0
  /** Side of the player's and the enemies' boxes. */
  const BODY_SIZE: real := 32.0
  /** Side of a projectile's box. */
  const PROJECTILE_SIZE: real := 8.0

  /** layerIndex drawn from one rand() result: rand() % 4. */
  function LayerOf(roll: nat): (r: real)
    ensures r == 0.0 || r == 1.0 || r == 2.0 || r == 3.0
  {
    (roll % 4) as real
  }

  /** Parallax factor drawn from one rand() result: 1 - (rand() % 2) * 0.5. */
  function ParallaxOf(roll: nat): (r: real)
    ensures r == 1.0 || r == 0.5
  {
    1.0 - ((roll % 2) as real) * 0.5
  }

  /** The box a decoration occupies on screen. */
  function Box(s: Sprite): Transform
  {
    Transform(s.position.x, s.position.y, s.size.x, s.size.y)
  }

  /**
   * Decoration i of init_game_world: 32x32 at column i % 30, row i / 30 of a
   * grid with 40-unit spacing and a 20-unit margin, the first eighth of the
   * atlas, its layer and parallax drawn from the two rolls, and the parallax
   * also passed as the z-index.
   */
  function GridDecoration(i: nat, layerRoll: nat, parallaxRoll: nat): (s: Sprite)
    ensures s.position == Vec2(GRID_MARGIN + ((i % GRID_COLUMNS) as real) * GRID_SPACING,
                               GRID_MARGIN + ((i / GRID_COLUMNS) as real) * GRID_SPACING)
    ensures s.size == Vec2(DECORATION_SIZE, DECORATION_SIZE) && s.rotation == 0.0
    ensures s.uvStart == Vec2(0.0, 0.0) && s.uvEnd == Vec2(1.0 / 8.0, 1.0 / 8.0)
    ensures s.layerIndex in {0.0, 1.0, 2.0, 3.0}
    ensures s.parallaxFactorX in {0.5, 1.0}
    ensures s.parallaxFactorY == s.parallaxFactorX && s.zIndex == s.parallaxFactorX
    ensures s.padding2 == 0.0
  {
    var parallax := ParallaxOf(parallaxRoll);
    Sprite(Vec2(0.0, 0.0), Vec2(1.0 / 8.0, 1.0 / 8.0), LayerOf(layerRoll), parallax,
           Vec2(GRID_MARGIN + ((i % GRID_COLUMNS) as real) * GRID_SPACING,
                GRID_MARGIN + ((i / GRID_COLUMNS) as real) * GRID_SPACING),
           Vec2(DECORATION_SIZE, DECORATION_SIZE), 0.0, parallax, parallax, 0.0)
  }

  /** Two different integers are at least 40 units apart once scaled by the grid spacing. */
  lemma SpacedApart(a: int, b: int)
    requires a != b
    ensures (a as real) * GRID_SPACING + DECORATION_SIZE < (b as real) * GRID_SPACING
         || (b as real) * GRID_SPACING + DECORATION_SIZE < (a as real) * GRID_SPACING
  {
    if a < b {
      assert (a as real) + 1.0 <= b as real;
    } else {
      assert (b as real) + 1.0 <= a as real;
    }
  }

  /** No two decorations of the initial grid overlap, whatever the rolls. */
  lemma GridDecorationsApart(i: nat, j: nat, li: nat, pi: nat, lj: nat, pj: nat)
    requires i != j
    ensures !CheckCollision(Box(GridDecoration(i, li, pi)), Box(GridDecoration(j, lj, pj)))
  {
    if i % GRID_COLUMNS != j % GRID_COLUMNS {
      SpacedApart(i % GRID_COLUMNS, j % GRID_COLUMNS);
    } else {
      assert i / GRID_COLUMNS != j / GRID_COLUMNS;
      SpacedApart(i / GRID_COLUMNS, j / GRID_COLUMNS);
    }
  }

  class GameWorld {
    var player: Player
    var enemies: array<Enemy>
    var enemyCount: nat
    var projectiles: array<Projectile>
    var projectileCount: nat
    var decorations: array<Sprite>
    var decorationCount: nat

    ghost predicate Valid()
      reads this
    {
      && enemies.Length == MAX_ENEMIES && enemyCount <= MAX_ENEMIES
      && projectiles.Length == MAX_PROJECTILES && projectileCount <= MAX_PROJECTILES
      && decorations.Length == MAX_DECORATIONS && decorationCount <= MAX_DECORATIONS
    }

    /** The live prefixes of the two pools. */
    ghost function Live(): Pools
      reads this, enemies, projectiles
      requires Valid()
    {
      Pools(projectiles[..projectileCount], enemies[..enemyCount])
    }

    /**
     * init_game_world: everything zeroed (memset), then 200 decorations placed
     * on the grid. The two rand() calls per decoration are the given rolls.
     */
    constructor Init(layerRolls: seq<nat>, parallaxRolls: seq<nat>)
      requires |layerRolls| == GRID_DECORATIONS && |parallaxRolls| == GRID_DECORATIONS
      ensures Valid() && fresh(enemies) && fresh(projectiles) && fresh(decorations)
      ensures player == ZeroPlayer && enemyCount == 0 && projectileCount == 0
      ensures forall k :: 0 <= k < MAX_ENEMIES ==> enemies[k] == ZeroEnemy
      ensures forall k :: 0 <= k < MAX_PROJECTILES ==> projectiles[k] == ZeroProjectile
      ensures decorationCount == GRID_DECORATIONS
      ensures forall k :: 0 <= k < GRID_DECORATIONS ==>
                decorations[k] == GridDecoration(k, layerRolls[k], parallaxRolls[k])
      ensures forall k :: GRID_DECORATIONS <= k < MAX_DECORATIONS ==> decorations[k] == ZeroSprite
    {
      var decs := new Sprite[MAX_DECORATIONS](_ => ZeroSprite);
      for i := 0 to GRID_DECORATIONS
        invariant forall k :: 0 <= k < i ==> decs[k] == GridDecoration(k, layerRolls[k], parallaxRolls[k])
        invariant forall k :: i <= k < MAX_DECORATIONS ==> decs[k] == ZeroSprite
      {
        var px, py := i % GRID_COLUMNS, i / GRID_COLUMNS;
        var layerIndex := LayerOf(layerRolls[i]);
        var parallax := ParallaxOf(parallaxRolls[i]);
        SpriteOps.SpriteInit(decs, i, GRID_MARGIN + (px as real) * GRID_SPACING,
                             GRID_MARGIN + (py as real) * GRID_SPACING, DECORATION_SIZE, DECORATION_SIZE,
                             Vec2(0.0, 0.0), Vec2(1.0 / 8.0, 1.0 / 8.0), layerIndex, parallax, parallax, parallax);
      }
      player := ZeroPlayer;
      enemies := new Enemy[MAX_ENEMIES](_ => ZeroEnemy);
      enemyCount := 0;
      projectiles := new Projectile[MAX_PROJECTILES](_ => ZeroProjectile);
      projectileCount := 0;
      decorations := decs;
      decorationCount := GRID_DECORATIONS;
    }

    /** create_player: the single player slot always succeeds. */
    method CreatePlayer(x: real, y: real)
      modifies this`player
      ensures player == Player(Transform(x, y, BODY_SIZE, BODY_SIZE), 200.0, 100, true)
    {
      player := Player(Transform(x, y, BODY_SIZE, BODY_SIZE), 200.0, 100, true);
    }

    /**
     * create_enemy: refuses (None, nothing changes) when the pool is full;
     * otherwise fills the first free slot and returns its index.
     */
    method CreateEnemy(x: real, y: real) returns (slot: Option<nat>)
      requires Valid()
      modifies this`enemyCount, enemies
      ensures Valid()
      ensures old(enemyCount) >= MAX_ENEMIES ==>
        slot == None && enemyCount == old(enemyCount) && enemies[..] == old(enemies[..])
      ensures old(enemyCount) < MAX_ENEMIES ==>
        && slot == Some(old(enemyCount))
        && enemyCount == old(enemyCount) + 1
        && enemies[..] == old(enemies[..])[old(enemyCount) :=
             Enemy(Transform(x, y, BODY_SIZE, BODY_SIZE), 100.0, 10, 100.0, x, true)]
    {
      if enemyCount >= MAX_ENEMIES {
        return None;
      }
      enemies[enemyCount] := Enemy(Transform(x, y, BODY_SIZE, BODY_SIZE), 100.0, 10, 100.0, x, true);
      slot := Some(enemyCount);
      enemyCount := enemyCount + 1;
    }

    /**
     * create_projectile: refuses (None, nothing changes) when the pool is
     * full; otherwise fills the first free slot and returns its index.
     */
    method CreateProjectile(x: real, y: real, dirX: real, dirY: real) returns (slot: Option<nat>)
      requires Valid()
      modifies this`projectileCount, projectiles
      ensures Valid()
      ensures old(projectileCount) >= MAX_PROJECTILES ==>
        slot == None && projectileCount == old(projectileCount) && projectiles[..] == old(projectiles[..])
      ensures old(projectileCount) < MAX_PROJECTILES ==>
        && slot == Some(old(projectileCount))
        && projectileCount == old(projectileCount) + 1
        && projectiles[..] == old(projectiles[..])[old(projectileCount) :=
             Projectile(Transform(x, y, PROJECTILE_SIZE, PROJECTILE_SIZE), 300.0, dirX, dirY, 20, true)]
    {
      if projectileCount >= MAX_PROJECTILES {
        return None;
      }
      projectiles[projectileCount] :=
        Projectile(Transform(x, y, PROJECTILE_SIZE, PROJECTILE_SIZE), 300.0, dirX, dirY, 20, true);
      slot := Some(projectileCount);
      projectileCount := projectileCount + 1;
    }

    /**
     * handle_collisions: each active projectile, in index order, scans the
     * enemies in index order and, at the first active one it overlaps,
     * switches both off and stops scanning.
     */
    method HandleCollisions()
      requires Valid()
      modifies enemies, projectiles
      ensures Live() == Collide(old(Live()))
      ensures enemies[enemyCount..] == old(enemies[enemyCount..])
      ensures projectiles[projectileCount..] == old(projectiles[projectileCount..])
    {
      for i := 0 to projectileCount
        invariant Live() == CollideUpTo(old(Live()), i)
        invariant enemies[enemyCount..] == old(enemies[enemyCount..])
        invariant projectiles[projectileCount..] == old(projectiles[projectileCount..])
      {
        ProjectileTurn(i);
      }
    }

    /** One pass of the outer loop of handle_collisions: the turn of projectile i. */
    method ProjectileTurn(i: nat)
      requires Valid() && i < projectileCount
      modifies enemies, projectiles
      ensures Live() == CollideStep(old(Live()), i)
      ensures enemies[enemyCount..] == old(enemies[enemyCount..])
      ensures projectiles[projectileCount..] == old(projectiles[projectileCount..])
    {
      ghost var before := Live();
      if !projectiles[i].is_active {
        return;
      }
      for j := 0 to enemyCount
        invariant Live() == before
        invariant forall m :: 0 <= m < j ==> !Hits(projectiles[i].transform, enemies[m])
      {
        if !enemies[j].is_active {
          continue;
        }
        if CheckCollision(projectiles[i].transform, enemies[j].transform) {
          assert FirstHit(projectiles[i].transform, before.enemies) == j;
          projectiles[i] := projectiles[i].(is_active := false);
          enemies[j] := enemies[j].(is_active := false);
          assert projectiles[..projectileCount] == before.projectiles[i := Deactivated(before.projectiles[i])];
          assert enemies[..enemyCount] == before.enemies[j := Killed(before.enemies[j])];
          return;
        }
      }
    }

    /**
     * remove_inactive_entities: both pools are compacted in place, keeping
     * the active entries in their relative order; each count becomes the
     * number of entries that were active.
     */
    method RemoveInactiveEntities()
      requires Valid()
      modifies this`enemyCount, this`projectileCount, enemies, projectiles
      ensures Valid()
      ensures Live() == Compacted(old(Live()))
      ensures enemyCount == ActiveEnemies(old(Live())) && projectileCount == ActiveProjectiles(old(Live()))
    {
      ghost var w := Live();
      FilterLength(w.enemies, EnemyActive);
      FilterLength(w.projectiles, ProjectileActive);
      enemyCount := Compact(enemies, enemyCount, EnemyActive);
      projectileCount := Compact(projectiles, projectileCount, ProjectileActive);
    }

    /**
     * The two movement loops of update_game_world: every live enemy takes its
     * patrol step, then every live projectile its flight step.
     */
    method MoveEntities(deltaTime: real)
      requires Valid()
      modifies enemies, projectiles
      ensures Live() == Pools(MoveProjectiles(old(Live()).projectiles, deltaTime),
                              MoveEnemies(old(Live()).enemies, deltaTime))
    {
      ghost var w := Live();
      for i := 0 to enemyCount
        modifies enemies
        invariant forall k :: 0 <= k < i ==> enemies[k] == EnemyStep(w.enemies[k], deltaTime)
        invariant forall k :: i <= k < enemies.Length ==> enemies[k] == old(enemies[k])
      {
        enemies[i] := EnemyStep(enemies[i], deltaTime);
      }
      for i := 0 to projectileCount
        modifies projectiles
        invariant forall k :: 0 <= k < i ==> projectiles[k] == ProjectileStep(w.projectiles[k], deltaTime)
        invariant forall k :: i <= k < projectiles.Length ==> projectiles[k] == old(projectiles[k])
      {
        projectiles[i] := ProjectileStep(projectiles[i], deltaTime);
      }
      assert enemies[..enemyCount] == MoveEnemies(w.enemies, deltaTime);
      assert projectiles[..projectileCount] == MoveProjectiles(w.projectiles, deltaTime);
    }

    /**
     * update_game_world: the player update (an empty body in the source),
     * then every live enemy, then every live projectile, then collisions on
     * the moved boxes, then compaction. Afterwards the pools are no larger,
     * hold only active entries, and no projectile overlaps an enemy.
     */
    method UpdateGameWorld(deltaTime: real)
      requires Valid()
      modifies this`enemyCount, this`projectileCount, enemies, projectiles
      ensures Valid() && player == old(player)
      ensures Live() == Frame(old(Live()), deltaTime)
      ensures enemyCount <= old(enemyCount) && projectileCount <= old(projectileCount)
      ensures Settled(Live())
    {
      ghost var w := Live();
      MoveEntities(deltaTime);
      HandleCollisions();
      RemoveInactiveEntities();
      FrameProperties(w, deltaTime);
    }
  }
}
