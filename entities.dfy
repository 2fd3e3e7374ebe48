/**
 * The entity records of include/entities.h and the value-level rules of
 * src/entities.c: how one enemy or projectile moves in a frame, the strict
 * AABB overlap test, first-match collision resolution between the projectile
 * and enemy pools, and the frame as a whole (move, collide, compact).
 * Coordinates are C floats; here they are exact reals.
 */
module Entities {
  import opened Seqs

  const MAX_ENEMIES: nat := 50
  const MAX_PROJECTILES: nat := 100

  /** The screen rectangle outside which a projectile is switched off. */
  const SCREEN_WIDTH: real := 800.0
  const SCREEN_HEIGHT: real := 600.0

  datatype Transform = Transform(x: real, y: real, width: real, height: real)

  datatype Player = Player(transform: Transform, speed: real, health: int, is_active: bool)

  datatype Enemy = Enemy(
    transform: Transform,
    speed: real,
    damage: int,
    patrol_range: real,
    patrol_start_x: real,
    is_active: bool)

  datatype Projectile = Projectile(
    transform: Transform,
    speed: real,
    direction_x: real,
    direction_y: real,
    damage: int,
    is_active: bool)

  const ZeroTransform := Transform(0.0, 0.0, 0.0, 0.0)
  /** The records as memset leaves them. */
  const ZeroPlayer := Player(ZeroTransform, 0.0, 0, false)
  const ZeroEnemy := Enemy(ZeroTransform, 0.0, 0, 0.0, 0.0, false)
  const ZeroProjectile := Projectile(ZeroTransform, 0.0, 0.0, 0.0, 0, false)

  function Abs(r: real): real
  {
    if r < 0.0 then -r else r
  }

  /** A box with positive width and height. */
  predicate Proper(t: Transform)
  {
    t.width > 0.0 && t.height > 0.0
  }

  /** The two open intervals (lo1, hi1) and (lo2, hi2) share a point. */
  predicate OpenIntervalsMeet(lo1: real, hi1: real, lo2: real, hi2: real)
  {
    (if lo1 < lo2 then lo2 else lo1) < (if hi1 < hi2 then hi1 else hi2)
  }

  /**
   * check_collision: the boxes overlap with strict inequalities on all four
   * sides, so boxes that only share an edge do not collide. For boxes of
   * positive size this is: the open x-extents meet and the open y-extents
   * meet.
   */
  predicate CheckCollision(a: Transform, b: Transform)
    ensures Proper(a) && Proper(b) ==>
      (CheckCollision(a, b) <==>
         OpenIntervalsMeet(a.x, a.x + a.width, b.x, b.x + b.width) &&
         OpenIntervalsMeet(a.y, a.y + a.height, b.y, b.y + b.height))
    ensures a.x + a.width <= b.x || b.x + b.width <= a.x ==> !CheckCollision(a, b)
    ensures a.y + a.height <= b.y || b.y + b.height <= a.y ==> !CheckCollision(a, b)
  {
    a.x < b.x + b.width &&
    a.x + a.width > b.x &&
    a.y < b.y + b.height &&
    a.y + a.height > b.y
  }

  /** The overlap test does not depend on the order of its arguments. */
  lemma CollisionSymmetric(a: Transform, b: Transform)
    ensures CheckCollision(a, b) == CheckCollision(b, a)
  {
  }

  /**
   * update_enemy: an inactive enemy stays as it is. An active one reverses
   * its speed exactly when it has strayed more than patrol_range from where
   * its patrol started, then moves horizontally by the (new) speed times dt.
   */
  function EnemyStep(e: Enemy, dt: real): (r: Enemy)
    ensures !e.is_active ==> r == e
    ensures e.is_active ==>
      && (r.speed == if Abs(e.transform.x - e.patrol_start_x) > e.patrol_range then -e.speed else e.speed)
      && r.transform == e.transform.(x := e.transform.x + r.speed * dt)
      && r == e.(transform := r.transform, speed := r.speed)
  {
    if !e.is_active then e
    else
      var speed := if Abs(e.transform.x - e.patrol_start_x) > e.patrol_range then -e.speed else e.speed;
      e.(speed := speed, transform := e.transform.(x := e.transform.x + speed * dt))
  }

  /**
   * update_projectile: an inactive projectile stays as it is. An active one
   * moves by direction * speed * dt and stays active exactly when its new
   * position lies in [0, 800] x [0, 600], bounds included.
   */
  function ProjectileStep(p: Projectile, dt: real): (r: Projectile)
    ensures !p.is_active ==> r == p
    ensures p.is_active ==>
      && r.transform.x == p.transform.x + p.direction_x * p.speed * dt
      && r.transform.y == p.transform.y + p.direction_y * p.speed * dt
      && (r.is_active <==> 0.0 <= r.transform.x <= SCREEN_WIDTH && 0.0 <= r.transform.y <= SCREEN_HEIGHT)
      && r == p.(transform := r.transform, is_active := r.is_active)
  {
    if !p.is_active then p
    else
      var t := p.transform.(x := p.transform.x + p.direction_x * p.speed * dt,
                            y := p.transform.y + p.direction_y * p.speed * dt);
      var out := t.x < 0.0 || t.x > SCREEN_WIDTH || t.y < 0.0 || t.y > SCREEN_HEIGHT;
      p.(transform := t, is_active := if out then false else p.is_active)
  }

  /** Every enemy of the pool after its update. */
  function MoveEnemies(es: seq<Enemy>, dt: real): (r: seq<Enemy>)
    ensures |r| == |es| && forall k :: 0 <= k < |es| ==> r[k] == EnemyStep(es[k], dt)
  {
    seq(|es|, k requires 0 <= k < |es| => EnemyStep(es[k], dt))
  }

  /** Every projectile of the pool after its update. */
  function MoveProjectiles(ps: seq<Projectile>, dt: real): (r: seq<Projectile>)
    ensures |r| == |ps| && forall k :: 0 <= k < |ps| ==> r[k] == ProjectileStep(ps[k], dt)
  {
    seq(|ps|, k requires 0 <= k < |ps| => ProjectileStep(ps[k], dt))
  }

  /** An enemy a projectile with box `t` can hit: active and overlapping. */
  predicate Hits(t: Transform, e: Enemy)
  {
    e.is_active && CheckCollision(t, e.transform)
  }

  /** The lowest index of an enemy that `t` hits, or |es| when there is none. */
  function FirstHit(t: Transform, es: seq<Enemy>): (k: nat)
    ensures k <= |es|
    ensures k < |es| ==> Hits(t, es[k])
    ensures forall m :: 0 <= m < k ==> !Hits(t, es[m])
    decreases |es|
  {
    if es == [] then 0 else if Hits(t, es[0]) then 0 else 1 + FirstHit(t, es[1..])
  }

  /** The two pools as collision resolution sees them. */
  datatype Pools = Pools(projectiles: seq<Projectile>, enemies: seq<Enemy>)

  function Deactivated(p: Projectile): Projectile { p.(is_active := false) }
  function Killed(e: Enemy): Enemy { e.(is_active := false) }

  /**
   * The turn of projectile i in handle_collisions: if it is still active, it
   * and the first enemy it hits (if any) are both switched off.
   */
  function CollideStep(w: Pools, i: nat): (r: Pools)
    requires i < |w.projectiles|
    ensures OnlyDeactivates(w, r)
    ensures r.projectiles[i].is_active ==>
      forall k :: 0 <= k < |r.enemies| ==> !Hits(r.projectiles[i].transform, r.enemies[k])
  {
    var p := w.projectiles[i];
    if !p.is_active then w
    else
      var k := FirstHit(p.transform, w.enemies);
      if k == |w.enemies| then w
      else Pools(w.projectiles[i := Deactivated(p)], w.enemies[k := Killed(w.enemies[k])])
  }

  /** handle_collisions after the turns of projectiles 0 .. n-1. */
  function CollideUpTo(w: Pools, n: nat): (r: Pools)
    requires n <= |w.projectiles|
    ensures |r.projectiles| == |w.projectiles| && |r.enemies| == |w.enemies|
    decreases n
  {
    if n == 0 then w else CollideStep(CollideUpTo(w, n - 1), n - 1)
  }

  /** handle_collisions: every projectile takes its turn, in index order. */
  function Collide(w: Pools): (r: Pools)
    ensures OnlyDeactivates(w, r)
    ensures NoLiveOverlap(r, |w.projectiles|)
  {
    CollideUpToSwitchesPairs(w, |w.projectiles|);
    CollideUpToLeavesNoOverlap(w, |w.projectiles|);
    CollideUpTo(w, |w.projectiles|)
  }

  /** `b` differs from `a` at most in is_active flags, and only by switching them off. */
  predicate OnlyDeactivates(a: Pools, b: Pools)
  {
    && |b.projectiles| == |a.projectiles| && |b.enemies| == |a.enemies|
    && (forall k :: 0 <= k < |a.projectiles| ==>
          b.projectiles[k] == a.projectiles[k].(is_active := b.projectiles[k].is_active)
          && (b.projectiles[k].is_active ==> a.projectiles[k].is_active))
    && (forall k :: 0 <= k < |a.enemies| ==>
          b.enemies[k] == a.enemies[k].(is_active := b.enemies[k].is_active)
          && (b.enemies[k].is_active ==> a.enemies[k].is_active))
  }

  function ProjectileActive(p: Projectile): bool { p.is_active }
  function EnemyActive(e: Enemy): bool { e.is_active }

  /** How many projectiles and enemies of the pools are active. */
  function ActiveProjectiles(w: Pools): nat { Count(w.projectiles, ProjectileActive) }
  function ActiveEnemies(w: Pools): nat { Count(w.enemies, EnemyActive) }

  /** Count drops by one when one active entry is switched off. */
  lemma {:induction false} CountAfterSwitchOff<T>(s: seq<T>, k: nat, x: T, keep: T -> bool)
    requires k < |s| && keep(s[k]) && !keep(x)
    ensures Count(s[k := x], keep) + 1 == Count(s, keep)
    decreases |s|
  {
    if k > 0 {
      assert s[k := x][1..] == s[1..][k - 1 := x];
      CountAfterSwitchOff(s[1..], k - 1, x, keep);
    }
  }

  /**
   * Resolution only switches flags off, and it switches off exactly as many
   * enemies as projectiles: each projectile removes at most one enemy, and
   * only by being removed itself.
   */
  lemma {:induction false} CollideUpToSwitchesPairs(w: Pools, n: nat)
    requires n <= |w.projectiles|
    ensures OnlyDeactivates(w, CollideUpTo(w, n))
    ensures ActiveProjectiles(w) - ActiveProjectiles(CollideUpTo(w, n))
         == ActiveEnemies(w) - ActiveEnemies(CollideUpTo(w, n))
    ensures ActiveProjectiles(CollideUpTo(w, n)) <= ActiveProjectiles(w)
    decreases n
  {
    if n > 0 {
      CollideUpToSwitchesPairs(w, n - 1);
      var v := CollideUpTo(w, n - 1);
      var i := n - 1;
      var p := v.projectiles[i];
      if p.is_active {
        var k := FirstHit(p.transform, v.enemies);
        if k < |v.enemies| {
          CountAfterSwitchOff(v.projectiles, i, Deactivated(p), ProjectileActive);
          CountAfterSwitchOff(v.enemies, k, Killed(v.enemies[k]), EnemyActive);
        }
      }
    }
  }

  /** None of the first n projectiles that is active overlaps an active enemy. */
  predicate NoLiveOverlap(w: Pools, n: nat)
    requires n <= |w.projectiles|
  {
    forall i, k :: 0 <= i < n && 0 <= k < |w.enemies| && w.projectiles[i].is_active ==>
      !Hits(w.projectiles[i].transform, w.enemies[k])
  }

  /**
   * After the turns of projectiles 0 .. n-1, none of them that is still
   * active overlaps any enemy that is still active.
   */
  lemma {:induction false} CollideUpToLeavesNoOverlap(w: Pools, n: nat)
    requires n <= |w.projectiles|
    ensures NoLiveOverlap(CollideUpTo(w, n), n)
    decreases n
  {
    if n > 0 {
      CollideUpToLeavesNoOverlap(w, n - 1);
      var v := CollideUpTo(w, n - 1);
      var r := CollideUpTo(w, n);
      assert r == CollideStep(v, n - 1);
      var p := v.projectiles[n - 1];
      var hit := FirstHit(p.transform, v.enemies);
      forall i, k | 0 <= i < n && 0 <= k < |r.enemies| && r.projectiles[i].is_active
        ensures !Hits(r.projectiles[i].transform, r.enemies[k])
      {
        if i < n - 1 {
          assert r.projectiles[i] == v.projectiles[i];
          assert v.projectiles[i].is_active;
          if r.enemies[k].is_active {
            assert r.enemies[k] == v.enemies[k];
            assert !Hits(v.projectiles[i].transform, v.enemies[k]);
          }
        } else {
          assert p.is_active && hit == |v.enemies| && r == v;
        }
      }
    }
  }

  /**
   * handle_collisions as a whole: only is_active flags change, and only to
   * false; as many enemies as projectiles are switched off; and afterwards no
   * active projectile overlaps an active enemy.
   */
  lemma CollideProperties(w: Pools)
    ensures OnlyDeactivates(w, Collide(w))
    ensures ActiveProjectiles(w) - ActiveProjectiles(Collide(w)) == ActiveEnemies(w) - ActiveEnemies(Collide(w))
    ensures NoLiveOverlap(Collide(w), |w.projectiles|)
  {
    CollideUpToSwitchesPairs(w, |w.projectiles|);
    CollideUpToLeavesNoOverlap(w, |w.projectiles|);
  }

  /** remove_inactive_entities on both pools: the active entries, in order. */
  function Compacted(w: Pools): (r: Pools)
    ensures |r.projectiles| == ActiveProjectiles(w) <= |w.projectiles|
    ensures |r.enemies| == ActiveEnemies(w) <= |w.enemies|
    ensures forall k :: 0 <= k < |r.projectiles| ==> r.projectiles[k].is_active
    ensures forall k :: 0 <= k < |r.enemies| ==> r.enemies[k].is_active
  {
    FilterLength(w.projectiles, ProjectileActive);
    FilterLength(w.enemies, EnemyActive);
    Pools(Filter(w.projectiles, ProjectileActive), Filter(w.enemies, EnemyActive))
  }

  /**
   * update_game_world on the pools: enemies move, projectiles move, collisions
   * are resolved on the moved boxes, and inactive entries are compacted away.
   */
  function Frame(w: Pools, dt: real): (r: Pools)
    ensures |r.projectiles| <= |w.projectiles| && |r.enemies| <= |w.enemies|
    ensures forall k :: 0 <= k < |r.projectiles| ==> r.projectiles[k].is_active
    ensures forall k :: 0 <= k < |r.enemies| ==> r.enemies[k].is_active
  {
    Compacted(Collide(Pools(MoveProjectiles(w.projectiles, dt), MoveEnemies(w.enemies, dt))))
  }

  /** Every entry is active and no projectile overlaps an enemy. */
  predicate Settled(w: Pools)
  {
    && (forall k :: 0 <= k < |w.projectiles| ==> w.projectiles[k].is_active)
    && (forall k :: 0 <= k < |w.enemies| ==> w.enemies[k].is_active)
    && (forall i, k :: 0 <= i < |w.projectiles| && 0 <= k < |w.enemies| ==>
          !CheckCollision(w.projectiles[i].transform, w.enemies[k].transform))
  }

  /**
   * After a frame: neither pool grows, every entry left is active, and no
   * projectile left overlaps an enemy left.
   */
  lemma FrameProperties(w: Pools, dt: real)
    ensures var r := Frame(w, dt);
      |r.projectiles| <= |w.projectiles| && |r.enemies| <= |w.enemies| && Settled(r)
  {
    var moved := Pools(MoveProjectiles(w.projectiles, dt), MoveEnemies(w.enemies, dt));
    var c := Collide(moved);
    var r := Frame(w, dt);
    CollideProperties(moved);
    forall i, k | 0 <= i < |r.projectiles| && 0 <= k < |r.enemies|
      ensures !CheckCollision(r.projectiles[i].transform, r.enemies[k].transform)
    {
      var p, e := r.projectiles[i], r.enemies[k];
      FilterMembers(c.projectiles, ProjectileActive, p);
      FilterMembers(c.enemies, EnemyActive, e);
      var i' :| 0 <= i' < |c.projectiles| && c.projectiles[i'] == p;
      var k' :| 0 <= k' < |c.enemies| && c.enemies[k'] == e;
      assert !Hits(p.transform, e);
    }
  }

  /**
   * Compaction keeps exactly the active entries, as many as were active,
   * in their original relative order.
   */
  lemma CompactedProperties(w: Pools, more: Pools)
    ensures |Compacted(w).projectiles| == ActiveProjectiles(w)
    ensures |Compacted(w).enemies| == ActiveEnemies(w)
    ensures Compacted(Pools(w.projectiles + more.projectiles, w.enemies + more.enemies))
         == Pools(Compacted(w).projectiles + Compacted(more).projectiles,
                  Compacted(w).enemies + Compacted(more).enemies)
  {
    FilterLength(w.projectiles, ProjectileActive);
    FilterLength(w.enemies, EnemyActive);
    FilterAppend(w.projectiles, more.projectiles, ProjectileActive);
    FilterAppend(w.enemies, more.enemies, EnemyActive);
  }
}
