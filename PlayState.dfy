// The gameplay state: one frame of the survival game (timers award points,
// enemies and power-ups spawn, move and collide with the player's cursor),
// the checkpoint snapshot behind "Continue from Save", and the game-session
// requests sent to the server through the state's AuthNetworkManager.
module Play {
  import opened Common
  import opened Json
  import opened AuthNetwork

  datatype Enemy = Enemy(x: real, y: real, vx: real, vy: real, kind: int, active: bool, size: real)

  datatype PowerUp = PowerUp(x: real, y: real, active: bool, kind: int, pulseTime: real)

  const ScreenWidth: real := 1280.0
  const ScreenHeight: real := 720.0
  const PlayerRadius: real := 8.0
  const PowerUpRadius: real := 20.0
  const LeaderboardInterval: real := 0.5
  const SkillPointInterval: real := 1.0
  const SaveInterval: real := 5.0
  const StartingLives: int := 3

  // ---------------------------------------------------------------------
  // Collisions
  // ---------------------------------------------------------------------

  /** Two circles overlap: their distance is below the sum of the radii (compared as squares). */
  predicate CircleCollision(x1: real, y1: real, r1: real, x2: real, y2: real, r2: real)
  {
    var dx := x1 - x2;
    var dy := y1 - y2;
    0.0 < r1 + r2 && dx * dx + dy * dy < (r1 + r2) * (r1 + r2)
  }

  /** The squared test agrees with comparing the Euclidean distance to r1 + r2. */
  lemma CollisionIsDistanceTest(x1: real, y1: real, r1: real, x2: real, y2: real, r2: real, distance: real)
    requires distance >= 0.0
    requires distance * distance == (x1 - x2) * (x1 - x2) + (y1 - y2) * (y1 - y2)
    ensures CircleCollision(x1, y1, r1, x2, y2, r2) <==> distance < r1 + r2
  {
    var s := r1 + r2;
    if 0.0 < s {
      if distance < s {
        calc {
          distance * distance;
        <= distance * s;
        < s * s;
        }
      } else {
        calc {
          s * s;
        <= s * distance;
        <= distance * distance;
        }
      }
    }
  }

  predicate EnemyHit(e: Enemy, px: real, py: real)
  {
    e.active && CircleCollision(px, py, PlayerRadius, e.x, e.y, e.size / 2.0)
  }

  predicate PowerUpHit(p: PowerUp, px: real, py: real)
  {
    p.active && CircleCollision(px, py, PlayerRadius, p.x, p.y, PowerUpRadius)
  }

  /** An enemy after the collision test: deactivated when it was hit. */
  function MarkEnemy(e: Enemy, px: real, py: real): Enemy
  {
    if EnemyHit(e, px, py) then e.(active := false) else e
  }

  /** Marking changes only the flag, and leaves active exactly the active enemies that were not hit. */
  lemma MarkEnemyDeactivatesHits(e: Enemy, px: real, py: real)
    ensures MarkEnemy(e, px, py).active <==> e.active && !EnemyHit(e, px, py)
    ensures MarkEnemy(e, px, py).(active := e.active) == e
  {
  }

  /** A power-up after the collision test: deactivated when it was collected. */
  function MarkPowerUp(p: PowerUp, px: real, py: real): PowerUp
  {
    if PowerUpHit(p, px, py) then p.(active := false) else p
  }

  /** Marking changes only the flag, and leaves active exactly the active power-ups that were not collected. */
  lemma MarkPowerUpDeactivatesHits(p: PowerUp, px: real, py: real)
    ensures MarkPowerUp(p, px, py).active <==> p.active && !PowerUpHit(p, px, py)
    ensures MarkPowerUp(p, px, py).(active := p.active) == p
  {
  }

  // ---------------------------------------------------------------------
  // Erasing the inactive elements
  // ---------------------------------------------------------------------

  const IsActiveEnemy: Enemy -> bool := (e: Enemy) => e.active
  const IsActivePowerUp: PowerUp -> bool := (p: PowerUp) => p.active

  /** The active enemies, in their order: what erasing the inactive ones leaves. */
  function ActiveEnemies(s: seq<Enemy>): seq<Enemy>
  {
    if s == [] then [] else ActiveEnemies(s[..|s| - 1]) + (if s[|s| - 1].active then [s[|s| - 1]] else [])
  }

  /** The active power-ups, in their order. */
  function ActivePowerUps(s: seq<PowerUp>): seq<PowerUp>
  {
    if s == [] then [] else ActivePowerUps(s[..|s| - 1]) + (if s[|s| - 1].active then [s[|s| - 1]] else [])
  }

  /** Erasing keeps exactly the active enemies: never more than there were, all active, and every active one. */
  lemma {:induction false} ActiveEnemiesKeepsExactly(s: seq<Enemy>)
    ensures |ActiveEnemies(s)| <= |s|
    ensures forall i :: 0 <= i < |ActiveEnemies(s)| ==> ActiveEnemies(s)[i].active
    ensures forall e :: e in ActiveEnemies(s) <==> e in s && e.active
    decreases |s|
  {
    if s != [] {
      var s' := s[..|s| - 1];
      ActiveEnemiesKeepsExactly(s');
      assert s == s' + [s[|s| - 1]];
    }
  }

  /** Erasing keeps exactly the active power-ups. */
  lemma {:induction false} ActivePowerUpsKeepsExactly(s: seq<PowerUp>)
    ensures |ActivePowerUps(s)| <= |s|
    ensures forall i :: 0 <= i < |ActivePowerUps(s)| ==> ActivePowerUps(s)[i].active
    ensures forall p :: p in ActivePowerUps(s) <==> p in s && p.active
    decreases |s|
  {
    if s != [] {
      var s' := s[..|s| - 1];
      ActivePowerUpsKeepsExactly(s');
      assert s == s' + [s[|s| - 1]];
    }
  }

  /** A list that is all active loses nothing. */
  lemma {:induction false} ActiveEnemiesOfActive(s: seq<Enemy>)
    requires forall i :: 0 <= i < |s| ==> s[i].active
    ensures ActiveEnemies(s) == s
    decreases |s|
  {
    if s != [] {
      ActiveEnemiesOfActive(s[..|s| - 1]);
      assert s == s[..|s| - 1] + [s[|s| - 1]];
    }
  }

  /** Erasing keeps the survivors in order: it distributes over concatenation. */
  lemma {:induction false} ActiveEnemiesAppend(a: seq<Enemy>, b: seq<Enemy>)
    ensures ActiveEnemies(a + b) == ActiveEnemies(a) + ActiveEnemies(b)
    decreases |b|
  {
    if b == [] {
      assert a + b == a;
    } else {
      var b' := b[..|b| - 1];
      assert (a + b)[..|a + b| - 1] == a + b';
      ActiveEnemiesAppend(a, b');
    }
  }

  /** The erase-remove idiom over the enemies is the generic Filter under the activity test. */
  lemma {:induction false} ActiveEnemiesIsFilter(s: seq<Enemy>)
    ensures ActiveEnemies(s) == Filter(s, IsActiveEnemy)
    decreases |s|
  {
    if s != [] {
      ActiveEnemiesIsFilter(s[..|s| - 1]);
    }
  }

  /** The erase-remove idiom over the power-ups is the generic Filter under the activity test. */
  lemma {:induction false} ActivePowerUpsIsFilter(s: seq<PowerUp>)
    ensures ActivePowerUps(s) == Filter(s, IsActivePowerUp)
    decreases |s|
  {
    if s != [] {
      ActivePowerUpsIsFilter(s[..|s| - 1]);
    }
  }

  // ---------------------------------------------------------------------
  // The collision pass over the lists
  // ---------------------------------------------------------------------

  /** The enemy list after the collision pass: every hit enemy is deactivated, in place. */
  function MarkEnemyHits(s: seq<Enemy>, px: real, py: real): (r: seq<Enemy>)
    ensures |r| == |s|
  {
    if s == [] then [] else MarkEnemyHits(s[..|s| - 1], px, py) + [MarkEnemy(s[|s| - 1], px, py)]
  }

  /** The power-up list after the collision pass: every collected power-up is deactivated, in place. */
  function MarkPowerUpHits(s: seq<PowerUp>, px: real, py: real): (r: seq<PowerUp>)
    ensures |r| == |s|
  {
    if s == [] then [] else MarkPowerUpHits(s[..|s| - 1], px, py) + [MarkPowerUp(s[|s| - 1], px, py)]
  }

  /** The enemies touching the player. */
  function EnemyHits(s: seq<Enemy>, px: real, py: real): nat
  {
    if s == [] then 0 else EnemyHits(s[..|s| - 1], px, py) + (if EnemyHit(s[|s| - 1], px, py) then 1 else 0)
  }

  /** The power-ups touching the player. */
  function PowerUpHits(s: seq<PowerUp>, px: real, py: real): nat
  {
    if s == [] then 0 else PowerUpHits(s[..|s| - 1], px, py) + (if PowerUpHit(s[|s| - 1], px, py) then 1 else 0)
  }

  /** Marking works in place: element i is element i marked. */
  lemma {:induction false} MarkEnemyHitsAt(s: seq<Enemy>, px: real, py: real)
    ensures forall i :: 0 <= i < |s| ==> MarkEnemyHits(s, px, py)[i] == MarkEnemy(s[i], px, py)
    decreases |s|
  {
    if s != [] {
      MarkEnemyHitsAt(s[..|s| - 1], px, py);
    }
  }

  /** Marking works in place: element i is element i marked. */
  lemma {:induction false} MarkPowerUpHitsAt(s: seq<PowerUp>, px: real, py: real)
    ensures forall i :: 0 <= i < |s| ==> MarkPowerUpHits(s, px, py)[i] == MarkPowerUp(s[i], px, py)
    decreases |s|
  {
    if s != [] {
      MarkPowerUpHitsAt(s[..|s| - 1], px, py);
    }
  }

  /** Each hit takes exactly one enemy out of the active ones. */
  lemma {:induction false} HitsDeactivateExactly(s: seq<Enemy>, px: real, py: real)
    ensures |ActiveEnemies(MarkEnemyHits(s, px, py))| + EnemyHits(s, px, py) == |ActiveEnemies(s)|
    decreases |s|
  {
    if s != [] {
      var s' := s[..|s| - 1];
      var m := MarkEnemyHits(s, px, py);
      assert m[..|m| - 1] == MarkEnemyHits(s', px, py);
      HitsDeactivateExactly(s', px, py);
    }
  }

  /** Each pick-up takes exactly one power-up out of the active ones. */
  lemma {:induction false} PickUpsDeactivateExactly(s: seq<PowerUp>, px: real, py: real)
    ensures |ActivePowerUps(MarkPowerUpHits(s, px, py))| + PowerUpHits(s, px, py) == |ActivePowerUps(s)|
    decreases |s|
  {
    if s != [] {
      var s' := s[..|s| - 1];
      var m := MarkPowerUpHits(s, px, py);
      assert m[..|m| - 1] == MarkPowerUpHits(s', px, py);
      PickUpsDeactivateExactly(s', px, py);
    }
  }

  /** After the collision pass no active enemy overlaps the player. */
  lemma NoActiveEnemyOverlaps(s: seq<Enemy>, px: real, py: real, i: int)
    requires 0 <= i < |s|
    requires MarkEnemyHits(s, px, py)[i].active
    ensures !CircleCollision(px, py, PlayerRadius, s[i].x, s[i].y, s[i].size / 2.0)
    ensures MarkEnemyHits(s, px, py)[i] == s[i]
  {
    MarkEnemyHitsAt(s, px, py);
  }

  // ---------------------------------------------------------------------
  // Spawning: the rand() values are parameters, reduced as the code does
  // ---------------------------------------------------------------------

  /** Raw rand() results, in the order the enemy spawner draws them. */
  datatype EnemyDraws = EnemyDraws(kind: nat, side: nat, first: nat, second: nat, third: nat)

  /** Raw rand() results, in the order the power-up spawner draws them. */
  datatype PowerUpDraws = PowerUpDraws(kind: nat, x: nat, y: nat)

  /** (rand() % 100 - 50) / 10.0f */
  function Jitter(draw: nat): (v: real)
    ensures -5.0 <= v < 5.0
  {
    ((draw % 100) as real - 50.0) / 10.0
  }

  /** 50.0f + rand() % 50 */
  function Speed(draw: nat): (v: real)
    ensures 50.0 <= v < 100.0
  {
    50.0 + (draw % 50) as real
  }

  predicate OnScreen(x: real, y: real) { 0.0 <= x <= ScreenWidth && 0.0 <= y <= ScreenHeight }

  /** Enemies outside this area are dropped. */
  predicate InKeepArea(x: real, y: real)
  {
    !(x < -100.0 || x > 1380.0 || y < -100.0 || y > 820.0)
  }

  /** PlayState::SpawnEnemies: a new enemy just outside one screen edge, heading inwards. */
  function SpawnEnemy(d: EnemyDraws): Enemy
  {
    var kind := d.kind % 4;
    var size := 20.0 + kind as real * 5.0;
    var side := d.side % 4;
    if side == 0 then
      Enemy((d.first % 1280) as real, -size, Jitter(d.second), Speed(d.third), kind, true, size)
    else if side == 1 then
      Enemy(ScreenWidth + size, (d.first % 720) as real, -Speed(d.second), Jitter(d.third), kind, true, size)
    else if side == 2 then
      Enemy((d.first % 1280) as real, ScreenHeight + size, Jitter(d.second), -Speed(d.third), kind, true, size)
    else
      Enemy(-size, (d.first % 720) as real, Speed(d.second), Jitter(d.third), kind, true, size)
  }

  /**
   * A spawned enemy is active, sized by its kind, just off screen but
   * inside the keep area, and heading into the screen across the edge it
   * waits behind.
   */
  lemma SpawnedEnemyEntersScreen(d: EnemyDraws)
    ensures var e := SpawnEnemy(d);
      && e.active && 0 <= e.kind < 4 && e.size == 20.0 + 5.0 * e.kind as real
      && !OnScreen(e.x, e.y) && InKeepArea(e.x, e.y)
      && (e.y < 0.0 ==> e.vy >= 50.0)
      && (e.y > ScreenHeight ==> e.vy <= -50.0)
      && (e.x < 0.0 ==> e.vx >= 50.0)
      && (e.x > ScreenWidth ==> e.vx <= -50.0)
  {
  }

  /** PlayState::SpawnPowerUps: a new power-up at least 100 pixels inside the screen. */
  function SpawnPowerUp(d: PowerUpDraws): PowerUp
  {
    PowerUp(100.0 + (d.x % 1080) as real, 100.0 + (d.y % 520) as real, true, d.kind % 3, 0.0)
  }

  /** A spawned power-up is active, of one of three kinds, and at least 100 pixels inside the screen. */
  lemma SpawnedPowerUpIsInside(d: PowerUpDraws)
    ensures var p := SpawnPowerUp(d);
      && p.active && 0 <= p.kind < 3 && p.pulseTime == 0.0
      && 100.0 <= p.x < ScreenWidth - 100.0 && 100.0 <= p.y < ScreenHeight - 100.0
  {
  }

  // ---------------------------------------------------------------------
  // Movement
  // ---------------------------------------------------------------------

  /**
   * One step of an enemy: steer towards the player, move, and deactivate
   * outside the keep area. unit(dx, dy) stands for (dx, dy) divided by its
   * Euclidean length; it is only used when the player is not exactly on
   * the enemy.
   */
  function MoveEnemy(e: Enemy, px: real, py: real, dt: real, unit: (real, real) -> (real, real)): Enemy
  {
    if !e.active then e
    else
      var dx := px - e.x;
      var dy := py - e.y;
      var vx := if dx != 0.0 || dy != 0.0 then e.vx + unit(dx, dy).0 * 20.0 * dt else e.vx;
      var vy := if dx != 0.0 || dy != 0.0 then e.vy + unit(dx, dy).1 * 20.0 * dt else e.vy;
      var x := e.x + vx * dt;
      var y := e.y + vy * dt;
      e.(x := x, y := y, vx := vx, vy := vy, active := InKeepArea(x, y))
  }

  /**
   * An inactive enemy does not move; an active one stays active exactly
   * when it lands in the keep area; kind and size never change; an enemy
   * on the player keeps its velocity.
   */
  lemma MoveEnemyCullsOutsideKeepArea(e: Enemy, px: real, py: real, dt: real, unit: (real, real) -> (real, real))
    ensures var m := MoveEnemy(e, px, py, dt, unit);
      && (!e.active ==> m == e)
      && (e.active ==> (m.active <==> InKeepArea(m.x, m.y)))
      && m.kind == e.kind && m.size == e.size
      && (e.active && e.x == px && e.y == py ==> m.vx == e.vx && m.vy == e.vy)
  {
  }

  /** Every enemy after the movement step, before the inactive ones are erased. */
  function MoveEnemies(s: seq<Enemy>, px: real, py: real, dt: real, unit: (real, real) -> (real, real)): (r: seq<Enemy>)
    ensures |r| == |s|
  {
    if s == [] then [] else MoveEnemies(s[..|s| - 1], px, py, dt, unit) + [MoveEnemy(s[|s| - 1], px, py, dt, unit)]
  }

  /** Movement works in place: element i is element i moved. */
  lemma {:induction false} MoveEnemiesAt(s: seq<Enemy>, px: real, py: real, dt: real, unit: (real, real) -> (real, real))
    ensures forall i :: 0 <= i < |s| ==> MoveEnemies(s, px, py, dt, unit)[i] == MoveEnemy(s[i], px, py, dt, unit)
    decreases |s|
  {
    if s != [] {
      MoveEnemiesAt(s[..|s| - 1], px, py, dt, unit);
    }
  }

  /** Movement distributes over concatenation. */
  lemma {:induction false} MoveEnemiesAppend(a: seq<Enemy>, b: seq<Enemy>, px: real, py: real, dt: real,
                                             unit: (real, real) -> (real, real))
    ensures MoveEnemies(a + b, px, py, dt, unit) == MoveEnemies(a, px, py, dt, unit) + MoveEnemies(b, px, py, dt, unit)
    decreases |b|
  {
    if b == [] {
      assert a + b == a;
    } else {
      var b' := b[..|b| - 1];
      assert (a + b)[..|a + b| - 1] == a + b';
      MoveEnemiesAppend(a, b', px, py, dt, unit);
    }
  }

  /** The enemy pass keeps exactly the moved enemies that are still active and in the keep area. */
  lemma EnemyPassKeepsExactly(s: seq<Enemy>, px: real, py: real, dt: real, unit: (real, real) -> (real, real), i: int)
    requires 0 <= i < |s|
    ensures MoveEnemy(s[i], px, py, dt, unit) in ActiveEnemies(MoveEnemies(s, px, py, dt, unit))
            <==> s[i].active && InKeepArea(MoveEnemy(s[i], px, py, dt, unit).x, MoveEnemy(s[i], px, py, dt, unit).y)
  {
    var moved := MoveEnemies(s, px, py, dt, unit);
    MoveEnemiesAt(s, px, py, dt, unit);
    assert moved[i] == MoveEnemy(s[i], px, py, dt, unit);
    ActiveEnemiesKeepsExactly(moved);
  }

  /** The enemy pass keeps the survivors in their original order: it distributes over concatenation. */
  lemma EnemyPassKeepsOrder(a: seq<Enemy>, b: seq<Enemy>, px: real, py: real, dt: real, unit: (real, real) -> (real, real))
    ensures ActiveEnemies(MoveEnemies(a + b, px, py, dt, unit))
         == ActiveEnemies(MoveEnemies(a, px, py, dt, unit)) + ActiveEnemies(MoveEnemies(b, px, py, dt, unit))
  {
    MoveEnemiesAppend(a, b, px, py, dt, unit);
    ActiveEnemiesAppend(MoveEnemies(a, px, py, dt, unit), MoveEnemies(b, px, py, dt, unit));
  }

  /** The pulse of an active power-up advances by dt. */
  function Pulse(p: PowerUp, dt: real): PowerUp
  {
    if p.active then p.(pulseTime := p.pulseTime + dt) else p
  }

  /** The power-ups after the pulse step. */
  function PulsePowerUps(s: seq<PowerUp>, dt: real): (r: seq<PowerUp>)
    ensures |r| == |s|
  {
    if s == [] then [] else PulsePowerUps(s[..|s| - 1], dt) + [Pulse(s[|s| - 1], dt)]
  }

  /** Pulsing works in place: element i is element i pulsed. */
  lemma {:induction false} PulsePowerUpsAt(s: seq<PowerUp>, dt: real)
    ensures forall i :: 0 <= i < |s| ==> PulsePowerUps(s, dt)[i] == Pulse(s[i], dt)
    decreases |s|
  {
    if s != [] {
      PulsePowerUpsAt(s[..|s| - 1], dt);
    }
  }

  /** Pulsing changes nothing but the pulse times, and advances exactly the active ones. */
  lemma PulseChangesOnlyPulseTimes(s: seq<PowerUp>, dt: real, i: int)
    requires 0 <= i < |s|
    ensures PulsePowerUps(s, dt)[i].(pulseTime := s[i].pulseTime) == s[i]
    ensures PulsePowerUps(s, dt)[i].pulseTime == if s[i].active then s[i].pulseTime + dt else s[i].pulseTime
  {
    PulsePowerUpsAt(s, dt);
  }

  // ---------------------------------------------------------------------
  // One running frame, as functions of the state before it
  // ---------------------------------------------------------------------

  /** The enemy list after the spawn check at game time t: one new enemy when t * 2 has run ahead of the list. */
  function EnemySpawned(s: seq<Enemy>, t: real, d: EnemyDraws): (r: seq<Enemy>)
    ensures |s| <= |r| && r[..|s|] == s
    ensures Trunc(t * 2.0) > |s| ==> |r| == |s| + 1 && r[|s|] == SpawnEnemy(d)
    ensures Trunc(t * 2.0) <= |s| ==> r == s
  {
    if Trunc(t * 2.0) > |s| then s + [SpawnEnemy(d)] else s
  }

  /** The power-up list after the spawn check at game time t: one new power-up when t / 5 has run ahead of the list. */
  function PowerUpSpawned(s: seq<PowerUp>, t: real, d: PowerUpDraws): (r: seq<PowerUp>)
    ensures |s| <= |r| && r[..|s|] == s
    ensures Trunc(t / 5.0) > |s| ==> |r| == |s| + 1 && r[|s|] == SpawnPowerUp(d)
    ensures Trunc(t / 5.0) <= |s| ==> r == s
  {
    if Trunc(t / 5.0) > |s| then s + [SpawnPowerUp(d)] else s
  }

  /** The enemies that survive movement in a frame at game time t. */
  function EnemiesMoved(s: seq<Enemy>, t: real, d: EnemyDraws, px: real, py: real, dt: real,
                        unit: (real, real) -> (real, real)): seq<Enemy>
  {
    ActiveEnemies(MoveEnemies(EnemySpawned(s, t, d), px, py, dt, unit))
  }

  /** Every enemy that survives movement is active. */
  lemma MovedAreActive(s: seq<Enemy>, t: real, d: EnemyDraws, px: real, py: real, dt: real,
                       unit: (real, real) -> (real, real), i: int)
    requires 0 <= i < |EnemiesMoved(s, t, d, px, py, dt, unit)|
    ensures EnemiesMoved(s, t, d, px, py, dt, unit)[i].active
  {
    ActiveEnemiesKeepsExactly(MoveEnemies(EnemySpawned(s, t, d), px, py, dt, unit));
  }

  /** The enemy list after a whole frame: spawn, move, cull, then mark the ones touching the player. */
  function EnemiesAfterFrame(s: seq<Enemy>, t: real, d: EnemyDraws, px: real, py: real, dt: real,
                             unit: (real, real) -> (real, real)): seq<Enemy>
  {
    MarkEnemyHits(EnemiesMoved(s, t, d, px, py, dt, unit), px, py)
  }

  /** A frame adds at most the one spawned enemy, and none when no spawn is due. */
  lemma FrameGrowsByAtMostOneEnemy(s: seq<Enemy>, t: real, d: EnemyDraws, px: real, py: real, dt: real,
                                   unit: (real, real) -> (real, real))
    ensures |EnemiesAfterFrame(s, t, d, px, py, dt, unit)| <= |s| + 1
    ensures Trunc(t * 2.0) <= |s| ==> |EnemiesAfterFrame(s, t, d, px, py, dt, unit)| <= |s|
  {
    ActiveEnemiesKeepsExactly(MoveEnemies(EnemySpawned(s, t, d), px, py, dt, unit));
  }

  /** After a frame no enemy left active overlaps the player. */
  lemma FrameLeavesNoActiveOverlap(s: seq<Enemy>, t: real, d: EnemyDraws, px: real, py: real, dt: real,
                                   unit: (real, real) -> (real, real), i: int)
    requires 0 <= i < |EnemiesAfterFrame(s, t, d, px, py, dt, unit)|
    requires EnemiesAfterFrame(s, t, d, px, py, dt, unit)[i].active
    ensures var e := EnemiesAfterFrame(s, t, d, px, py, dt, unit)[i];
            !CircleCollision(px, py, PlayerRadius, e.x, e.y, e.size / 2.0)
  {
    MarkEnemyHitsAt(EnemiesMoved(s, t, d, px, py, dt, unit), px, py);
  }

  /** The lives a frame costs: one per surviving enemy that touches the player. */
  function LivesLost(s: seq<Enemy>, t: real, d: EnemyDraws, px: real, py: real, dt: real,
                     unit: (real, real) -> (real, real)): nat
  {
    EnemyHits(EnemiesMoved(s, t, d, px, py, dt, unit), px, py)
  }

  /**
   * Every life lost is an enemy that the frame deactivated: the survivors
   * of the move split into the ones still active and the ones that hit.
   */
  lemma LivesLostAreDeactivatedEnemies(s: seq<Enemy>, t: real, d: EnemyDraws, px: real, py: real, dt: real,
                                       unit: (real, real) -> (real, real))
    ensures LivesLost(s, t, d, px, py, dt, unit) <= |s| + 1
    ensures LivesLost(s, t, d, px, py, dt, unit) + |ActiveEnemies(EnemiesAfterFrame(s, t, d, px, py, dt, unit))|
            == |EnemiesMoved(s, t, d, px, py, dt, unit)|
  {
    var moved := EnemiesMoved(s, t, d, px, py, dt, unit);
    ActiveEnemiesKeepsExactly(MoveEnemies(EnemySpawned(s, t, d), px, py, dt, unit));
    HitsDeactivateExactly(moved, px, py);
    ActiveEnemiesOfActive(moved);
  }

  /** The power-ups after a whole frame: spawn, pulse, and erase the collected ones. */
  function PowerUpsAfterFrame(s: seq<PowerUp>, t: real, d: PowerUpDraws, px: real, py: real, dt: real): seq<PowerUp>
  {
    ActivePowerUps(MarkPowerUpHits(PulsePowerUps(PowerUpSpawned(s, t, d), dt), px, py))
  }

  /** A frame adds at most the one spawned power-up, and none when no spawn is due. */
  lemma FrameGrowsByAtMostOnePowerUp(s: seq<PowerUp>, t: real, d: PowerUpDraws, px: real, py: real, dt: real)
    ensures |PowerUpsAfterFrame(s, t, d, px, py, dt)| <= |s| + 1
    ensures Trunc(t / 5.0) <= |s| ==> |PowerUpsAfterFrame(s, t, d, px, py, dt)| <= |s|
  {
    ActivePowerUpsKeepsExactly(MarkPowerUpHits(PulsePowerUps(PowerUpSpawned(s, t, d), dt), px, py));
  }

  /** Every power-up left after a frame is active: the collected ones were erased. */
  lemma FrameKeepsOnlyActivePowerUps(s: seq<PowerUp>, t: real, d: PowerUpDraws, px: real, py: real, dt: real, i: int)
    requires 0 <= i < |PowerUpsAfterFrame(s, t, d, px, py, dt)|
    ensures PowerUpsAfterFrame(s, t, d, px, py, dt)[i].active
  {
    ActivePowerUpsKeepsExactly(MarkPowerUpHits(PulsePowerUps(PowerUpSpawned(s, t, d), dt), px, py));
  }

  /** The power-ups a frame collects. */
  function PickUps(s: seq<PowerUp>, t: real, d: PowerUpDraws, px: real, py: real, dt: real): nat
  {
    PowerUpHits(PulsePowerUps(PowerUpSpawned(s, t, d), dt), px, py)
  }

  /**
   * Every power-up collected is one the frame erased: the active power-ups
   * after the pulse split into the ones left and the ones collected.
   */
  lemma PickUpsAreErasedPowerUps(s: seq<PowerUp>, t: real, d: PowerUpDraws, px: real, py: real, dt: real)
    ensures PickUps(s, t, d, px, py, dt) <= |s| + 1
    ensures PickUps(s, t, d, px, py, dt) + |PowerUpsAfterFrame(s, t, d, px, py, dt)|
            == |ActivePowerUps(PulsePowerUps(PowerUpSpawned(s, t, d), dt))|
  {
    var pulsed := PulsePowerUps(PowerUpSpawned(s, t, d), dt);
    PickUpsDeactivateExactly(pulsed, px, py);
    ActivePowerUpsKeepsExactly(pulsed);
  }

  // ---------------------------------------------------------------------
  // Point timers and session statistics
  // ---------------------------------------------------------------------

  /** An accumulate-and-reset timer fires when the accumulated time reaches its interval. */
  predicate Fires(timer: real, dt: real, interval: real)
  {
    timer + dt >= interval
  }

  /** The timer after a frame: it accumulates dt and restarts from zero when it fires, so it stays below its interval. */
  function TimerAfter(timer: real, dt: real, interval: real): (r: real)
    requires 0.0 <= timer < interval && 0.0 <= dt
    ensures 0.0 <= r < interval
    ensures r == 0.0 || r == timer + dt
  {
    if Fires(timer, dt, interval) then 0.0 else timer + dt
  }

  /** Damage reported at session end: 100 per life lost. */
  function DamageTaken(lives: int): (d: int)
    ensures lives == StartingLives ==> d == 0
    ensures lives < StartingLives ==> d >= 100 && d % 100 == 0
  {
    (StartingLives - lives) * 100
  }

  /** The wave reported at session end: one wave per 30 seconds survived, starting at 1. */
  function WaveReached(gameTime: real): (w: int)
    ensures gameTime >= 0.0 ==> w >= 1 && 30.0 * (w - 1) as real <= gameTime < 30.0 * w as real
  {
    Trunc(gameTime / 30.0) + 1
  }

  /** The session id of a start response; None leaves the game offline. */
  function SessionIdFrom(parse: string -> Option<JsonValue>, r: HttpResponse): (id: Option<string>)
    ensures id.Some? ==> r.success && parse(r.data).Some? && Has(parse(r.data).value, "sessionId")
                         && Member(parse(r.data).value, "sessionId") == JString(id.value)
    ensures r.success && parse(r.data).Some? && Has(parse(r.data).value, "sessionId")
            && Member(parse(r.data).value, "sessionId").JString?
            ==> id == Some(Member(parse(r.data).value, "sessionId").s)
  {
    if !r.success then None
    else match parse(r.data)
      case None => None
      case Some(root) =>
        if Has(root, "sessionId") && Member(root, "sessionId") != JNull then AsString(Member(root, "sessionId"))
        else None
  }

  // ---------------------------------------------------------------------
  // The state
  // ---------------------------------------------------------------------

  /** The part of the game that the checkpoint snapshot copies. */
  datatype Snapshot = Snapshot(
    gameTime: real, score: int, leaderboardPoints: int, skillPoints: int,
    enemies: seq<Enemy>, powerUps: seq<PowerUp>)

  const EmptySnapshot: Snapshot := Snapshot(0.0, 0, 0, 0, [], [])

  /** The session-start request: a fixed body, answered through the SessionStarted callback. */
  const StartRequest: Request := Request(SessionStart, Post, StartPayload, false, SessionStarted)

  /** The requests a step queues: r when c holds, nothing otherwise. */
  function Sent(c: bool, r: Request): (q: seq<Request>)
    ensures c <==> q == [r]
    ensures !c <==> q == []
  {
    if c then [r] else []
  }

  /** The periodic progress save, carrying the session's running results. */
  function ProgressSaveRequest(sessionId: string, score: int, leaderboardPoints: int, skillPoints: int,
                               gameTime: real, lives: int): Request
  {
    Request(ProgressSave, Post, ProgressPayload(sessionId, score, leaderboardPoints, skillPoints, gameTime, lives),
            false, ProgressSaved)
  }

  /** The enemy half of the collision pass: deactivates each hit enemy and counts the hits. */
  method MarkEnemies(s: seq<Enemy>, px: real, py: real) returns (r: seq<Enemy>, hits: nat)
    ensures r == MarkEnemyHits(s, px, py)
    ensures hits == EnemyHits(s, px, py)
  {
    r := s;
    hits := 0;
    var i := 0;
    while i < |r|
      invariant 0 <= i <= |r| == |s|
      invariant forall j :: 0 <= j < i ==> r[j] == MarkEnemy(s[j], px, py)
      invariant forall j :: i <= j < |r| ==> r[j] == s[j]
      invariant hits == EnemyHits(s[..i], px, py)
    {
      assert s[..i + 1][..i] == s[..i];
      if r[i].active && CircleCollision(px, py, PlayerRadius, r[i].x, r[i].y, r[i].size / 2.0) {
        r := r[i := r[i].(active := false)];
        hits := hits + 1;
      }
      i := i + 1;
    }
    assert s[..i] == s;
    MarkEnemyHitsAt(s, px, py);
  }

  /** The power-up half of the collision pass: deactivates each collected power-up and counts them. */
  method MarkPowerUps(s: seq<PowerUp>, px: real, py: real) returns (r: seq<PowerUp>, pickups: nat)
    ensures r == MarkPowerUpHits(s, px, py)
    ensures pickups == PowerUpHits(s, px, py)
  {
    r := s;
    pickups := 0;
    var i := 0;
    while i < |r|
      invariant 0 <= i <= |r| == |s|
      invariant forall j :: 0 <= j < i ==> r[j] == MarkPowerUp(s[j], px, py)
      invariant forall j :: i <= j < |r| ==> r[j] == s[j]
      invariant pickups == PowerUpHits(s[..i], px, py)
    {
      assert s[..i + 1][..i] == s[..i];
      if r[i].active && CircleCollision(px, py, PlayerRadius, r[i].x, r[i].y, PowerUpRadius) {
        r := r[i := r[i].(active := false)];
        pickups := pickups + 1;
      }
      i := i + 1;
    }
    assert s[..i] == s;
    MarkPowerUpHitsAt(s, px, py);
  }

  class PlayState {
    var playerX: real
    var playerY: real
    var paused: bool
    var gameTime: real
    var score: int
    var lives: int
    var leaderboardPoints: int
    var skillPoints: int
    var leaderboardTimer: real
    var skillPointTimer: real
    var saveTimer: real
    var sessionId: string
    var sessionStarted: bool
    var savedGameTime: real
    var savedScore: int
    var savedLeaderboardPoints: int
    var savedSkillPoints: int
    var savedEnemies: seq<Enemy>
    var savedPowerUps: seq<PowerUp>
    var enemies: seq<Enemy>
    var powerUps: seq<PowerUp>
    var showPauseMenu: bool
    var showGameOver: bool
    var canContinue: bool
    const net: AuthNetworkManager
    /** json::parse as used by the session-start callback. */
    const parse: string -> Option<JsonValue>

    function Current(): Snapshot
      reads this`gameTime, this`score, this`leaderboardPoints, this`skillPoints, this`enemies, this`powerUps
    {
      Snapshot(gameTime, score, leaderboardPoints, skillPoints, enemies, powerUps)
    }

    function Saved(): Snapshot
      reads this`savedGameTime, this`savedScore, this`savedLeaderboardPoints, this`savedSkillPoints,
            this`savedEnemies, this`savedPowerUps
    {
      Snapshot(savedGameTime, savedScore, savedLeaderboardPoints, savedSkillPoints, savedEnemies, savedPowerUps)
    }

    /** Times are never negative and every point timer stays below its interval. */
    predicate Valid()
      reads this`gameTime, this`savedGameTime, this`leaderboardTimer, this`skillPointTimer, this`saveTimer
    {
      && 0.0 <= gameTime && 0.0 <= savedGameTime
      && 0.0 <= leaderboardTimer < LeaderboardInterval
      && 0.0 <= skillPointTimer < SkillPointInterval
      && 0.0 <= saveTimer < SaveInterval
    }

    /** Whether session requests are sent at all. */
    predicate SessionActive()
      reads this`sessionStarted, this`sessionId
    {
      sessionStarted && |sessionId| > 0
    }

    function ProgressRequest(): Request
      reads this`sessionId, this`score, this`leaderboardPoints, this`skillPoints, this`gameTime, this`lives
    {
      ProgressSaveRequest(sessionId, score, leaderboardPoints, skillPoints, gameTime, lives)
    }

    function EndRequest(): Request
      reads this`sessionId, this`score, this`leaderboardPoints, this`skillPoints, this`gameTime, this`lives
    {
      Request(SessionEnd, Post, EndPayload(sessionId, score, leaderboardPoints, skillPoints, gameTime,
                                           0, 0, DamageTaken(lives), WaveReached(gameTime)), false, SessionEnded)
    }

    constructor (parse: string -> Option<JsonValue>)
      ensures Current() == EmptySnapshot && Saved() == EmptySnapshot && lives == StartingLives
      ensures playerX == 640.0 && playerY == 360.0
      ensures leaderboardTimer == 0.0 && skillPointTimer == 0.0 && saveTimer == 0.0
      ensures !paused && !showPauseMenu && !showGameOver && !canContinue
      ensures sessionId == "" && !sessionStarted
      ensures Valid()
      ensures fresh(net) && net.queue == [] && net.inFlight == [] && net.authToken == ""
      ensures this.parse == parse
    {
      playerX := 640.0;
      playerY := 360.0;
      paused := false;
      gameTime := 0.0;
      score := 0;
      lives := StartingLives;
      leaderboardPoints := 0;
      skillPoints := 0;
      leaderboardTimer := 0.0;
      skillPointTimer := 0.0;
      saveTimer := 0.0;
      savedGameTime := 0.0;
      savedScore := 0;
      savedLeaderboardPoints := 0;
      savedSkillPoints := 0;
      savedEnemies := [];
      savedPowerUps := [];
      enemies := [];
      powerUps := [];
      showPauseMenu := false;
      showGameOver := false;
      canContinue := false;
      sessionId := "";
      sessionStarted := false;
      net := new AuthNetworkManager(parse);
      this.parse := parse;
    }

    method SetAuthToken(token: string)
      modifies net`authToken
      ensures net.authToken == token
    {
      net.SetAuthToken(token);
    }

    /** Asks the server for a session. */
    method StartGameSession()
      modifies net`queue
      ensures net.queue == old(net.queue) + [StartRequest]
    {
      net.StartGameSession(SessionStarted);
    }

    method OnEnter()
      modifies net`queue
      ensures net.queue == old(net.queue) + [StartRequest]
    {
      StartGameSession();
    }

    /** The callbacks this state gave to its requests. */
    method Deliver(callback: Callback, response: HttpResponse)
      modifies this`sessionId, this`sessionStarted
      ensures callback == SessionStarted ==>
        sessionStarted == SessionIdFrom(parse, response).Some?
        && sessionId == SessionIdFrom(parse, response).GetOr(old(sessionId))
      ensures callback == SessionEnded ==> sessionId == "" && !sessionStarted
      ensures callback != SessionStarted && callback != SessionEnded ==> unchanged(this`sessionId, this`sessionStarted)
    {
      if callback == SessionStarted {
        var id := SessionIdFrom(parse, response);
        if id.Some? {
          sessionId := id.value;
          sessionStarted := true;
        } else {
          sessionStarted := false;
        }
      } else if callback == SessionEnded {
        sessionStarted := false;
        sessionId := "";
      }
    }

    method SaveProgressToServer()
      modifies net`queue
      ensures net.queue == old(net.queue) + if SessionActive() then [ProgressRequest()] else []
    {
      if !sessionStarted || |sessionId| == 0 {
        return;
      }
      net.SaveGameProgress(sessionId, score, leaderboardPoints, skillPoints, gameTime, lives, ProgressSaved);
    }

    method EndGameSession()
      modifies net`queue
      ensures net.queue == old(net.queue) + if SessionActive() then [EndRequest()] else []
    {
      if !sessionStarted || |sessionId| == 0 {
        return;
      }
      net.EndGameSession(sessionId, score, leaderboardPoints, skillPoints, gameTime,
                         0, 0, DamageTaken(lives), WaveReached(gameTime), SessionEnded);
    }

    method OnExit()
      modifies net`queue
      ensures net.queue == old(net.queue) + if SessionActive() then [EndRequest()] else []
    {
      if sessionStarted && |sessionId| > 0 {
        EndGameSession();
      }
    }

    method SaveGameState()
      modifies this`savedGameTime, this`savedScore, this`savedLeaderboardPoints, this`savedSkillPoints,
               this`savedEnemies, this`savedPowerUps
      ensures Saved() == Current()
    {
      savedGameTime := gameTime;
      savedScore := score;
      savedLeaderboardPoints := leaderboardPoints;
      savedSkillPoints := skillPoints;
      savedEnemies := enemies;
      savedPowerUps := powerUps;
    }

    method RestoreGameState()
      modifies this`gameTime, this`score, this`leaderboardPoints, this`skillPoints, this`enemies, this`powerUps,
               this`lives, this`showGameOver, this`paused
      ensures Current() == Saved()
      ensures lives == StartingLives && !showGameOver && !paused
    {
      CopySnapshot();
      lives := StartingLives;
      showGameOver := false;
      paused := false;
    }

    /** Copies the checkpoint snapshot back into the running game. */
    method CopySnapshot()
      modifies this`gameTime, this`score, this`leaderboardPoints, this`skillPoints, this`enemies, this`powerUps
      ensures Current() == Saved()
    {
      gameTime := savedGameTime;
      score := savedScore;
      leaderboardPoints := savedLeaderboardPoints;
      skillPoints := savedSkillPoints;
      enemies := savedEnemies;
      powerUps := savedPowerUps;
    }

    /** Clears the running game: time, score, points and both entity lists. */
    method ResetRun()
      modifies this`gameTime, this`score, this`leaderboardPoints, this`skillPoints, this`enemies, this`powerUps
      ensures gameTime == 0.0 && score == 0 && leaderboardPoints == 0 && skillPoints == 0
      ensures enemies == [] && powerUps == []
    {
      gameTime := 0.0;
      score := 0;
      leaderboardPoints := 0;
      skillPoints := 0;
      enemies := [];
      powerUps := [];
    }

    /** Clears the checkpoint snapshot. */
    method ResetSaved()
      modifies this`savedGameTime, this`savedScore, this`savedLeaderboardPoints, this`savedSkillPoints,
               this`savedEnemies, this`savedPowerUps
      ensures savedGameTime == 0.0 && savedScore == 0 && savedLeaderboardPoints == 0 && savedSkillPoints == 0
      ensures savedEnemies == [] && savedPowerUps == []
    {
      savedGameTime := 0.0;
      savedScore := 0;
      savedLeaderboardPoints := 0;
      savedSkillPoints := 0;
      savedEnemies := [];
      savedPowerUps := [];
    }

    /** Full lives, timers at zero, no pause, no game over. */
    method ResetPlay()
      modifies this`lives, this`leaderboardTimer, this`skillPointTimer, this`saveTimer,
               this`showGameOver, this`paused, this`canContinue
      ensures lives == StartingLives && leaderboardTimer == 0.0 && skillPointTimer == 0.0 && saveTimer == 0.0
      ensures !showGameOver && !paused && !canContinue
    {
      lives := StartingLives;
      leaderboardTimer := 0.0;
      skillPointTimer := 0.0;
      saveTimer := 0.0;
      showGameOver := false;
      paused := false;
      canContinue := false;
    }

    /**
     * Ends the running session (if any), resets the game and asks for a new
     * session. The resets are grouped as the header groups the fields.
     */
    method RestartGame()
      modifies this`gameTime, this`score, this`leaderboardPoints, this`skillPoints, this`enemies, this`powerUps,
               this`savedGameTime, this`savedScore, this`savedLeaderboardPoints, this`savedSkillPoints,
               this`savedEnemies, this`savedPowerUps, this`lives, this`leaderboardTimer, this`skillPointTimer,
               this`saveTimer, this`showGameOver, this`paused, this`canContinue, net`queue
      ensures gameTime == 0.0 && score == 0 && leaderboardPoints == 0 && skillPoints == 0
      ensures enemies == [] && powerUps == []
      ensures savedGameTime == 0.0 && savedScore == 0 && savedLeaderboardPoints == 0 && savedSkillPoints == 0
      ensures savedEnemies == [] && savedPowerUps == []
      ensures lives == StartingLives && leaderboardTimer == 0.0 && skillPointTimer == 0.0 && saveTimer == 0.0
      ensures !showGameOver && !paused && !canContinue
      ensures Valid()
      ensures net.queue == old(net.queue) + (if old(SessionActive()) then [old(EndRequest())] else []) + [StartRequest]
    {
      if sessionStarted && |sessionId| > 0 {
        EndGameSession();
      }
      ResetRun();
      ResetSaved();
      ResetPlay();
      StartGameSession();
    }

    /** ESC: toggles the pause (and its menu) unless the game is over. */
    method HandleEscape()
      modifies this`paused, this`showPauseMenu
      ensures old(showGameOver) ==> paused == old(paused) && showPauseMenu == old(showPauseMenu)
      ensures !old(showGameOver) ==> paused == !old(paused) && showPauseMenu == paused
    {
      if !showGameOver {
        paused := !paused;
        showPauseMenu := paused;
      }
    }

    /** Q: saves progress and ends the session; the caller then changes to the home screen. */
    method HandleQuitKey()
      modifies net`queue
      ensures net.queue == old(net.queue) + if SessionActive() then [ProgressRequest(), EndRequest()] else []
    {
      SaveProgressToServer();
      if sessionStarted && |sessionId| > 0 {
        EndGameSession();
      }
    }

    /**
     * Q as written: the key queues the progress and the session end, and the
     * state change then runs OnExit, which queues the end once more (the
     * session flags are cleared only by the reply). The change destroys this
     * state together with its network manager before another Update runs,
     * so every queued request is discarded and none reaches a worker.
     */
    method QuitToMenu() returns (discarded: seq<Request>)
      modifies net`queue
      ensures discarded == old(net.queue) + if SessionActive() then [ProgressRequest(), EndRequest(), EndRequest()] else []
      ensures net.inFlight == old(net.inFlight)
    {
      HandleQuitKey();
      OnExit();
      discarded := net.queue;
    }

    /**
     * Q as its handler means it ("save progress and end session before
     * returning"): the network manager hands on every queued request before
     * the state goes, so the progress and the session end reach the server.
     */
    method QuitToMenuFlushed(handleObtained: bool)
      modifies net`queue, net`inFlight
      ensures net.queue == []
      ensures var sent := old(net.queue) + if SessionActive() then [ProgressRequest(), EndRequest(), EndRequest()] else [];
        net.inFlight == old(net.inFlight) + if handleObtained then DispatchAll(sent, net.baseUrl, Headers(net.authToken)) else []
    {
      HandleQuitKey();
      OnExit();
      net.Flush(handleObtained);
    }

    /** Mouse motion moves the player unless the game is over. */
    method HandleMouseMotion(x: real, y: real)
      modifies this`playerX, this`playerY
      ensures old(showGameOver) ==> playerX == old(playerX) && playerY == old(playerY)
      ensures !old(showGameOver) ==> playerX == x && playerY == y
    {
      if !showGameOver {
        playerX := x;
        playerY := y;
      }
    }

    /**
     * The pause and game-over menus' Main Menu button: the state change runs
     * OnExit, which queues the session end, then destroys this state with
     * its network manager, so what is queued is discarded unsent.
     */
    method MainMenuButton() returns (discarded: seq<Request>)
      modifies net`queue
      ensures discarded == old(net.queue) + if SessionActive() then [EndRequest()] else []
      ensures net.inFlight == old(net.inFlight)
    {
      OnExit();
      discarded := net.queue;
    }

    /** The game-over screen's Continue button, offered only while a checkpoint exists. */
    method ContinueButton()
      modifies this`gameTime, this`score, this`leaderboardPoints, this`skillPoints, this`enemies, this`powerUps,
               this`lives, this`showGameOver, this`paused
      ensures old(canContinue) ==> Current() == Saved() && lives == StartingLives && !showGameOver && !paused
      ensures !old(canContinue) ==> unchanged(this`gameTime, this`score, this`leaderboardPoints, this`skillPoints,
                                              this`enemies, this`powerUps, this`lives, this`showGameOver, this`paused)
    {
      if canContinue {
        RestoreGameState();
      }
    }

    /** The pause menu's Resume button. */
    method Resume()
      modifies this`paused, this`showPauseMenu
      ensures !paused && !showPauseMenu
    {
      paused := false;
      showPauseMenu := false;
    }

    /** Half-second ticks award a leaderboard point, one-second ticks a skill point. */
    method AwardPoints(dt: real)
      requires Valid() && dt >= 0.0
      modifies this`leaderboardPoints, this`skillPoints, this`leaderboardTimer, this`skillPointTimer
      ensures leaderboardTimer == TimerAfter(old(leaderboardTimer), dt, LeaderboardInterval)
      ensures leaderboardPoints == old(leaderboardPoints) + if Fires(old(leaderboardTimer), dt, LeaderboardInterval) then 1 else 0
      ensures skillPointTimer == TimerAfter(old(skillPointTimer), dt, SkillPointInterval)
      ensures skillPoints == old(skillPoints) + if Fires(old(skillPointTimer), dt, SkillPointInterval) then 1 else 0
    {
      leaderboardTimer := leaderboardTimer + dt;
      skillPointTimer := skillPointTimer + dt;
      if leaderboardTimer >= LeaderboardInterval {
        leaderboardPoints := leaderboardPoints + 1;
        leaderboardTimer := 0.0;
      }
      if skillPointTimer >= SkillPointInterval {
        skillPoints := skillPoints + 1;
        skillPointTimer := 0.0;
      }
    }

    /**
     * The point timers tick; every five seconds progress goes to the server
     * and the checkpoint is taken (after this frame's awards).
     */
    method UpdatePointSystem(dt: real)
      requires Valid() && dt >= 0.0
      modifies this`leaderboardPoints, this`skillPoints, this`leaderboardTimer, this`skillPointTimer, this`saveTimer,
               this`savedGameTime, this`savedScore, this`savedLeaderboardPoints, this`savedSkillPoints,
               this`savedEnemies, this`savedPowerUps, net`queue
      ensures Valid()
      ensures leaderboardTimer == TimerAfter(old(leaderboardTimer), dt, LeaderboardInterval)
      ensures leaderboardPoints == old(leaderboardPoints) + if Fires(old(leaderboardTimer), dt, LeaderboardInterval) then 1 else 0
      ensures skillPointTimer == TimerAfter(old(skillPointTimer), dt, SkillPointInterval)
      ensures skillPoints == old(skillPoints) + if Fires(old(skillPointTimer), dt, SkillPointInterval) then 1 else 0
      ensures saveTimer == TimerAfter(old(saveTimer), dt, SaveInterval)
      ensures Fires(old(saveTimer), dt, SaveInterval) ==> Saved() == Current()
      ensures !Fires(old(saveTimer), dt, SaveInterval) ==>
        unchanged(this`savedGameTime, this`savedScore, this`savedLeaderboardPoints, this`savedSkillPoints,
                  this`savedEnemies, this`savedPowerUps)
      ensures net.queue == old(net.queue) + if Fires(old(saveTimer), dt, SaveInterval) && SessionActive() then [ProgressRequest()] else []
    {
      AwardPoints(dt);
      saveTimer := saveTimer + dt;
      if saveTimer >= SaveInterval {
        SaveProgressToServer();
        SaveGameState();
        saveTimer := 0.0;
      }
    }

    method SpawnEnemies(d: EnemyDraws)
      modifies this`enemies
      ensures enemies == old(enemies) + [SpawnEnemy(d)]
    {
      enemies := enemies + [SpawnEnemy(d)];
    }

    method SpawnPowerUps(d: PowerUpDraws)
      modifies this`powerUps
      ensures powerUps == old(powerUps) + [SpawnPowerUp(d)]
    {
      powerUps := powerUps + [SpawnPowerUp(d)];
    }

    /** Moves every active enemy, then erases the inactive ones, keeping order. */
    method UpdateEnemies(dt: real, unit: (real, real) -> (real, real))
      modifies this`enemies
      ensures enemies == ActiveEnemies(MoveEnemies(old(enemies), playerX, playerY, dt, unit))
    {
      var es := enemies;
      var i := 0;
      while i < |es|
        invariant 0 <= i <= |es| == |enemies|
        invariant forall j :: 0 <= j < i ==> es[j] == MoveEnemy(enemies[j], playerX, playerY, dt, unit)
        invariant forall j :: i <= j < |es| ==> es[j] == enemies[j]
      {
        if es[i].active {
          es := es[i := MoveEnemy(es[i], playerX, playerY, dt, unit)];
        }
        i := i + 1;
      }
      MoveEnemiesAt(enemies, playerX, playerY, dt, unit);
      assert es == MoveEnemies(enemies, playerX, playerY, dt, unit);
      ActiveEnemiesIsFilter(es);
      enemies := Compact(es, IsActiveEnemy);
    }

    /** Advances the pulse of every active power-up; nothing else changes. */
    method UpdatePowerUps(dt: real)
      modifies this`powerUps
      ensures powerUps == PulsePowerUps(old(powerUps), dt)
    {
      var ps := powerUps;
      var i := 0;
      while i < |ps|
        invariant 0 <= i <= |ps| == |powerUps|
        invariant forall j :: 0 <= j < i ==> ps[j] == Pulse(powerUps[j], dt)
        invariant forall j :: i <= j < |ps| ==> ps[j] == powerUps[j]
      {
        if ps[i].active {
          ps := ps[i := ps[i].(pulseTime := ps[i].pulseTime + dt)];
        }
        i := i + 1;
      }
      PulsePowerUpsAt(powerUps, dt);
      powerUps := ps;
    }

    /**
     * Every active enemy touching the player is deactivated and costs a
     * life; every active power-up touching the player is deactivated and
     * adds 50 to the score; collected power-ups are erased.
     */
    method CheckCollisions()
      modifies this`enemies, this`powerUps, this`score, this`lives
      ensures enemies == MarkEnemyHits(old(enemies), playerX, playerY)
      ensures powerUps == ActivePowerUps(MarkPowerUpHits(old(powerUps), playerX, playerY))
      ensures score == old(score) + 50 * PowerUpHits(old(powerUps), playerX, playerY)
      ensures lives == old(lives) - EnemyHits(old(enemies), playerX, playerY)
    {
      var px, py := playerX, playerY;
      var es, lost := MarkEnemies(enemies, px, py);
      var ps, gained := MarkPowerUps(powerUps, px, py);
      enemies := es;
      lives := lives - lost;
      score := score + 50 * gained;
      ActivePowerUpsIsFilter(ps);
      powerUps := Compact(ps, IsActivePowerUp);
    }

    /** The clock advances and the point timers tick (and may take the checkpoint and send progress). */
    method AdvanceClock(dt: real)
      requires Valid() && dt >= 0.0
      modifies this`gameTime, this`leaderboardPoints, this`skillPoints,
               this`leaderboardTimer, this`skillPointTimer, this`saveTimer,
               this`savedGameTime, this`savedScore, this`savedLeaderboardPoints, this`savedSkillPoints,
               this`savedEnemies, this`savedPowerUps, net`queue
      ensures Valid()
      ensures gameTime == old(gameTime) + dt
      ensures leaderboardPoints == old(leaderboardPoints) + if Fires(old(leaderboardTimer), dt, LeaderboardInterval) then 1 else 0
      ensures skillPoints == old(skillPoints) + if Fires(old(skillPointTimer), dt, SkillPointInterval) then 1 else 0
      ensures Saved() == if Fires(old(saveTimer), dt, SaveInterval) then Current() else old(Saved())
      ensures net.queue == old(net.queue) + Sent(Fires(old(saveTimer), dt, SaveInterval) && SessionActive(), ProgressRequest())
      ensures unchanged(this`enemies, this`powerUps, this`score, this`lives, this`showGameOver, this`canContinue)
    {
      gameTime := gameTime + dt;
      UpdatePointSystem(dt);
    }

    /** An enemy or a power-up spawns when the clock has run ahead of its list. */
    method SpawnAll(enemyDraws: EnemyDraws, powerUpDraws: PowerUpDraws)
      modifies this`enemies, this`powerUps
      ensures enemies == EnemySpawned(old(enemies), gameTime, enemyDraws)
      ensures powerUps == PowerUpSpawned(old(powerUps), gameTime, powerUpDraws)
      ensures Valid() == old(Valid()) && Saved() == old(Saved()) && SessionActive() == old(SessionActive())
    {
      if Trunc(gameTime * 2.0) > |enemies| {
        SpawnEnemies(enemyDraws);
      }
      if Trunc(gameTime / 5.0) > |powerUps| {
        SpawnPowerUps(powerUpDraws);
      }
    }

    /**
     * The second half of a running frame: enemies move (the ones that left
     * the keep area are erased), power-ups pulse, then collisions cost
     * lives and collect power-ups.
     */
    method MoveAndCollide(dt: real, unit: (real, real) -> (real, real))
      modifies this`enemies, this`powerUps, this`score, this`lives
      ensures var moved := ActiveEnemies(MoveEnemies(old(enemies), playerX, playerY, dt, unit));
              && enemies == MarkEnemyHits(moved, playerX, playerY)
              && lives == old(lives) - EnemyHits(moved, playerX, playerY)
      ensures var pulsed := PulsePowerUps(old(powerUps), dt);
              && powerUps == ActivePowerUps(MarkPowerUpHits(pulsed, playerX, playerY))
    {
      ghost var moved := ActiveEnemies(MoveEnemies(enemies, playerX, playerY, dt, unit));
      ghost var pulsed := PulsePowerUps(powerUps, dt);
      UpdateEnemies(dt, unit);
      UpdatePowerUps(dt);
      assert enemies == moved && powerUps == pulsed;
      CheckCollisions();
    }

    /**
     * The end of a running frame: the score is recomputed from survival
     * time, enemies on screen and leaderboard points; with no lives left the
     * game is over, Continue is offered when a checkpoint exists, and the
     * session is ended with the final results.
     */
    method FinishFrame()
      modifies this`score, this`showGameOver, this`canContinue, net`queue
      ensures score == Trunc(gameTime * 25.0) + |enemies| * 10 + leaderboardPoints * 2
      ensures lives <= 0 ==> showGameOver && canContinue == (savedGameTime > 0.0)
      ensures lives > 0 ==> showGameOver == old(showGameOver) && canContinue == old(canContinue)
      ensures net.queue == old(net.queue) + if lives <= 0 && SessionActive() then [EndRequest()] else []
      ensures Valid() == old(Valid()) && Saved() == old(Saved()) && SessionActive() == old(SessionActive())
    {
      score := Trunc(gameTime * 25.0) + |enemies| * 10 + leaderboardPoints * 2;
      if lives <= 0 {
        showGameOver := true;
        canContinue := savedGameTime > 0.0;
        EndGameSession();
      }
    }

    /**
     * The second half of a running frame together with its end: movement,
     * collisions, the new score, and the game-over check with its
     * session-end request.
     */
    method CollideAndScore(dt: real, unit: (real, real) -> (real, real))
      modifies this`enemies, this`powerUps, this`score, this`lives, this`showGameOver, this`canContinue, net`queue
      ensures var moved := ActiveEnemies(MoveEnemies(old(enemies), playerX, playerY, dt, unit));
              && enemies == MarkEnemyHits(moved, playerX, playerY)
              && lives == old(lives) - EnemyHits(moved, playerX, playerY)
      ensures powerUps == ActivePowerUps(MarkPowerUpHits(PulsePowerUps(old(powerUps), dt), playerX, playerY))
      ensures score == Trunc(gameTime * 25.0) + |enemies| * 10 + leaderboardPoints * 2
      ensures lives <= 0 ==> showGameOver && canContinue == (savedGameTime > 0.0)
      ensures lives > 0 ==> showGameOver == old(showGameOver) && canContinue == old(canContinue)
      ensures net.queue == old(net.queue) + if lives <= 0 && SessionActive() then [EndRequest()] else []
      ensures Valid() == old(Valid()) && Saved() == old(Saved()) && SessionActive() == old(SessionActive())
    {
      MoveAndCollide(dt, unit);
      StateKept();
      FinishFrame();
    }

    /** A step that leaves the clock, checkpoint and session fields alone keeps what they determine. */
    twostate lemma StateKept()
      requires unchanged(this`gameTime, this`savedGameTime, this`leaderboardTimer, this`skillPointTimer, this`saveTimer)
      requires unchanged(this`savedScore, this`savedLeaderboardPoints, this`savedSkillPoints, this`savedEnemies, this`savedPowerUps)
      requires unchanged(this`sessionStarted, this`sessionId)
      ensures Valid() == old(Valid()) && Saved() == old(Saved()) && SessionActive() == old(SessionActive())
    {
    }

    /**
     * The entities' part of a running frame at the current game time:
     * spawning, movement, collisions, the new score, and the game-over
     * check with its session-end request.
     */
    method PlayEntities(dt: real, enemyDraws: EnemyDraws, powerUpDraws: PowerUpDraws, unit: (real, real) -> (real, real))
      modifies this`enemies, this`powerUps, this`score, this`lives, this`showGameOver, this`canContinue, net`queue
      ensures enemies == EnemiesAfterFrame(old(enemies), gameTime, enemyDraws, playerX, playerY, dt, unit)
      ensures lives == old(lives) - LivesLost(old(enemies), gameTime, enemyDraws, playerX, playerY, dt, unit)
      ensures powerUps == PowerUpsAfterFrame(old(powerUps), gameTime, powerUpDraws, playerX, playerY, dt)
      ensures score == Trunc(gameTime * 25.0) + |enemies| * 10 + leaderboardPoints * 2
      ensures lives <= 0 ==> showGameOver && canContinue == (savedGameTime > 0.0)
      ensures lives > 0 ==> showGameOver == old(showGameOver) && canContinue == old(canContinue)
      ensures net.queue == old(net.queue) + Sent(lives <= 0 && SessionActive(), EndRequest())
      ensures Valid() == old(Valid()) && Saved() == old(Saved()) && SessionActive() == old(SessionActive())
    {
      SpawnAll(enemyDraws, powerUpDraws);
      CollideAndScore(dt, unit);
    }

    /**
     * A running frame, after the network manager has been pumped: the
     * clock and the point timers advance (the checkpoint, when taken, holds
     * the entities and score as they were before this frame's play), then
     * the entities play out the frame at the new game time. The progress
     * request, when sent, carries the score and lives from before the play;
     * the session-end request, on game over, the results after it.
     */
    method RunFrame(dt: real, enemyDraws: EnemyDraws, powerUpDraws: PowerUpDraws, unit: (real, real) -> (real, real))
      requires Valid() && dt >= 0.0
      modifies this`gameTime, this`leaderboardPoints, this`skillPoints, this`enemies, this`powerUps,
               this`leaderboardTimer, this`skillPointTimer, this`saveTimer,
               this`savedGameTime, this`savedScore, this`savedLeaderboardPoints, this`savedSkillPoints,
               this`savedEnemies, this`savedPowerUps, this`score, this`lives, this`showGameOver, this`canContinue, net`queue
      ensures Valid()
      ensures gameTime == old(gameTime) + dt
      ensures leaderboardPoints == old(leaderboardPoints) + if Fires(old(leaderboardTimer), dt, LeaderboardInterval) then 1 else 0
      ensures skillPoints == old(skillPoints) + if Fires(old(skillPointTimer), dt, SkillPointInterval) then 1 else 0
      ensures enemies == EnemiesAfterFrame(old(enemies), gameTime, enemyDraws, playerX, playerY, dt, unit)
      ensures lives == old(lives) - LivesLost(old(enemies), gameTime, enemyDraws, playerX, playerY, dt, unit)
      ensures powerUps == PowerUpsAfterFrame(old(powerUps), gameTime, powerUpDraws, playerX, playerY, dt)
      ensures score == Trunc(gameTime * 25.0) + |enemies| * 10 + leaderboardPoints * 2
      ensures lives <= 0 ==> showGameOver && canContinue == (savedGameTime > 0.0)
      ensures lives > 0 ==> showGameOver == old(showGameOver) && canContinue == old(canContinue)
      ensures Saved() == if Fires(old(saveTimer), dt, SaveInterval)
        then Snapshot(gameTime, old(score), leaderboardPoints, skillPoints, old(enemies), old(powerUps))
        else old(Saved())
      ensures net.queue == old(net.queue)
        + Sent(Fires(old(saveTimer), dt, SaveInterval) && SessionActive(),
               ProgressSaveRequest(sessionId, old(score), leaderboardPoints, skillPoints, gameTime, old(lives)))
        + Sent(lives <= 0 && SessionActive(), EndRequest())
    {
      AdvanceClock(dt);
      PlayEntities(dt, enemyDraws, powerUpDraws, unit);
    }

    /**
     * One frame: the network manager hands on its front request (even when
     * paused or over, when nothing else happens); a running game then plays
     * the frame. handleObtained is passed on to the network manager's Update.
     */
    method Update(dt: real, enemyDraws: EnemyDraws, powerUpDraws: PowerUpDraws,
                  unit: (real, real) -> (real, real), handleObtained: bool)
      requires Valid() && dt >= 0.0
      modifies this`gameTime, this`leaderboardPoints, this`skillPoints, this`enemies, this`powerUps,
               this`leaderboardTimer, this`skillPointTimer, this`saveTimer,
               this`savedGameTime, this`savedScore, this`savedLeaderboardPoints, this`savedSkillPoints,
               this`savedEnemies, this`savedPowerUps, this`score, this`lives, this`showGameOver, this`canContinue,
               net`queue, net`inFlight
      ensures Valid()
      ensures net.inFlight == old(net.inFlight) +
        if old(net.queue) != [] && handleObtained
        then [Dispatched(old(net.queue)[0], old(net.baseUrl), Headers(old(net.authToken)))] else []
      ensures old(paused || showGameOver) ==> unchanged(this)
      ensures old(paused || showGameOver) ==> net.queue == if old(net.queue) == [] then [] else old(net.queue)[1..]
      ensures !old(paused || showGameOver) ==>
        && gameTime == old(gameTime) + dt
        && enemies == EnemiesAfterFrame(old(enemies), gameTime, enemyDraws, playerX, playerY, dt, unit)
        && lives == old(lives) - LivesLost(old(enemies), gameTime, enemyDraws, playerX, playerY, dt, unit)
        && powerUps == PowerUpsAfterFrame(old(powerUps), gameTime, powerUpDraws, playerX, playerY, dt)
        && score == Trunc(gameTime * 25.0) + |enemies| * 10 + leaderboardPoints * 2
        && (showGameOver <==> lives <= 0)
        && (lives <= 0 ==> canContinue == (savedGameTime > 0.0))
        && (lives > 0 ==> canContinue == old(canContinue))
      ensures !old(paused || showGameOver) ==>
        && leaderboardPoints == old(leaderboardPoints) + (if Fires(old(leaderboardTimer), dt, LeaderboardInterval) then 1 else 0)
        && skillPoints == old(skillPoints) + (if Fires(old(skillPointTimer), dt, SkillPointInterval) then 1 else 0)
        && Saved() == if Fires(old(saveTimer), dt, SaveInterval)
             then Snapshot(gameTime, old(score), leaderboardPoints, skillPoints, old(enemies), old(powerUps))
             else old(Saved())
      ensures !old(paused || showGameOver) ==>
        net.queue == (if old(net.queue) == [] then [] else old(net.queue)[1..])
          + Sent(Fires(old(saveTimer), dt, SaveInterval) && SessionActive(),
                 ProgressSaveRequest(sessionId, old(score), leaderboardPoints, skillPoints, gameTime, old(lives)))
          + Sent(lives <= 0 && SessionActive(), EndRequest())
    {
      net.Update(handleObtained);
      if paused || showGameOver {
        return;
      }
      RunFrame(dt, enemyDraws, powerUpDraws, unit);
    }
  }
}
