/**
 * The enemy entity: its stats table, health and damage, and its movement
 * along a path of grid waypoints, one segment at a time.
 */
module Enemies {
  import opened GameTypes

  datatype EnemyData = EnemyData(
    enemyType: EnemyType,
    health: real,
    maxHealth: real,
    speed: real,
    errorBudgetDamage: int,
    reward: int,
    specialBehavior: Option<string>)

  /** The stats an enemy of each type is created with. */
  function GetEnemyData(t: EnemyType): (d: EnemyData)
    ensures d.enemyType == t
    ensures d.health == d.maxHealth && d.maxHealth > 0.0
    ensures d.speed > 0.0 && d.errorBudgetDamage > 0 && d.reward > 0
  {
    match t
    case TrafficSpike => EnemyData(TrafficSpike, 50.0, 50.0, 100.0, 10, 10, None)
    case Ddos => EnemyData(Ddos, 100.0, 100.0, 150.0, 20, 20, None)
    case MemoryLeak => EnemyData(MemoryLeak, 80.0, 80.0, 60.0, 15, 15, Some("grows_over_time"))
    case SlowQuery => EnemyData(SlowQuery, 120.0, 120.0, 40.0, 25, 25, Some("slows_towers"))
    case FridayDeploy => EnemyData(FridayDeploy, 200.0, 200.0, 80.0, 50, 50, Some("spawns_bugs"))
  }

  /** Health after `amount` of damage, floored at 0. */
  function DamagedHealth(health: real, amount: real): (h: real)
    ensures h >= 0.0
    ensures h == 0.0 <==> health - amount <= 0.0
    ensures h > 0.0 ==> h == health - amount
    ensures amount >= 0.0 && health >= 0.0 ==> h <= health
  {
    if health - amount > 0.0 then health - amount else 0.0
  }

  /**
   * Where one movement step leaves an enemy on a path of `pathLen`
   * waypoints: `fraction` is the distance moved divided by the current
   * segment's length. Reaching 1 moves to the next segment with progress 0.
   */
  function Step(pathLen: int, index: int, progress: real, fraction: real): (r: (int, real))
    ensures index >= pathLen - 1 ==> r == (index, progress)
    ensures index < pathLen - 1 ==> r.0 == index || r.0 == index + 1
    ensures index < pathLen - 1 ==> (r.0 == index + 1 <==> progress + fraction >= 1.0)
    ensures r.0 == index + 1 ==> r.1 == 0.0
    ensures r.0 == index ==> r.1 == progress || r.1 == progress + fraction
    ensures progress < 1.0 ==> r.1 < 1.0
  {
    if index >= pathLen - 1 then (index, progress)
    else if progress + fraction >= 1.0 then (index + 1, 0.0)
    else (index, progress + fraction)
  }

  /** The distance moved in `delta` ms at `speed` pixels per second, as a fraction of a segment. */
  function MoveFraction(speed: real, delta: real, segmentLength: real): real
    requires segmentLength > 0.0
  {
    (speed * delta / 1000.0) / segmentLength
  }

  /** The index and progress after one movement step per element of `fractions`. */
  function Run(pathLen: int, index: int, progress: real, fractions: seq<real>): (int, real)
    decreases |fractions|
  {
    if fractions == [] then (index, progress)
    else
      var next := Step(pathLen, index, progress, fractions[0]);
      Run(pathLen, next.0, next.1, fractions[1..])
  }

  /**
   * Over any number of frames, the progress stays below 1 and the index
   * never passes the last waypoint; so the end test as written, which
   * needs both the last waypoint and a progress of 1, never holds.
   */
  lemma {:induction false} RunNeverCompletes(pathLen: int, index: int, progress: real, fractions: seq<real>)
    requires 0 <= index && (pathLen > 0 ==> index <= pathLen - 1) && progress < 1.0
    ensures var r := Run(pathLen, index, progress, fractions);
      r.1 < 1.0 && index <= r.0 && (pathLen > 0 ==> r.0 <= pathLen - 1)
    decreases |fractions|
  {
    if fractions != [] {
      var next := Step(pathLen, index, progress, fractions[0]);
      RunNeverCompletes(pathLen, next.0, next.1, fractions[1..]);
    }
  }

  /**
   * When every frame moves at least a whole segment, each frame advances
   * one waypoint until the last: after `n` frames the enemy stands on
   * waypoint min(index + n, pathLen - 1).
   */
  lemma {:induction false} RunAdvancesOnePerFrame(pathLen: int, index: int, progress: real, fractions: seq<real>)
    requires 0 <= index <= pathLen - 1
    requires forall i :: 0 <= i < |fractions| ==> fractions[i] >= 1.0
    requires progress >= 0.0
    ensures Run(pathLen, index, progress, fractions).0 == Min(index + |fractions|, pathLen - 1)
    decreases |fractions|
  {
    if fractions != [] {
      var next := Step(pathLen, index, progress, fractions[0]);
      RunAdvancesOnePerFrame(pathLen, next.0, next.1, fractions[1..]);
    }
  }

  function Min(a: int, b: int): int {
    if a <= b then a else b
  }

  /** Pixel coordinate of the centre of grid row or column `i`. */
  function Centre(i: int): real {
    (i * GridSize) as real + GridSize as real / 2.0
  }

  /** The notifications an enemy sends to its scene. */
  datatype EnemyEvent = Killed(data: EnemyData) | ReachedEnd(data: EnemyData)

  class Enemy {
    var enemyData: EnemyData
    const path: seq<Cell>
    var currentPathIndex: int
    var moveProgress: real
    var x: real
    var y: real
    /** Set by `destroy()`: the scene stops updating the enemy. */
    var destroyed: bool
    /** Notifications emitted to the scene, oldest first. */
    var events: seq<EnemyEvent>

    /**
     * The path index stays on the path, health is never negative, and
     * movement resets the progress every time it reaches 1, so the
     * progress is always below 1.
     */
    ghost predicate Valid()
      reads this
    {
      && 0 <= currentPathIndex
      && (|path| > 0 ==> currentPathIndex <= |path| - 1)
      && (|path| == 0 ==> currentPathIndex == 0)
      && moveProgress < 1.0
      && enemyData.health >= 0.0
    }

    constructor (x: real, y: real, t: EnemyType, path: seq<Cell>)
      ensures Valid() && !destroyed && events == []
      ensures enemyData == GetEnemyData(t) && this.path == path
      ensures currentPathIndex == 0 && moveProgress == 0.0
      ensures this.x == x && this.y == y
    {
      enemyData := GetEnemyData(t);
      this.path := path;
      currentPathIndex := 0;
      moveProgress := 0.0;
      this.x, this.y := x, y;
      destroyed := false;
      events := [];
    }

    /** One frame: move, then report the end of the path if it was reached. */
    method Update(time: real, delta: real, segmentLength: real) returns (reachedEnd: bool)
      requires Valid() && segmentLength > 0.0
      modifies this
      ensures Valid()
      ensures (currentPathIndex, moveProgress) ==
        Step(|path|, old(currentPathIndex), old(moveProgress), MoveFraction(enemyData.speed, delta, segmentLength))
      ensures !reachedEnd
      ensures enemyData == old(enemyData)
      ensures events == old(events) && destroyed == old(destroyed)
      ensures old(currentPathIndex) >= |path| - 1 ==> x == old(x) && y == old(y)
      ensures old(currentPathIndex) < |path| - 1 ==>
        var from, to := path[old(currentPathIndex)], path[old(currentPathIndex) + 1];
        && x == Centre(from.x) + (Centre(to.x) - Centre(from.x)) * moveProgress
        && y == Centre(from.y) + (Centre(to.y) - Centre(from.y)) * moveProgress
    {
      MoveAlongPath(delta, segmentLength);
      reachedEnd := false;
      if HasReachedEnd() {
        // The source calls onReachEnd() here; Valid() keeps the progress
        // below 1, so this branch is dead.
        assert false;
      }
    }

    /**
     * Advances along the current segment by `speed * delta / 1000` pixels,
     * as a fraction of the segment's length. Reaching the end of the
     * segment moves to the next one with progress 0: what was left over is
     * dropped, and the position is drawn at the start of the finished
     * segment for this frame. At or past the last waypoint nothing moves.
     */
    method MoveAlongPath(delta: real, segmentLength: real)
      requires Valid() && segmentLength > 0.0
      modifies this`moveProgress, this`currentPathIndex, this`x, this`y
      ensures Valid()
      ensures (currentPathIndex, moveProgress) ==
        Step(|path|, old(currentPathIndex), old(moveProgress), MoveFraction(enemyData.speed, delta, segmentLength))
      ensures old(currentPathIndex) >= |path| - 1 ==> x == old(x) && y == old(y)
      ensures old(currentPathIndex) < |path| - 1 ==>
        var from, to := path[old(currentPathIndex)], path[old(currentPathIndex) + 1];
        && x == Centre(from.x) + (Centre(to.x) - Centre(from.x)) * moveProgress
        && y == Centre(from.y) + (Centre(to.y) - Centre(from.y)) * moveProgress
    {
      if currentPathIndex >= |path| - 1 {
        return;
      }
      var currentPoint := path[currentPathIndex];
      var nextPoint := path[currentPathIndex + 1];
      var startX, startY := Centre(currentPoint.x), Centre(currentPoint.y);
      var endX, endY := Centre(nextPoint.x), Centre(nextPoint.y);
      var moveAmount := (enemyData.speed * delta) / 1000.0;
      assert moveAmount / segmentLength == MoveFraction(enemyData.speed, delta, segmentLength);
      moveProgress := moveProgress + moveAmount / segmentLength;
      if moveProgress >= 1.0 {
        moveProgress := 0.0;
        currentPathIndex := currentPathIndex + 1;
      }
      var t := moveProgress;
      x := startX + (endX - startX) * t;
      y := startY + (endY - startY) * t;
    }

    /** Lowers health, floored at 0; at 0 the enemy reports its death. */
    method TakeDamage(amount: real) returns (died: bool)
      requires Valid()
      modifies this`enemyData, this`events, this`destroyed
      ensures Valid()
      ensures enemyData == old(enemyData).(health := DamagedHealth(old(enemyData).health, amount))
      ensures died <==> enemyData.health == 0.0
      ensures events == old(events) + (if died then [Killed(enemyData)] else [])
      ensures destroyed == (old(destroyed) || died)
    {
      enemyData := enemyData.(health := DamagedHealth(enemyData.health, amount));
      died := false;
      if enemyData.health <= 0.0 {
        OnDeath();
        died := true;
      }
    }

    /** The end test as written: the last waypoint AND a full progress. */
    function HasReachedEnd(): (b: bool)
      reads this
      requires Valid()
      ensures !b
    {
      currentPathIndex >= |path| - 1 && moveProgress >= 1.0
    }

    method OnReachEnd()
      modifies this`events, this`destroyed
      ensures events == old(events) + [ReachedEnd(enemyData)] && destroyed
    {
      events := events + [ReachedEnd(enemyData)];
      destroyed := true;
    }

    method OnDeath()
      modifies this`events, this`destroyed
      ensures events == old(events) + [Killed(enemyData)] && destroyed
    {
      events := events + [Killed(enemyData)];
      destroyed := true;
    }

    /** A copy of the stats: a value, so the caller cannot change the enemy through it. */
    function GetData(): (d: EnemyData)
      reads this
      ensures d == enemyData
    {
      enemyData
    }

    /** The intended end test: the enemy stands on the last waypoint of its path. */
    function HasArrived(): (b: bool)
      reads this
      requires Valid()
      ensures b <==> currentPathIndex >= |path| - 1
    {
      currentPathIndex >= |path| - 1
    }

    /**
     * One frame with the intended end test: the enemy moves, and reports
     * reaching the end (and is destroyed) as soon as it stands on the last
     * waypoint.
     */
    method UpdateIntended(time: real, delta: real, segmentLength: real) returns (reachedEnd: bool)
      requires Valid() && segmentLength > 0.0
      modifies this
      ensures Valid()
      ensures (currentPathIndex, moveProgress) ==
        Step(|path|, old(currentPathIndex), old(moveProgress), MoveFraction(enemyData.speed, delta, segmentLength))
      ensures reachedEnd <==> currentPathIndex >= |path| - 1
      ensures enemyData == old(enemyData)
      ensures reachedEnd ==> events == old(events) + [ReachedEnd(enemyData)] && destroyed
      ensures !reachedEnd ==> events == old(events) && destroyed == old(destroyed)
      ensures old(currentPathIndex) >= |path| - 1 ==> x == old(x) && y == old(y)
      ensures old(currentPathIndex) < |path| - 1 ==>
        var from, to := path[old(currentPathIndex)], path[old(currentPathIndex) + 1];
        && x == Centre(from.x) + (Centre(to.x) - Centre(from.x)) * moveProgress
        && y == Centre(from.y) + (Centre(to.y) - Centre(from.y)) * moveProgress
    {
      MoveAlongPath(delta, segmentLength);
      reachedEnd := false;
      if HasArrived() {
        OnReachEnd();
        reachedEnd := true;
      }
    }
  }

  /**
   * An enemy on a two-waypoint path crosses its one segment in a single
   * frame and stops on the last waypoint, yet its update does not report
   * reaching the end, then or on any later frame.
   */
  method StuckOnLastWaypoint() returns (e: Enemy, first: bool, second: bool)
    ensures e.currentPathIndex == |e.path| - 1 == 1
    ensures !first && !second && e.events == [] && !e.destroyed
  {
    e := new Enemy(Centre(0), Centre(0), TrafficSpike, [Cell(0, 0), Cell(1, 0)]);
    assert MoveFraction(e.enemyData.speed, 1000.0, GridSize as real) >= 1.0;
    first := e.Update(0.0, 1000.0, GridSize as real);
    second := e.Update(1000.0, 1000.0, GridSize as real);
  }

  /** The same frames with the intended end test report the arrival on the first frame. */
  method ArrivesOnLastWaypoint() returns (e: Enemy, first: bool)
    ensures e.currentPathIndex == |e.path| - 1 == 1
    ensures first && e.events == [ReachedEnd(GetEnemyData(TrafficSpike))] && e.destroyed
  {
    e := new Enemy(Centre(0), Centre(0), TrafficSpike, [Cell(0, 0), Cell(1, 0)]);
    assert MoveFraction(e.enemyData.speed, 1000.0, GridSize as real) >= 1.0;
    first := e.UpdateIntended(0.0, 1000.0, GridSize as real);
  }
}
