/**
 * Shared vocabulary of the game: the grid constants of the game
 * configuration, grid positions, and the enemy and tower catalogues.
 */
module GameTypes {

  /** Pixel size of one grid cell. */
  const GridSize: int := 64
  /** Number of grid columns (1280 / 64). */
  const GridCols: int := 20
  /** Number of grid rows (720 / 64, with UI space). */
  const GridRows: int := 11

  const StartingMoney: int := 500
  const StartingErrorBudget: int := 100

  /** A position on a grid, in columns and rows. */
  datatype Cell = Cell(x: int, y: int)

  datatype EnemyType = TrafficSpike | Ddos | MemoryLeak | SlowQuery | FridayDeploy

  /** The tower names used by the tower entity and the tower table. */
  datatype TowerType = Nginx | LoadBalancer | Redis | Kafka | Database | Monitoring

  /** One spawn group of a wave: `count` enemies of one type, `interval` ms apart. */
  datatype EnemyGroup = EnemyGroup(enemyType: EnemyType, count: int, interval: real)

  /** A wave: its groups in spawn order and the bonus paid on completion. */
  datatype WaveConfig = WaveConfig(waveNumber: int, enemies: seq<EnemyGroup>, reward: int)

  datatype DecorType = Tux | Tenor | Peppo

  /** A decoration placed in the level editor. */
  datatype DecorObject = DecorObject(decorType: DecorType, position: Cell)

  /** The level record consumed by the game session and the wave scheduler. */
  datatype LevelData = LevelData(
    id: int,
    name: string,
    description: string,
    gridWidth: int,
    gridHeight: int,
    spawnPoints: seq<Cell>,
    targetPoints: seq<Cell>,
    paths: seq<seq<Cell>>,
    decorations: seq<DecorObject>,
    buildableArea: seq<Cell>,
    waves: seq<WaveConfig>,
    startingMoney: int,
    startingErrorBudget: int)

  datatype Option<T> = None | Some(value: T)

  /** `Math.max` on two integers. */
  function Max(a: int, b: int): (m: int)
    ensures m >= a && m >= b && (m == a || m == b)
  {
    if a >= b then a else b
  }

  /** Does `s` hold no element twice? */
  predicate NoDuplicates<T(==)>(s: seq<T>) {
    forall i, j :: 0 <= i < j < |s| ==> s[i] != s[j]
  }

  /** Decimal rendering of an integer, as a template literal prints it. */
  function IntToString(n: int): (s: string)
    ensures |s| >= 1
    ensures n < 0 <==> s[0] == '-'
  {
    if n < 0 then "-" + NatToString(-n) else NatToString(n)
  }

  function NatToString(n: nat): (s: string)
    ensures |s| >= 1 && s[0] != '-'
    ensures forall i :: 0 <= i < |s| ==> '0' <= s[i] <= '9'
  {
    var d := DigitChar(n % 10);
    if n < 10 then [d] else NatToString(n / 10) + [d]
  }

  function DigitChar(d: nat): (c: char)
    requires d < 10
    ensures '0' <= c <= '9'
  {
    ['0', '1', '2', '3', '4', '5', '6', '7', '8', '9'][d]
  }
}
