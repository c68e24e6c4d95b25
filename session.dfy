/**
 * The session ledger: money, error budget, score, the wave counter and the
 * pause / game-over / victory flags, with every notification the game
 * manager emits appended to an event log.
 */
module Session {
  import opened GameTypes

  datatype GameState = GameState(
    money: int,
    errorBudget: int,
    currentWave: int,
    totalWaves: int,
    score: int,
    isPaused: bool,
    isGameOver: bool,
    isVictory: bool)

  /** The notifications of the game manager, with their payloads. */
  datatype GameEvent =
    | Initialized(state: GameState)
    | MoneyChanged(money: int)
    | ErrorBudgetChanged(errorBudget: int)
    | ScoreChanged(score: int)
    | WaveStarted(wave: int)
    | WaveCompleted(wave: int)
    | Paused
    | Resumed
    | GameOver(finalScore: int)
    | Victory(finalScore: int)
    | ResetDone

  /** The state before any level is loaded. */
  function InitialState(): (s: GameState)
    ensures s.money == StartingMoney && s.errorBudget == StartingErrorBudget
    ensures s.currentWave == 0 && s.totalWaves == 0 && s.score == 0
    ensures !s.isPaused && !s.isGameOver && !s.isVictory
  {
    GameState(StartingMoney, StartingErrorBudget, 0, 0, 0, false, false, false)
  }

  /** The state a level starts from. */
  function LevelStartState(level: LevelData): (s: GameState)
    ensures s.money == level.startingMoney && s.errorBudget == level.startingErrorBudget
    ensures s.totalWaves == |level.waves|
    ensures s.currentWave == 0 && s.score == 0
    ensures !s.isPaused && !s.isGameOver && !s.isVictory
  {
    GameState(level.startingMoney, level.startingErrorBudget, 0, |level.waves|, 0, false, false, false)
  }

  /** The budget after `amount` of damage: lowered, and floored at 0. */
  function DamagedBudget(budget: int, amount: int): (b: int)
    ensures b >= 0
    ensures b <= budget - amount || b == 0
    ensures b == 0 <==> budget - amount <= 0
    ensures amount >= 0 ==> b <= budget || budget < 0
  {
    if budget - amount > 0 then budget - amount else 0
  }

  /** The budget after each hit of `hits` in turn. */
  function AfterHits(budget: int, hits: seq<int>): int
    decreases |hits|
  {
    if hits == [] then budget else AfterHits(DamagedBudget(budget, hits[0]), hits[1..])
  }

  function Sum(hits: seq<int>): int
    decreases |hits|
  {
    if hits == [] then 0 else hits[0] + Sum(hits[1..])
  }

  /**
   * Non-negative hits taken one at a time leave the same budget as their
   * total taken at once: the floor at 0 loses nothing.
   */
  lemma {:induction false} HitsAccumulate(budget: int, hits: seq<int>)
    requires budget >= 0
    requires forall i :: 0 <= i < |hits| ==> hits[i] >= 0
    ensures Sum(hits) >= 0
    ensures AfterHits(budget, hits) == DamagedBudget(budget, Sum(hits))
    decreases |hits|
  {
    if hits != [] {
      HitsAccumulate(DamagedBudget(budget, hits[0]), hits[1..]);
    }
  }

  class GameManager {
    var gameState: GameState
    var currentLevel: Option<LevelData>
    /** Every notification emitted so far, oldest first. */
    var events: seq<GameEvent>

    /** The wave counter stays within [0, totalWaves]. */
    ghost predicate Valid()
      reads this
    {
      0 <= gameState.currentWave <= gameState.totalWaves
    }

    constructor ()
      ensures Valid()
      ensures gameState == InitialState() && currentLevel == None && events == []
    {
      gameState := InitialState();
      currentLevel := None;
      events := [];
    }

    /** Loads a level: money and budget from it, one wave counter slot per wave, all else cleared. */
    method InitializeGame(level: LevelData)
      modifies this
      ensures Valid()
      ensures currentLevel == Some(level)
      ensures gameState == LevelStartState(level)
      ensures events == old(events) + [Initialized(gameState)]
    {
      currentLevel := Some(level);
      gameState := LevelStartState(level);
      events := events + [Initialized(gameState)];
    }

    function GetState(): (s: GameState)
      reads this
      ensures s == gameState
    {
      gameState
    }

    function GetLevel(): Option<LevelData>
      reads this
    {
      currentLevel
    }

    /** Unconditional addition. */
    method AddMoney(amount: int)
      requires Valid()
      modifies this`gameState, this`events
      ensures Valid()
      ensures gameState == old(gameState).(money := old(gameState).money + amount)
      ensures events == old(events) + [MoneyChanged(gameState.money)]
    {
      gameState := gameState.(money := gameState.money + amount);
      events := events + [MoneyChanged(gameState.money)];
    }

    /** Pays `amount` if the funds cover it; otherwise nothing changes. */
    method SpendMoney(amount: int) returns (ok: bool)
      requires Valid()
      modifies this`gameState, this`events
      ensures Valid()
      ensures ok <==> old(gameState).money >= amount
      ensures ok ==> gameState == old(gameState).(money := old(gameState).money - amount)
      ensures ok ==> events == old(events) + [MoneyChanged(gameState.money)]
      ensures !ok ==> gameState == old(gameState) && events == old(events)
    {
      if gameState.money >= amount {
        gameState := gameState.(money := gameState.money - amount);
        events := events + [MoneyChanged(gameState.money)];
        return true;
      }
      return false;
    }

    /**
     * Lowers the budget, floored at 0; a budget of 0 ends the game (and
     * does so again on every later call).
     */
    method DamageErrorBudget(amount: int)
      requires Valid()
      modifies this`gameState, this`events
      ensures Valid()
      ensures gameState.errorBudget == DamagedBudget(old(gameState).errorBudget, amount)
      ensures gameState.isGameOver == (old(gameState).isGameOver || gameState.errorBudget == 0)
      ensures gameState == old(gameState).(errorBudget := gameState.errorBudget,
                                           isGameOver := gameState.isGameOver)
      ensures events == old(events) + [ErrorBudgetChanged(gameState.errorBudget)] +
                        (if gameState.errorBudget == 0 then [GameOver(gameState.score)] else [])
    {
      gameState := gameState.(errorBudget := Max(0, gameState.errorBudget - amount));
      events := events + [ErrorBudgetChanged(gameState.errorBudget)];
      if gameState.errorBudget <= 0 {
        TriggerGameOver();
      }
    }

    /** Unconditional addition. */
    method AddScore(points: int)
      requires Valid()
      modifies this`gameState, this`events
      ensures Valid()
      ensures gameState == old(gameState).(score := old(gameState).score + points)
      ensures events == old(events) + [ScoreChanged(gameState.score)]
    {
      gameState := gameState.(score := gameState.score + points);
      events := events + [ScoreChanged(gameState.score)];
    }

    /** Counts one more wave, but never past `totalWaves`. */
    method StartNextWave()
      requires Valid()
      modifies this`gameState, this`events
      ensures Valid()
      ensures old(gameState).currentWave < old(gameState).totalWaves ==>
        && gameState == old(gameState).(currentWave := old(gameState).currentWave + 1)
        && events == old(events) + [WaveStarted(gameState.currentWave)]
      ensures old(gameState).currentWave >= old(gameState).totalWaves ==>
        gameState == old(gameState) && events == old(events)
    {
      if gameState.currentWave < gameState.totalWaves {
        gameState := gameState.(currentWave := gameState.currentWave + 1);
        events := events + [WaveStarted(gameState.currentWave)];
      }
    }

    /** Reports the wave as complete; the last wave also wins the game. */
    method CompleteWave()
      requires Valid()
      modifies this`gameState, this`events
      ensures Valid()
      ensures var won := old(gameState).currentWave >= old(gameState).totalWaves;
        && gameState == old(gameState).(isVictory := old(gameState).isVictory || won)
        && events == old(events) + [WaveCompleted(gameState.currentWave)] +
                     (if won then [Victory(gameState.score)] else [])
    {
      events := events + [WaveCompleted(gameState.currentWave)];
      if gameState.currentWave >= gameState.totalWaves {
        TriggerVictory();
      }
    }

    method Pause()
      requires Valid()
      modifies this`gameState, this`events
      ensures Valid()
      ensures gameState == old(gameState).(isPaused := true)
      ensures events == old(events) + [Paused]
    {
      gameState := gameState.(isPaused := true);
      events := events + [Paused];
    }

    method Resume()
      requires Valid()
      modifies this`gameState, this`events
      ensures Valid()
      ensures gameState == old(gameState).(isPaused := false)
      ensures events == old(events) + [Resumed]
    {
      gameState := gameState.(isPaused := false);
      events := events + [Resumed];
    }

    method TriggerGameOver()
      requires Valid()
      modifies this`gameState, this`events
      ensures Valid()
      ensures gameState == old(gameState).(isGameOver := true)
      ensures events == old(events) + [GameOver(gameState.score)]
    {
      gameState := gameState.(isGameOver := true);
      events := events + [GameOver(gameState.score)];
    }

    method TriggerVictory()
      requires Valid()
      modifies this`gameState, this`events
      ensures Valid()
      ensures gameState == old(gameState).(isVictory := true)
      ensures events == old(events) + [Victory(gameState.score)]
    {
      gameState := gameState.(isVictory := true);
      events := events + [Victory(gameState.score)];
    }

    /** Back to the constants of `InitialState`, with no level loaded. */
    method Reset()
      modifies this
      ensures Valid()
      ensures gameState == InitialState() && currentLevel == None
      ensures events == old(events) + [ResetDone]
    {
      gameState := InitialState();
      currentLevel := None;
      events := events + [ResetDone];
    }
  }
}
