/** Episode bookkeeping of the Pokémon "brock" task: the exploration reward with its
    memory of visited maps, the battle-presence reward, the composed step reward,
    the done and truncation checks, and the observation vector. */
module Brock {

  /** A byte of emulated memory. */
  type Byte = x: int | 0 <= x < 256

  /** The `location` entry of a game snapshot. */
  datatype Location = Location(x: int, y: int, mapId: int)

  /** The parts of a game snapshot this task reads. */
  datatype GameStats = GameStats(location: Location, badges: int)

  /** Values of the base-class reward terms evaluated on the new snapshot
      (their code is not part of this model, so they are plain inputs). */
  datatype BaseTerms = BaseTerms(caught: real, seen: real, levels: real)

  /** What one exploration step returns and leaves behind in the visited list. */
  datatype Exploration = Exploration(reward: real, visited: seq<int>)

  /** What one truncation check returns and leaves behind in the counter. */
  datatype TruncationDecision = TruncationDecision(truncated: bool, counter: int)

  const NoveltyBonus: real := 10.0
  const MoveBonus: real := 1.0
  const IdlePenalty: real := -0.01
  const BattleBonus: real := 5.0
  const CaughtWeight: real := 100.0
  const LevelsWeight: real := 100.0
  const StagnationLimit: int := 4000
  const StepBudget: int := 1000

  /** The battle-flag byte at 0xD057 is non-zero exactly in battle. */
  predicate InBattle(battleFlag: Byte) {
    battleFlag != 0
  }

  predicate NoDuplicates(s: seq<int>) {
    forall i, j :: 0 <= i < j < |s| ==> s[i] != s[j]
  }

  predicate Moved(location: Location, prior: Location) {
    prior.x != location.x || prior.y != location.y
  }

  /** The exploration reward of one step against the visited map ids so far. */
  function Explore(visited: seq<int>, location: Location, prior: Location, inBattle: bool): (e: Exploration)
    // the visited list only grows, by at most the current map id
    ensures visited <= e.visited
    ensures location.mapId in e.visited
    ensures |e.visited| <= |visited| + 1
    ensures location.mapId in visited ==> e.visited == visited
    ensures NoDuplicates(visited) ==> NoDuplicates(e.visited)
    // novelty is rewarded exactly when the map id is new, and then it is all the reward
    ensures e.reward == NoveltyBonus <==> location.mapId !in visited
    ensures location.mapId in visited ==>
              (e.reward == MoveBonus <==> Moved(location, prior))
    ensures location.mapId in visited && !Moved(location, prior) ==>
              e.reward == (if inBattle then 0.0 else IdlePenalty)
    ensures e.reward in {NoveltyBonus, MoveBonus, IdlePenalty, 0.0}
  {
    if location.mapId !in visited then
      Exploration(NoveltyBonus, visited + [location.mapId])
    else if Moved(location, prior) then
      Exploration(MoveBonus, visited)
    else if !inBattle then
      Exploration(IdlePenalty, visited)
    else
      Exploration(0.0, visited)
  }

  /** The reward for being in battle at all. */
  function BattleReward(battleFlag: Byte): (r: real)
    ensures r == BattleBonus <==> InBattle(battleFlag)
    ensures r == 0.0 <==> !InBattle(battleFlag)
  {
    if InBattle(battleFlag) then BattleBonus else 0.0
  }

  /** The reward of one step: exploration, caught, seen, battle and levels terms. */
  function StepReward(visited: seq<int>, newState: GameStats, prior: GameStats,
                      battleFlag: Byte, base: BaseTerms): (r: real)
    // the part of the reward owned by this task is one of six values, three per mode
    ensures InBattle(battleFlag) ==>
              r - CaughtWeight * base.caught - base.seen - LevelsWeight * base.levels in {15.0, 6.0, 5.0}
    ensures !InBattle(battleFlag) ==>
              r - CaughtWeight * base.caught - base.seen - LevelsWeight * base.levels in {10.0, 1.0, -0.01}
  {
    Explore(visited, newState.location, prior.location, InBattle(battleFlag)).reward
      + CaughtWeight * base.caught
      + base.seen
      + BattleReward(battleFlag)
      + LevelsWeight * base.levels
  }

  /** Done is an edge trigger on the badge count. */
  function CheckIfDone(gameStats: GameStats, prior: GameStats): (done: bool)
    ensures done <==> gameStats.badges > prior.badges
    ensures gameStats.badges <= prior.badges ==> !done
  {
    gameStats.badges > prior.badges
  }

  /** The truncation decision and the stagnation counter it leaves. */
  function Truncation(counter: int, steps: int): (d: TruncationDecision)
    ensures d.truncated <==> counter > StagnationLimit || steps >= StepBudget
    ensures d.counter <= StagnationLimit
    ensures counter > StagnationLimit ==> d.truncated && d.counter == 0
    ensures counter <= StagnationLimit ==> d.counter == counter
  {
    if counter > StagnationLimit then TruncationDecision(true, 0)
    else TruncationDecision(steps >= StepBudget, counter)
  }

  /** The observation vector. */
  function GetState(gameStats: GameStats): (v: seq<int>)
    ensures |v| == 3
    ensures v[0] == gameStats.location.x && v[1] == gameStats.location.y
    ensures v[2] == gameStats.location.mapId
  {
    [gameStats.location.x, gameStats.location.y, gameStats.location.mapId]
  }

  /** The observation determines the location and nothing else of the snapshot. */
  lemma GetStateExactlyLocation(a: GameStats, b: GameStats)
    ensures GetState(a) == GetState(b) <==> a.location == b.location
  {
  }

  /** The task object: the list of visited map ids and the stagnation counter. */
  class PokemonBrock {
    var visitedCoords: seq<int>
    var sameLocationCounter: int

    ghost predicate Valid()
      reads this
    {
      NoDuplicates(visitedCoords)
    }

    constructor ()
      ensures Valid()
      ensures visitedCoords == [] && sameLocationCounter == 0
    {
      visitedCoords := [];
      sameLocationCounter := 0;
    }

    /** Rewards a new map id (and remembers it), else movement, else idling. */
    method ExplorationReward(location: Location, prior: GameStats, battleFlag: Byte) returns (r: real)
      requires Valid()
      modifies this`visitedCoords
      ensures Valid()
      ensures Exploration(r, visitedCoords)
              == Explore(old(visitedCoords), location, prior.location, InBattle(battleFlag))
    {
      var battle := battleFlag != 0;
      if location.mapId !in visitedCoords {
        visitedCoords := visitedCoords + [location.mapId];
        return NoveltyBonus;
      }
      if prior.location.x != location.x || prior.location.y != location.y {
        r := MoveBonus;
      } else if !battle {
        r := IdlePenalty;
      } else {
        r := 0.0;
      }
    }

    /** Sums the reward terms of one step, exploration first. */
    method CalculateReward(newState: GameStats, prior: GameStats, battleFlag: Byte, base: BaseTerms)
      returns (r: real)
      requires Valid()
      modifies this`visitedCoords
      ensures Valid()
      ensures r == StepReward(old(visitedCoords), newState, prior, battleFlag, base)
      ensures visitedCoords
              == Explore(old(visitedCoords), newState.location, prior.location, InBattle(battleFlag)).visited
    {
      var tempReward: real := 0.0;
      var exploration := ExplorationReward(newState.location, prior, battleFlag);
      tempReward := tempReward + exploration;
      tempReward := tempReward + base.caught * CaughtWeight;
      tempReward := tempReward + base.seen;
      tempReward := tempReward + BattleReward(battleFlag);
      tempReward := tempReward + base.levels * LevelsWeight;
      r := tempReward;
    }

    /** Truncates on too long a stagnation (resetting the counter) or on the step budget. */
    method CheckIfTruncated(steps: int) returns (truncated: bool)
      modifies this`sameLocationCounter
      ensures TruncationDecision(truncated, sameLocationCounter)
              == Truncation(old(sameLocationCounter), steps)
    {
      if sameLocationCounter > StagnationLimit {
        sameLocationCounter := 0;
        return true;
      }
      return steps >= StepBudget;
    }
  }
}
