/** Properties of the "brock" bookkeeping over a whole sequence of steps: the novelty
    bonus for a map id is granted only on its first visit, the visited list collects
    exactly the maps met, and the done signal fires at most once per badge gained. */
module BrockEpisode {
  import opened Brock

  /** The inputs of one exploration step: where the agent is, where the prior
      snapshot had it, and whether it is in battle. */
  datatype Step = Step(location: Location, prior: Location, inBattle: bool)

  /** The rewards of a sequence of exploration steps and the visited list left behind. */
  datatype Episode = Episode(rewards: seq<real>, visited: seq<int>)

  /** The map ids of the steps, in order. */
  function MapIds(steps: seq<Step>): seq<int>
  {
    seq(|steps|, k requires 0 <= k < |steps| => steps[k].location.mapId)
  }

  /** Runs the exploration reward over the steps in order, threading the visited list. */
  function Run(visited: seq<int>, steps: seq<Step>): (e: Episode)
    decreases |steps|
    ensures |e.rewards| == |steps|
    ensures visited <= e.visited
    ensures |e.visited| <= |visited| + |steps|
    ensures NoDuplicates(visited) ==> NoDuplicates(e.visited)
    ensures forall k :: 0 <= k < |steps| ==> e.rewards[k] in {NoveltyBonus, MoveBonus, IdlePenalty, 0.0}
  {
    if steps == [] then Episode([], visited)
    else
      var first := Explore(visited, steps[0].location, steps[0].prior, steps[0].inBattle);
      var rest := Run(first.visited, steps[1..]);
      Episode([first.reward] + rest.rewards, rest.visited)
  }

  /** The number of novelty bonuses in a sequence of rewards. */
  function NoveltyCount(rewards: seq<real>): nat
  {
    if rewards == [] then 0
    else (if rewards[0] == NoveltyBonus then 1 else 0) + NoveltyCount(rewards[1..])
  }

  /** After an episode the visited list holds exactly the maps known before and the maps met. */
  lemma {:induction false} RunVisitedExactly(visited: seq<int>, steps: seq<Step>)
    decreases |steps|
    ensures forall m :: m in Run(visited, steps).visited <==> m in visited || m in MapIds(steps)
  {
    if steps != [] {
      var first := Explore(visited, steps[0].location, steps[0].prior, steps[0].inBattle);
      RunVisitedExactly(first.visited, steps[1..]);
      assert MapIds(steps) == [steps[0].location.mapId] + MapIds(steps[1..]);
    }
  }

  /** The map ids known before step j + 1 are those known after the first step
      together with those met at steps 1 to j. */
  lemma KnownAfterFirstStep(visited: seq<int>, steps: seq<Step>, j: nat, m: int)
    requires 0 < j < |steps|
    ensures m in Explore(visited, steps[0].location, steps[0].prior, steps[0].inBattle).visited
                   + MapIds(steps[1..][..j - 1])
            <==> m in visited + MapIds(steps[..j])
  {
    assert steps[1..][..j - 1] == steps[..j][1..];
    var ids := MapIds(steps[..j]);
    assert ids == [steps[0].location.mapId] + MapIds(steps[..j][1..]);
  }

  /** Step j earns the novelty bonus exactly when its map id was neither known
      before the episode nor met at an earlier step. */
  lemma {:induction false} NoveltyIffFirstVisit(visited: seq<int>, steps: seq<Step>, j: nat)
    requires j < |steps|
    decreases j
    ensures Run(visited, steps).rewards[j] == NoveltyBonus
            <==> steps[j].location.mapId !in visited + MapIds(steps[..j])
  {
    var first := Explore(visited, steps[0].location, steps[0].prior, steps[0].inBattle);
    if j == 0 {
      assert visited + MapIds(steps[..0]) == visited;
    } else {
      var rest := Run(first.visited, steps[1..]);
      assert Run(visited, steps).rewards[j] == rest.rewards[j - 1];
      NoveltyIffFirstVisit(first.visited, steps[1..], j - 1);
      assert steps[1..][j - 1] == steps[j];
      KnownAfterFirstStep(visited, steps, j, steps[j].location.mapId);
    }
  }

  /** Returning to a map met earlier in the episode never earns the novelty bonus. */
  lemma NoveltyAtMostOnce(visited: seq<int>, steps: seq<Step>, i: nat, j: nat)
    requires i < j < |steps|
    requires steps[i].location.mapId == steps[j].location.mapId
    ensures Run(visited, steps).rewards[j] != NoveltyBonus
  {
    NoveltyIffFirstVisit(visited, steps, j);
    assert MapIds(steps[..j])[i] == steps[i].location.mapId;
  }

  /** Every novelty bonus of an episode corresponds to exactly one map id added to the list. */
  lemma {:induction false} NoveltyCountIsGrowth(visited: seq<int>, steps: seq<Step>)
    decreases |steps|
    ensures NoveltyCount(Run(visited, steps).rewards) == |Run(visited, steps).visited| - |visited|
  {
    if steps != [] {
      var first := Explore(visited, steps[0].location, steps[0].prior, steps[0].inBattle);
      NoveltyCountIsGrowth(first.visited, steps[1..]);
      var e := Run(visited, steps);
      assert e.rewards[1..] == Run(first.visited, steps[1..]).rewards;
    }
  }

  /** The number of steps at which done fires when each snapshot's prior is the one before it. */
  function DoneCount(prior: GameStats, snapshots: seq<GameStats>): nat
    decreases |snapshots|
  {
    if snapshots == [] then 0
    else (if CheckIfDone(snapshots[0], prior) then 1 else 0) + DoneCount(snapshots[0], snapshots[1..])
  }

  predicate BadgesNonDecreasing(prior: GameStats, snapshots: seq<GameStats>) {
    (|snapshots| > 0 ==> prior.badges <= snapshots[0].badges)
    && forall k :: 0 < k < |snapshots| ==> snapshots[k - 1].badges <= snapshots[k].badges
  }

  /** While badges are never lost, done fires at most once per badge gained. */
  lemma {:induction false} DoneAtMostOncePerBadge(prior: GameStats, snapshots: seq<GameStats>)
    requires |snapshots| > 0
    requires BadgesNonDecreasing(prior, snapshots)
    decreases |snapshots|
    ensures DoneCount(prior, snapshots) <= snapshots[|snapshots| - 1].badges - prior.badges
  {
    if |snapshots| > 1 {
      assert BadgesNonDecreasing(snapshots[0], snapshots[1..]) by {
        forall k | 0 < k < |snapshots[1..]|
          ensures snapshots[1..][k - 1].badges <= snapshots[1..][k].badges
        {
          assert snapshots[1..][k - 1] == snapshots[k] && snapshots[1..][k] == snapshots[k + 1];
        }
      }
      DoneAtMostOncePerBadge(snapshots[0], snapshots[1..]);
    }
  }
}
