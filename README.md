# Pokémon "brock" task: episode bookkeeping

This project models the reward and termination bookkeeping of the `PokemonBrock`
task of a PyBoy reinforcement-learning environment. It proves properties of that model.

- **Exploration reward.** The task keeps a list of the map ids it has seen.
  - A map id met for the first time earns 10 and is appended to the list.
  - Otherwise a change of x or y since the prior snapshot earns 1.
  - Otherwise standing still earns -0.01 outside battle and 0 in battle.
- **Battle reward.** Being in battle earns 5. The battle flag byte at 0xD057 is non-zero in battle.
- **Step reward.** It is exploration + 100·caught + seen + battle + 100·levels.
- **Done.** The badge count strictly exceeds the prior snapshot's.
- **Truncated.** Either the stagnation counter exceeds 4000, which also resets the counter to 0, or the step count reaches 1000.
- **Observation.** The vector `[x, y, map_id]`.

Files:
- `brock.dfy` (module `Brock`) holds the data model and the pure operations as functions. It also holds the class
  `PokemonBrock`, whose two fields `visitedCoords` and `sameLocationCounter` are
  updated in place by the methods `ExplorationReward`, `CalculateReward` and
  `CheckIfTruncated`. Each method is proved equal to a pure specification function.
- `episode.dfy` (module `BrockEpisode`) runs the exploration reward over a sequence of
  steps. It proves that the novelty bonus is granted only on a map's first visit and that
  the visited list collects exactly the maps met. It also proves that done fires at most
  once per badge gained.

Modelling decisions:
- Emulator reads are inputs.
  - The battle flag is a `Byte` parameter.
  - The snapshot is a `GameStats` record holding only the fields this task reads: the location and the badge count.
- The base class's `prior_game_stats` and `steps` are parameters, because that class is not part of this model.
- `_calculate_reward` reads the battle byte twice: once inside `exploration_reward` and once in the battle term.
  No emulator tick happens between the two reads, so the model passes one value to both.
- In `brock.py:51-53`, `visited_coords` and `same_location_counter` are class attributes.
  - Python shares the list among all `PokemonBrock` instances until one of them rebinds it.
  - The model makes both instance fields.
- Line `brock.py:132` cannot be reached: every branch above it returns.
  `Brock.Explore` has exactly those four branches, and its contract limits the reward to {10, 1, -0.01, 0}.
- Truncation never clears `visited_coords`. `_check_if_truncated` resets only the stagnation counter, and only when it exceeds 4000 (`brock.py:140-142`).
- No map id is exempt from the novelty bonus (`brock.py:109-111`).
- `same_location_counter` is never incremented in `brock.py`; only commented-out code does so.
  The counter branch of `CheckIfTruncated` is modelled all the same.

## Model

| member | source | states |
|---|---|---|
| `Brock.Explore` | pyboy_environment/environments/pokemon/tasks/brock.py:107-118 | The old visited list is a prefix of the new one. The new list holds the current map id and gains at most one element. Without duplicates before means without duplicates after. The reward is 10 iff the map id was not yet visited, so a new map earns exactly 10 even when x or y also changed. On a visited map the reward is 1 iff x or y changed. Standing still on a visited map gives -0.01 outside battle and 0 in battle. The reward always lies in {10, 1, -0.01, 0}. |
| `Brock.PokemonBrock.ExplorationReward` | pyboy_environment/environments/pokemon/tasks/brock.py:107-118 | The returned reward and the new `visitedCoords` are those of `Explore` on the old list. It keeps the list free of duplicates. |
| `Brock.StepReward` | pyboy_environment/environments/pokemon/tasks/brock.py:73-104 | The step reward is exploration + 100·caught + seen + battle + 100·levels. The battle term is 5 in battle and 0 outside. So the reward minus 100·caught, seen and 100·levels lies in {15, 6, 5} in battle and in {10, 1, -0.01} outside battle. |
| `Brock.PokemonBrock.CalculateReward` | pyboy_environment/environments/pokemon/tasks/brock.py:73-94 | The result is exploration + 100·caught + seen + battle + 100·levels, with exploration evaluated on the old visited list. The visited list is updated as `Explore` says. |
| `Brock.Truncation` | pyboy_environment/environments/pokemon/tasks/brock.py:138-144 | Truncated holds iff the counter exceeds 4000 or the step count is at least 1000. A counter above 4000 is reset to 0; any other counter is unchanged. The counter left behind never exceeds 4000. |
| `Brock.PokemonBrock.CheckIfTruncated` | pyboy_environment/environments/pokemon/tasks/brock.py:138-144 | The answer and the new `sameLocationCounter` are those of `Truncation` on the old counter. Nothing else changes. |
| `Brock.PokemonBrock.constructor` | pyboy_environment/environments/pokemon/tasks/brock.py:50-53 | The task starts with an empty visited list and a zero counter. |
| `Brock.GetStateExactlyLocation` | pyboy_environment/environments/pokemon/tasks/brock.py:55-71 | `GetState` returns the vector `[x, y, map_id]`. Two snapshots give the same vector iff they have the same location. |
| `BrockEpisode.Run` | pyboy_environment/environments/pokemon/tasks/brock.py:107-118 | Over a sequence of steps there is one reward per step, each in {10, 1, -0.01, 0}. The visited list only grows, by at most the number of steps in total, and stays free of duplicates. |
| `BrockEpisode.RunVisitedExactly` | pyboy_environment/environments/pokemon/tasks/brock.py:109-110 | After an episode a map id is in the visited list iff it was known before or met at some step. |
| `BrockEpisode.NoveltyIffFirstVisit` | pyboy_environment/environments/pokemon/tasks/brock.py:109-111 | Step j earns 10 iff its map id was neither known before the episode nor met at an earlier step. |
| `BrockEpisode.NoveltyAtMostOnce` | pyboy_environment/environments/pokemon/tasks/brock.py:109-111 | A later step on a map id met at an earlier step never earns 10. |
| `BrockEpisode.NoveltyCountIsGrowth` | pyboy_environment/environments/pokemon/tasks/brock.py:109-111 | The number of 10-rewards in an episode equals the number of ids added to the visited list. |
| `BrockEpisode.DoneAtMostOncePerBadge` | pyboy_environment/environments/pokemon/tasks/brock.py:134-136 | Done at a step means its badge count strictly exceeds its prior's. Assume each snapshot's prior is the snapshot before it and badges are never lost. Then done fires at most (last badge count − first prior badge count) times. |

## Left out

- Emulator I/O is not modelled: `_read_m`, `_generate_game_stats`, `_get_screen_walkable_matrix`, and the button press and release lists built in `__init__` (`brock.py:13-48`). Their results are inputs.
- The base-class terms `_caught_reward`, `_seen_reward` and `_levels_reward` are not modelled: their code is not part of this model. They are uninterpreted real inputs (`BaseTerms`).
- The base class's stepping loop, action mapping and its updates of `prior_game_stats` and `steps` are not part of this model.
  - `DoneAtMostOncePerBadge` assumes that the prior snapshot is the previous step's snapshot.
  - The other episode lemmas take each step's prior location as an input.
- `_check_if_truncated` takes a `game_stats` argument that it never reads, so the model drops it.
- The `isBattle` read in `_get_state` is unused, so the model drops it.
- `dictionary_visitations` (`brock.py:52`) is never used, and the commented-out code is not modelled.
- The `np.array` packaging of the observation becomes a plain `seq<int>`.
- Python's aliasing of the class-level list `visited_coords` across instances is not modelled. Each object owns its list.
- `pyboy_environment/suite.py`'s `make` factory only dispatches on strings and is not modelled.
- Python floats are modelled as exact reals. The sums in `_calculate_reward` therefore carry no rounding.
