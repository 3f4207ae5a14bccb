# Business Empire: decision resolution and progression, in Dafny

This project models the game engine of the "Business Empire" educational business
simulation. A player runs a company whose metrics are grouped as business,
production, workforce and marketing. Each turn the player picks one choice of a
scenario, and the game does four things:

- applies that choice's consequences to the company's metrics;
- scores the decision from 0 to 100;
- awards experience points, counts the decision, possibly raises the level and
  unlocks the "Business Rookie" achievement;
- ranks players on a leaderboard.

Modules:

- `Results` (results.dfy): `Option` and `Result`.
- `Metrics` (metrics.dfy): the four metric groups are maps from field name to
  `real`. `ApplyChange` and `ApplyAll` specify applying a consequences dictionary.
  The `Company` class and the `ApplyDecisionConsequences` method do the work on a
  deep copy, in a loop, as the server does.
- `Scoring` (scoring.dfy): the success score.
- `Progression` (progression.dfy): the progression fields as a value (`Progress`),
  the one-decision update `Progressed`, and its invariants. The `Player` class's
  `RecordDecision` method makes the update in place.
- `Scenarios` (scenarios.dfy): the scenario catalog (the server's six scenarios),
  scenario lookup by title, and choice resolution.
- `Decision` (decision.dfy): the whole decision step, checks first and then
  mutation.
- `Leaderboard` (leaderboard.dfy): ranking by experience points, the top ten, and
  the success rate.

Facts about the server that shape the model:

- No indicator has a polarity, and no indicator is clamped at 100. The server clamps
  every metric at 0 only, whatever its name.
- There is no phase or year state machine. The server draws scenarios at random,
  and a decision names its scenario by title.
- A decision counts as successful when its score is strictly above 70.
- The level goes up by at most one per decision: +1 when the new experience points
  reach `level * 100`. `ProgressedConsistent` shows that this rule always yields
  `experience_points / 100 + 1`, the level recomputed from the points, because one
  decision earns at most 20 points.

## Model

| member | source | states |
|---|---|---|
| `Metrics.ApplyChange` | backend/server.py:322-338 | One change never adds or removes a field of any group. A name no group has leaves the metrics unchanged. |
| `Metrics.ApplyChangeAt` | backend/server.py:322-338 | After one change, the metric it names is `max(0, current + change)`, taken in the first group that has the field. Every other metric keeps its value. The same names are known before and after. |
| `Metrics.ApplyAll` | backend/server.py:320-340 | Applying a whole consequences dictionary keeps every group's field set. |
| `Metrics.ApplyAllAt` | backend/server.py:322-338 | After applying a dictionary, a known metric it names equals `max(0, old + change)`, so it is never negative. A known metric it does not name keeps its old value. |
| `Metrics.ApplyAllIgnoresUnknown` | backend/server.py:322-338 | Consequences whose names no group has leave the company's metrics exactly as they were. |
| `Metrics.ApplyAllKeepsInvariant` | backend/server.py:318-340 | A company with all its fields and no negative metric keeps both properties after any consequences. |
| `Metrics.DefaultBusiness` | backend/server.py:51-57 | The business defaults cover exactly the declared fields, none is negative, and cash starts at 100000. |
| `Metrics.DefaultProduction` | backend/server.py:59-64 | The production defaults cover exactly the declared fields, and none is negative. |
| `Metrics.DefaultWorkforce` | backend/server.py:66-71 | The workforce defaults cover exactly the declared fields, and none is negative. |
| `Metrics.DefaultMarketing` | backend/server.py:73-78 | The marketing defaults cover exactly the declared fields, and none is negative. |
| `Metrics.DefaultMetrics` | backend/server.py:51-78 | The defaults of a new company cover exactly the declared fields of each group, are non-negative, and start cash at 100000. |
| `Metrics.Company.constructor` | backend/server.py:80-88 | A new company has the given name and industry and the default metrics. |
| `Metrics.Company.CopyOf` | backend/server.py:320 | A deep copy has the source's name, industry and metrics. |
| `Metrics.Company.Apply` | backend/server.py:322-338 | One loop iteration updates the company's groups in place to `ApplyChange` of their old values. Name and industry are unchanged. |
| `Metrics.ApplyDecisionConsequences` | backend/server.py:318-340 | Returns a fresh company whose metrics are `ApplyAll` of the input's. The input company is not modified, because the method modifies no existing object. |
| `Scoring.PositiveImpact` | backend/server.py:344 | The sum of the gains is never negative. |
| `Scoring.NegativeImpact` | backend/server.py:345 | The sum of the losses is never positive. |
| `Scoring.ImpactsSplitNetChange` | backend/server.py:344-345 | Gains plus losses equal the plain sum of all changes, so each change is counted exactly once. |
| `Scoring.DecisionSuccess` | backend/server.py:342-351 | The score always lies in [0, 100]. It equals `50 + 2*gains + 1.5*losses + 10*cash/100000` when that is in range, 0 below the range and 100 above it. |
| `Scoring.NoLossesScoresAtLeastFifty` | backend/server.py:344-351 | A decision with no negative change, on a company whose cash is not negative, scores at least 50. |
| `Scoring.NoLossesNoPenalty` | backend/server.py:345 | Without negative changes the loss term is 0. |
| `Progression.Truncate` | backend/server.py:473 | Python's `int()` on a float truncates toward zero: the floor for non-negative values, the ceiling for negative ones. |
| `Progression.XpGained` | backend/server.py:473 | `int(score / 10) + 10` is between 10 and 20 for a score in [0, 100], and at least 10 for any non-negative score. |
| `Progression.XpGainedMonotone` | backend/server.py:473 | A higher score never earns fewer experience points. |
| `Progression.Progressed` | backend/server.py:472-485 | One decision does all of the following. Experience points grow by the gain, between 10 and 20 for a score in range. `total_decisions` grows by exactly 1. `successful_decisions` grows by 1 if and only if the score is above 70, and otherwise stays the same. The level goes up by at most one, and by one exactly when the new points reach `level * 100`. Achievements are only appended: the old list is a prefix, the only possible new entry is "Business Rookie", it is held once `total_decisions >= 10`, and it is never duplicated. |
| `Progression.ProgressedConsistent` | backend/server.py:473-485 | A decision keeps a player consistent. Consistent means all of: points are non-negative, the level equals `points / 100 + 1`, `successful <= total`, achievements have no duplicates, and "Business Rookie" is held exactly when `total >= 10`. |
| `Progression.ReplayMonotone` | backend/server.py:472-485 | Over any sequence of decisions, the level never decreases and rises by at most one per decision. Points grow by at least 10 per decision. `total_decisions` counts every decision. Achievements only grow. |
| `Progression.ReplayConsistent` | backend/server.py:472-485 | Any sequence of decisions keeps a consistent player consistent. |
| `Progression.RookieFromTenthDecision` | backend/server.py:484-485 | A new player holds "Business Rookie" exactly after ten or more decisions. Their level is the one their points reach, and `successful_decisions <= total_decisions`. |
| `Progression.Player.constructor` | backend/server.py:90-99 | A new player starts at level 1 with no points, no decisions and no achievements, and is consistent. |
| `Progression.Player.RecordDecision` | backend/server.py:472-485 | The player's fields become `Progressed` of their old values. The method returns the points gained, and `level_up` is true exactly when the level rose. Consistency is preserved for scores in [0, 100]. |
| `Scenarios.TitleIndex` | backend/server.py:445 | Finds the first scenario with the title, or reports that none has it. |
| `Scenarios.FindScenario` | backend/server.py:445 | Returns the first scenario with the requested title. An unknown title falls back to the first scenario of the catalog. |
| `Scenarios.ResolveChoice` | backend/server.py:448-452 | An index `>= len(choices)` is rejected as an invalid choice. An index below `-len(choices)` fails as Python's IndexError. Any other index selects the choice, counting from the end when negative. A choice without a consequences entry resolves to the empty dictionary. |
| `Scenarios.BusinessScenariosWellFormed` | backend/server.py:149-264 | The server's catalog has six scenarios, and every choice of every scenario has a consequences entry. |
| `Decision.MakeDecision` | backend/server.py:445-499 | The decision is rejected exactly when resolution fails, and then the player is unchanged. When it is accepted, the returned company is a fresh copy whose metrics are `ApplyAll` of the old ones. The score is `DecisionSuccess` on that updated company. The player becomes `Progressed` with that score. `level_up` is true exactly when the level rose. |
| `Decision.DecisionKeepsInvariants` | backend/server.py:455-485 | A decision keeps a consistent player consistent. It keeps a well-formed company well formed with non-negative metrics. |
| `Decision.WellFormedChoicesResolve` | backend/server.py:448-452 | In a catalog of well-formed scenarios, every in-range index resolves to its choice's own consequences entry. |
| `Leaderboard.SuccessRate` | backend/server.py:528 | `successful / max(1, total) * 100` never divides by zero. It lies in [0, 100] when `0 <= successful <= total`. |
| `Leaderboard.Insert` | backend/server.py:514 | Inserting into a ranking keeps it ordered by points descending and adds exactly that player, once. The result starts with the new player or with the old head. |
| `Leaderboard.SortByXp` | backend/server.py:514 | The ranking is a permutation of the players, ordered by non-increasing points. |
| `Leaderboard.TopPlayers` | backend/server.py:514 | The query's result has `min(10, players)` entries, ordered by non-increasing points. It is a sub-multiset of the stored players, so no player appears more often than stored. |
| `Leaderboard.TopPlayersAreTop` | backend/server.py:514 | No player left out of the top ten has more points than any player in it. |
| `Leaderboard.Entries` | backend/server.py:517-529 | The entries shown for a ranking: one per player whose company is found, in ranking order. Never more entries than players. |
| `Leaderboard.EntriesMembers` | backend/server.py:517-529 | Every entry shown belongs to a ranked player whose company is found, and every such player is shown. |
| `Leaderboard.EntriesOrdered` | backend/server.py:514-529 | A ranking ordered by points gives entries ordered by points. |
| `Leaderboard.GetLeaderboard` | backend/server.py:514-531 | The loop builds exactly `Entries` of the top ten: for each player in ranking order, the entry with their company and `SuccessRate`, skipped when the company is missing. |
| `Leaderboard.LeaderboardShape` | backend/server.py:514-531 | The leaderboard has at most 10 entries, ordered by non-increasing points. Each entry belongs to a top-ten player whose company is found, and every such player has an entry. |
| `Leaderboard.ConsistentSuccessRateInRange` | backend/server.py:528 | The success rate of a consistent player lies in [0, 100]. |

## Left out

- Database access, FastAPI routing, CORS, logging and startup/shutdown hooks are I/O and framework plumbing. The store is left out. The decision takes the player and company objects, and the leaderboard takes the stored players and a map of stored companies. "Player not found" and "Company not found" are therefore not modelled.
- `get_random_scenario` is not modelled. It picks a scenario with a random draw over a database query. Decisions name their scenario by title.
- `calculate_monthly_report` is not modelled. It is floating-point arithmetic with `int()` truncation of float products. So neither the report a decision returns nor the leaderboard's `monthly_revenue` is modelled.
- Records are not built with random ids or timestamps. The `BusinessDecision` record a decision stores is not modelled, nor is the learning objective it returns.
- The challenge list, the industries list, and the texts of scenarios and choices are static content returned without evaluation. Only scenario titles, decision types, choice ids and consequences are modelled.
- Metrics are exact reals. Float rounding, and the int type of some fields, are not modelled.
- `Metrics.ApplyChange`: a consequence key naming a non-field attribute of a pydantic record, such as `copy`, passes `hasattr` in the source and then fails. The model treats only declared fields as present. No consequence in the server's catalog names such an attribute.
- `Leaderboard.SortByXp`: the database's order among players with equal points is unspecified. The model fixes one deterministic order: `Insert` puts a player before the first player with at most as many points. Which order that gives among equal players is not stated as a property.
- Concurrency between simultaneous decisions for one player is not modelled. The decision step is modelled as one sequential step.
