# Hockey league scheduling, modelled in Dafny

The scheduler assigns games between teams of a roster to rink-time slots.
It hands a 0/1 integer program to an external solver. There is one binary
decision per triple (team i, team j, slot k). Five constraint families
define a feasible schedule:

1. each slot is used at most once;
2. no team plays itself;
3. teams of different divisions never meet;
4. each pair of distinct teams in one division meets exactly once, in either order;
5. each team plays exactly `num_games_per_team` games.

The objective sums, over the chosen decisions, `alpha * time + beta * rink`.
Here `time` adds the two teams' ranks for the slot's time band, and `rink`
adds their ranks for the slot's rink.

This project models that core:

- `TimeBands`: the five configured hhmm bands and the lookup of a start time.
- `Inputs`: the input tables, as sequences indexed by team, rink and band, and the six-team example league.
- `Costs`: `difference_time`, `difference_rink` and the weighted per-decision cost.
- `Schedule`: the solver's answer, taken as the set of decisions valued 1, and the predicate `ValidSchedule` that mirrors constraints 1 to 5. It is split into `SlotsExclusive` (constraint 1) and `QuotaConstraints` (constraints 2 to 5).
- `Feasibility`: counting consequences of the constraints.
- `Checker`: nested loops that recompute every constraint sum of a returned assignment, and the loop that counts the games.
- `ModelBuilder`: the loops that emit the constraints, kept as data.
- `Objective`: the objective the solver minimises.

The model follows the code in these details, where a cleaner design might differ:

- The pair quota is hard-coded to exactly one meeting. There is no `max_meetings_per_pair` setting.
- The quota constraint is emitted once per ordered pair, so each unordered pair gets it twice.
- Decisions with i == j exist and are forced to 0.
- Start times are hhmm clock values, not minutes.
- The band lookup takes the first matching band. It does not check the band list for gaps or overlaps. Instead, the model proves that the configured bands are contiguous and disjoint.
- A start time outside every band makes the lookup fail. Because the cost tables are filled for every decision, one such slot stops the build whenever there is at least one team.
- The code has no feasibility pre-check. `Feasibility.DivisionSize` shows what such a check would have to test.

## Model

| member | source | states |
|---|---|---|
| TimeBands.FirstContaining | main.py:121 | Returns the index of the first band whose [lo, hi) holds t. No earlier band holds t. It returns None exactly when no band holds t, the case where taking [0] fails. |
| TimeBands.ContiguousOrdered | main.py:62-68 | In contiguous bands, an earlier band ends no later than a later band starts. |
| TimeBands.BandsDisjoint | main.py:62-68 | No time lies in two distinct contiguous bands. |
| TimeBands.ContiguousCovers | main.py:62-68 | Over contiguous bands, the lookup succeeds exactly for lo of the first band <= t < hi of the last. |
| TimeBands.ContiguousUnique | main.py:62-68 | Over contiguous bands, any band holding t is the band the lookup returns. |
| TimeBands.TimeBandChoicesContiguous | main.py:62-68 | The five configured bands are contiguous. |
| TimeBands.Resolve | main.py:121 | The lookup over the configured bands succeeds exactly for 0 <= t < 20000, and the band it returns holds t. |
| TimeBands.ResolveUnique | main.py:121 | Any configured band holding t is the resolved band. Resolving that band's own start time returns it again. |
| Inputs.ToyShape | main.py:10-79 | The example tables are well formed with ranks of at least 1, and each division has three teams. |
| Costs.SlotBand | main.py:118-121 | A slot's band is defined exactly when its start time lies in [0, 20000), and the band holds the start time. |
| Costs.DifferenceTime | main.py:108-128 | The time part is defined exactly when the slot's start time lies in [0, 20000). With ranks of at least 1 it is at least 2. |
| Costs.DifferenceRink | main.py:130-144 | The rink part adds the two teams' ranks for the slot's rink. With ranks of at least 1 it is at least 2. |
| Costs.TripleCost | main.py:209-214 | The weighted cost of a decision is defined exactly when the slot's start time lies in [0, 20000). |
| Costs.CostSymmetric | main.py:108-144 | The time part, the rink part and the weighted cost stay the same when the two teams swap roles. |
| Costs.CostPositive | main.py:109-111 | With ranks of at least 1 and non-negative weights, a cost is at least 2 * (alpha + beta). With alpha = beta = 1 it is at least 4. |
| Costs.CostMonotone | main.py:125-144 | Lowering any ranks never raises a decision's cost and never changes whether the cost is defined. |
| Costs.LowerRinkRank | main.py:141-144 | Lowering one team's rank for one rink never raises any decision's cost. |
| Costs.LowerTimeRank | main.py:125-128 | Lowering one team's rank for one time band never raises any decision's cost. |
| Schedule.NoSelfPlay | main.py:182-184 | Under constraints 2 to 5, no chosen decision has the same team in both roles. |
| Schedule.SameDivision | main.py:186-188 | Under constraints 2 to 5, both teams of every chosen decision share a division. |
| Schedule.SlotExclusive | main.py:173-176 | Under constraint 1, two chosen decisions at one slot are the same decision. So at most one ordered pair plays in each slot. |
| Schedule.PairMeetsOnce | main.py:190-193 | Under constraints 2 to 5, two distinct teams of one division meet in exactly one chosen decision, in one of the two orders. |
| Schedule.PairConstraint | main.py:179-195 | For the ordered pair (i, j): no decisions when i == j or when the divisions differ, otherwise exactly one decision over both orders and all slots. |
| Schedule.SlotsExclusive | main.py:173-176 | Each slot is used by at most one decision. |
| Schedule.QuotaConstraints | main.py:179-202 | The pair constraint holds for every ordered pair, and every team takes part in exactly g decisions. |
| Schedule.ValidSchedule | main.py:173-202 | Constraints 1 to 5 with g games per team. |
| Feasibility.PartitionSum | main.py:198-202 | Grouping decisions by a key and adding the group sizes gives the number of decisions whose key is below the bound. |
| Feasibility.TotalGames | main.py:198-202 | Under constraints 2 to 5 alone, the assignment holds exactly numTeams * g / 2 games, and 2 * games == numTeams * g. |
| Feasibility.DivisionSize | main.py:179-202 | Constraints 2 to 5 alone, without constraint 1, can hold together only when every team's division has exactly g + 1 teams. So adding slots never lifts this coupling. |
| Feasibility.EnoughSlots | main.py:173-202 | A valid schedule uses at most as many decisions as there are slots, so numTeams * g <= 2 * numSlots. |
| Feasibility.ToySchedules | main.py:10-18 | In the example league, constraints 2 to 5 hold only for g = 2, and then with 6 games. Three games per team is infeasible. |
| Checker.CountWhere | main.py:192-193 | The loop over all decisions counts exactly the chosen decisions that the filter selects. |
| Checker.CheckSchedule | main.py:173-202 | The nested loops recompute constraints 1 to 5 and return true exactly when the assignment is a valid schedule. |
| Checker.CountGames | main.py:224-230 | The extraction loop counts every decision valued 1. Under constraints 2 to 5 the count is numTeams * g / 2. |
| ModelBuilder.BuildConstraints | main.py:173-202 | The loops emit one constraint per slot, per ordered pair and per team, in source order. An assignment satisfies all of them exactly when it is a valid schedule. |
| ModelBuilder.ModelMeaning | main.py:173-202 | Satisfying every constraint of the model is equivalent to ValidSchedule. |
| ModelBuilder.ModelSize | main.py:173-202 | The model has numSlots + numTeams * numTeams + numTeams constraints. |
| ModelBuilder.PairRowMeaning | main.py:179-195 | One row of pair constraints holds exactly when constraints 2 to 4 hold for every pair in that row. |
| Objective.ObjectiveValue | main.py:209-215 | The objective is defined exactly when the cost of every decision (i, j, k) over the teams and slots can be computed. |
| Objective.CostsDefinedMeaning | main.py:209-210 | Every cost coefficient can be computed exactly when there are no teams or every slot's start time lies in a band. |
| Objective.ObjectiveEmpty | main.py:211-214 | The objective of the empty assignment is 0. |
| Objective.ObjectiveAdd | main.py:211-214 | Adding one in-domain decision not yet chosen raises the objective by exactly that decision's TripleCost. |
| Objective.ObjectiveIsCostSum | main.py:211-214 | The objective of an assignment equals the sum of TripleCost over its chosen decisions. |
| Objective.ObjectiveMonotone | main.py:211-214 | For a fixed assignment, lowering any ranks never raises the objective. |
| Objective.ValidityIgnoresRanks | main.py:173-202 | Whether a schedule is valid depends only on the roster and the number of slots, not on the ranks. |
| Objective.OptimumMonotone | main.py:211-214 | Lowering ranks never raises the optimal objective value. |
| Objective.ObjectiveAtLeast | main.py:211-214 | With ranks of at least 1 and non-negative weights, the objective is at least 2 * (alpha + beta) times the number of chosen games. |

## Left out

- The solver's search and optimality (`solve`, main.py:220) are an external engine. The model takes the solver's answer as a given assignment. `Objective.Optimal` states what an optimal answer would have to satisfy.
- Writing the model to `Scheduling.lp` (main.py:219) is file output.
- DataFrame construction and lookups are not modelled; the tables are sequences indexed by team, rink and band. Rink names become indices in the order of their first appearance. `Inputs.WellFormed` stands for the table shapes that the DataFrame construction provides.
- `print_solution` (main.py:90-105) is console output. It parses the slot index from the same character as team b (main.py:92) and only reads single-digit indices. It is not modelled.
- Checker.CountGames: always returns the number of chosen decisions. In the code, the extraction loop calls `print_solution` before incrementing the count (main.py:225-228). That call aborts the script, before any total is printed, when a chosen decision's first team index is 10 or more: character 6 of the variable name is then not a digit (main.py:92). It also aborts when the digit read as the slot index is not less than the number of rink-times (main.py:95). This abort is not modelled, because the parse it comes from is output formatting.
- The `varValue == 1` comparison (main.py:226) is made on floats. The model treats the assignment as booleans.
- Start times, ranks and weights are integers. Non-integer start times in the `range` membership test are not modelled.
- The code hard-codes one meeting per pair. It has no configurable meeting count, no feasibility pre-check and no error taxonomy, so the model has none either.
