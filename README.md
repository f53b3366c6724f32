# Sports-Analysis tactical analytics, modelled in Dafny

This project models the tactical-analytics layer of Sports-Analysis, which sits between the player tracker and the plots. Once the tracker has placed players and ball on the pitch, the layer consists of:

- per-frame state machines;
- threshold and tie-break rules;
- grid bucketing;
- scoring formulas over two-dimensional pitch positions.

It also covers the data preparation that feeds it:

- the integration scripts, which remove entities, carry the last ball position forward, compute velocities and count heat maps;
- the five-frame smoothing of tracks in `tracking/interpolate.py`;
- the player-state cache of the analytics integrator;
- the YOLO label encoder.

One Dafny module stands for each source file:

| module | source file |
|---|---|
| `Possession` | `Soccer_Analytics/core/ball_possession_analyzer.py` |
| `SpaceControl` | `analytics/utils/control.py` |
| `Passing` | `Soccer_Analytics/core/passing_opportunities.py` |
| `HeatMap` / `HeatMapNp` | `Soccer_Analytics/core/heat_map_analyzer.py` and its numpy version |
| `Distance` / `DistanceNp` | `Soccer_Analytics/core/distance_analyzer.py` and its numpy version |
| `Sprints` / `SprintsNp` | `Soccer_Analytics/core/sprint_analyzer.py` and its numpy version |
| `Buildup` | `Soccer_Analytics/core/buildup_analyzer.py` |
| `OffBallRuns` | `Soccer_Analytics/core/off_ball_runs.py` |
| `Formations` | `Soccer_Analytics/core/formation_analyzer.py` |
| `DefensiveLines` | `Soccer_Analytics/core/defensive_line_analyzer.py` |
| `TeamShapes` | `Soccer_Analytics/core/team_shape_analyzer.py` |
| `Pressing` / `PressingNp` | `Soccer_Analytics/core/pressing_analyzer.py` and its numpy version |
| `Calculations` | `analytics/utils/calculations.py` |
| `Interpolate` | `tracking/interpolate.py` |
| `Integration` | `analytics/integration.py` |
| `CoreIntegration` | `Soccer_Analytics/core/integration.py` |
| `FrameCache` | `Soccer_Analytics/core/analytics-integrator.py` |
| `YoloLabels` | `training/data.py` |

Three modules are shared by the others:

- `Numerics` holds positions, `Option` and the numpy helpers: mean, variance, argmin and argmax, `arange`, `clip`, `int()` truncation, and sliding windows.
- `Counting` holds the `d[k] = d.get(k, 0) + 1` counting dictionaries.
- `Calculations` holds the geometry helpers.

**Analyzers with state.** An analyzer that updates its fields is a class, whose methods are proved against pure specification functions of the old state. Examples are the possession event log, the sprint and build-up state machines, run tracking, the formation histories, the pressing log, the heat-map grids and the frame cache.

**Pure helpers.** Pure helpers are functions, and lemmas relate them:

- the arrival time and control score;
- the pass scores;
- the zone and third classifiers;
- the movement categories, where the threshold cascade and `searchsorted` are compared;
- the label encoder.

**Where the two copies differ.** Possession, space control and passing are prepared the same way in `Soccer_Analytics/core/integration.py` and in `analytics/integration.py`, so the `Integration` members model both. The heat maps differ between the copies: `CoreIntegration` models the core copy's 15 by 10 grid indexed `[x][y]`.

**Rules throughout the model:**

- Positions and times are real numbers, in metres and seconds.
- Timestamps are seconds.
- numpy's `sqrt`, `exp`, `arctan` and `arctan2` are passed in as a `Math` record, and members rely only on its stated laws (`Numerics.Lawful`).
- Library routines whose results the code only consumes are parameters constrained by the laws the code relies on. These are KMeans, `linregress`, `ConvexHull`, `np.argpartition` and `position_to_grid` of the analytics heat-map utility.
- Where Python raises, or numpy returns `nan` that the code then reports, the model returns `None` or an error value. Preconditions of the modelled operations state the laws of the library parameters and the configuration the analyzers are built with (positive thresholds, grids of the configured size). Helpers and lemmas may also require a non-empty input, but only where every caller has already ruled the empty case out. Where a modelled operation still excludes an input on which the source raises or computes `inf` or `nan` (the equal timestamps of the speed computations), the operation is named at the head of a line under "## Left out".

## Model
| member | source | states |
|---|---|---|
| Possession.DetermineZone | Soccer_Analytics/core/ball_possession_analyzer.py:51-69 | middle exactly when `L/3 <= y < 2L/3`; below `L/3` defensive for home and attacking for away; above, attacking for home and defensive for away |
| Possession.AwayZoneMirrorsHome | Soccer_Analytics/core/ball_possession_analyzer.py:56-69 | away's zone is home's with defensive and attacking swapped and middle kept |
| Possession.HomeZoneMonotone | Soccer_Analytics/core/ball_possession_analyzer.py:56-62 | a ball further up the pitch is never in a lower home zone |
| Possession.NearestIndexFacts | Soccer_Analytics/core/ball_possession_analyzer.py:85-93 | `np.argmin` picks the first player at the smallest distance, and that distance is within the radius exactly when some player is |
| Possession.FindPossessingPlayer | Soccer_Analytics/core/ball_possession_analyzer.py:71-96 | no answer (the raise of `cdist`/`np.min`) exactly when either team list is empty; otherwise home is returned exactly when a home player is within the radius, whatever the away distances; away exactly when no home player is and an away player is; otherwise `('none', -1)`; the id is the first nearest player's |
| Possession.AdvanceAppendsAtMostOne | Soccer_Analytics/core/ball_possession_analyzer.py:128-177 | the event log is append-only, grows by at most one event per frame, and the previous ball position becomes the current one |
| Possession.SameTeamExtends | Soccer_Analytics/core/ball_possession_analyzer.py:143-153 | on a same-team frame the duration becomes now minus start, the distance grows by the ball's step, and the player and zone are unchanged |
| Possession.TeamChangeLogsAndReopens | Soccer_Analytics/core/ball_possession_analyzer.py:154-168 | on a change of team the old episode is logged exactly when its stored duration reached the minimum, and a new episode opens with duration and distance 0 |
| Possession.LossLogsOnElapsedTime | Soccer_Analytics/core/ball_possession_analyzer.py:169-175 | on loss the episode is logged exactly when the time elapsed since its start reached the minimum, and the current possession is cleared in every case |
| Possession.LossCanLogShortStoredDuration | Soccer_Analytics/core/ball_possession_analyzer.py:169-175 | a logged event can carry a stored duration below the minimum, because loss tests elapsed time instead |
| Possession.TeamTimesPartitionTotal | Soccer_Analytics/core/ball_possession_analyzer.py:205-213 | home and away durations add up to the total time and the two counts to the number of events |
| Possession.ZoneTimesPartitionTotal | Soccer_Analytics/core/ball_possession_analyzer.py:221-224 | the three zone durations add up to the total time |
| Possession.AddTime | Soccer_Analytics/core/ball_possession_analyzer.py:232-236 | adding an event's duration to a player's entry raises the tally's total by that duration, adds the key, and keeps keys distinct |
| Possession.PlayerPossessionSumsToTotal | Soccer_Analytics/core/ball_possession_analyzer.py:231-236 | per-player times sum to the total time and each (team, player) key appears once |
| Possession.PossessionStatsOf | Soccer_Analytics/core/ball_possession_analyzer.py:194-247 | `{}` exactly when there are no events or the total duration is 0; otherwise the reported total is the events' total |
| Possession.StatsAreConsistent | Soccer_Analytics/core/ball_possession_analyzer.py:205-247 | team percentages sum to 100, zone percentages sum to 100, player times sum to the total and the counts sum to the number of events |
| Possession.TeamSharesAddUp | Soccer_Analytics/core/ball_possession_analyzer.py:210-218 | home and away percentages sum to 100 |
| Possession.ZoneSharesAddUp | Soccer_Analytics/core/ball_possession_analyzer.py:221-228 | the three zone percentages sum to 100 |
| Possession.SuffixStart | Soccer_Analytics/core/ball_possession_analyzer.py:309 | `events[-n:]` keeps the last `min(n, len)` events for positive `n` and all of them for `n = 0` |
| Possession.FlowItems | Soccer_Analytics/core/ball_possession_analyzer.py:312-317 | one item per event with start relative to the first event, its duration, and colour `team 1` for home and `team 2` otherwise |
| Possession.PossessionFlow | Soccer_Analytics/core/ball_possession_analyzer.py:303-319 | nothing when no event was logged; otherwise at most `last_n_events` items, the first starting at 0 |
| Possession.BallPossessionAnalyzer.constructor | Soccer_Analytics/core/ball_possession_analyzer.py:30-49 | empty log, no current possession, no previous ball, zeroed team and zone totals |
| Possession.BallPossessionAnalyzer.AnalyzePossession | Soccer_Analytics/core/ball_possession_analyzer.py:98-184 | no report and every field unchanged exactly when either team list is empty (the search for the holder raises before any write); otherwise the new state and the returned report are those of the possession state machine applied to the old state |
| Possession.BallPossessionAnalyzer.UpdatePossession | Soccer_Analytics/core/ball_possession_analyzer.py:128-177 | the fields are updated exactly as the state machine's update step prescribes |
| SpaceControl.Speed | analytics/utils/control.py:79 | the current speed is the non-negative root of `vx^2 + vy^2` |
| SpaceControl.TimeToMax | analytics/utils/control.py:82 | `time_to_max` times the acceleration is the speed still to gain; it is not clamped, so it is negative above top speed |
| SpaceControl.DistanceToMaxSign | analytics/utils/control.py:82-84 | the distance to top speed is `(M^2 - v^2) / 2a`, non-negative exactly when the player is not above top speed |
| SpaceControl.AcceleratingRoot | analytics/utils/control.py:86-88 | the accelerating-phase root is the non-negative solution of `0.5 a t^2 + v t = d` |
| SpaceControl.CruisingTime | analytics/utils/control.py:89-93 | the top-speed branch's time is non-negative, and positive for zero distance when the player is above top speed |
| SpaceControl.AcceleratingTime | analytics/utils/control.py:88 | a non-negative time `t` with `0.5 a t^2 + v t = d` |
| SpaceControl.CruisingArrival | analytics/utils/control.py:90-93 | a non-negative time after which the distance to top speed plus the distance run at top speed is `d` |
| SpaceControl.ArrivalTime | analytics/utils/control.py:58-93 | non-negative; when the distance to top speed covers `d`, `0.5 a t^2 + v t = d`; otherwise `D + M (t - T) = d` |
| SpaceControl.ArrivalAtOwnPosition | analytics/utils/control.py:82-88 | the point a player stands on is reached at time 0 exactly when the player is not above top speed |
| SpaceControl.ControlScore | analytics/utils/control.py:95-106 | non-negative; 0 exactly when the arrival time exceeds `max_reach_time`; at most 1 for a non-negative decay |
| SpaceControl.Scores | analytics/utils/control.py:130-132 | one row of the control matrix: each player's control score at the point |
| SpaceControl.ControlMatrix | analytics/utils/control.py:127-132 | one row per grid point, each being that point's scores |
| SpaceControl.Dominant | analytics/utils/control.py:135-138 | a point is home's exactly when the home sum is strictly greater than the away sum; ties go to away |
| SpaceControl.DominantTeams | analytics/utils/control.py:138 | one side per row of the matrix, decided by the dominance rule |
| SpaceControl.DominanceStrength | analytics/utils/control.py:139 | per point, the larger of the home and away sums |
| SpaceControl.CountOf | analytics/utils/control.py:143-144 | a side's count is at most the number of points |
| SpaceControl.CountsPartition | analytics/utils/control.py:142-144 | home points plus away points is the total number of points |
| SpaceControl.Column | analytics/utils/control.py:156-157 | a player's column holds that player's score at every grid point |
| SpaceControl.PointsAbove | analytics/utils/control.py:158-159 | at most as many points as the grid, and none when no score passes the threshold |
| SpaceControl.IndicesAbove | analytics/utils/control.py:158-159 | the indices of the boolean mask `scores > threshold`: increasing, each one's score is above the threshold, and every index whose score is above it is listed |
| SpaceControl.PointsAboveAreIndexed | analytics/utils/control.py:158-159 | masking the grid yields exactly the grid points at the mask's indices, in grid order |
| SpaceControl.ZoneOf | analytics/utils/control.py:154-170 | the zone carries the player's id, team, position and velocity; its reachable space is exactly the grid points, in grid order, whose score is strictly above half the player's best score; its area is that count times the squared grid resolution; its dominance score is the mean of the player's scores; a player with a positive best score reaches at least one point |
| SpaceControl.ControlMatrixIsRectangular | analytics/utils/control.py:127 | every row of the matrix has one score per player |
| SpaceControl.ZonesOfTeam | analytics/utils/control.py:179-180 | the filtered list holds only zones of that team, no more than there are zones |
| SpaceControl.BandMask | analytics/utils/control.py:191-192 | the mask is true exactly at the grid points whose coordinate lies in `[start, end)` |
| SpaceControl.CountTrue | analytics/utils/control.py:195 | the count is at most the mask's length, and 0 exactly when the mask is all false |
| SpaceControl.CountHomeIn | analytics/utils/control.py:193-196 | the home points of a zone are no more than the zone's points |
| SpaceControl.ZoneShares | analytics/utils/control.py:195-201 | undefined (NaN) exactly when the zone is empty; otherwise the home share is 100 times the home points among `dominant[mask]` over their number and the away share the same for away points; the two add up to 100 and home lies in `[0, 100]` |
| SpaceControl.Masked | analytics/utils/control.py:193 | `dominant[mask]` has one entry per selected point, as many as the mask's true entries |
| SpaceControl.CountHomeInIsMaskedHome | analytics/utils/control.py:193-196 | `np.sum(zone_teams == 'home')` is the number of home entries of `dominant[mask]` |
| SpaceControl.CountOfIsOccurrences | analytics/utils/control.py:143-144 | a side's count is its number of occurrences in the list of dominant sides |
| SpaceControl.FieldGridNonEmpty | analytics/utils/control.py:49-52 | a pitch with positive length and width has a non-empty grid |
| SpaceControl.ScoresSplit | analytics/utils/control.py:121-136 | the scores of `home + away` split into the home scores and the away scores |
| SpaceControl.DominanceBySide | analytics/utils/control.py:135-138 | a grid point is home's exactly when home's scores there add up to strictly more than away's, ties (0 against 0 included) being away's |
| SpaceControl.ZonesFor | analytics/utils/control.py:153-171 | one zone per player, home first then away, each carrying its player's id |
| SpaceControl.Report | analytics/utils/control.py:173-187 | the home share is 100 times the grid points home dominates over the grid's size and the away share the same for away; the two add up to 100; the zone lists are the home block and the away block; each third holds the band shares of its third of the pitch length, adding up to 100 when they exist |
| SpaceControl.AnalysisOfMatrix | analytics/utils/control.py:127-187 | the dominant sides, zones, surface and result are those computed from the control matrix the loops fill |
| SpaceControl.PercentsOfComplements | analytics/utils/control.py:175-176 | a count and its complement, as percentages of the total, add up to 100 |
| SpaceControl.RegionsAreXMajor | analytics/utils/control.py:147-148 | entry `[i][j]` of the reshaped regions is the side dominating the point `(x_grid[i], y_grid[j])` |
| SpaceControl.ZonesOfTeamAppend | analytics/utils/control.py:179-180 | filtering a concatenation filters each part |
| SpaceControl.ZonesSplitBySide | analytics/utils/control.py:153-180 | with zones listed home first, filtering by side gives back the home block and the away block, in order |
| SpaceControl.HomeBlock | analytics/utils/control.py:179 | the home filter of the zone list is the home block |
| SpaceControl.AwayBlock | analytics/utils/control.py:180 | the away filter of the zone list is the away block |
| SpaceControl.ZoneOfZeroColumn | analytics/utils/control.py:156-165 | a zero column selects no point and gives area 0 |
| SpaceControl.UnreachingPlayerControlsNothing | analytics/utils/control.py:156-165 | a player who reaches no grid point within `max_reach_time` gets controlled area 0 |
| SpaceControl.AsWrittenAttackingThirdIsEmpty | analytics/utils/control.py:189-201 | testing `y` against thirds of the length leaves the attacking third without grid points whenever the width is at most two thirds of the length, so its shares are NaN |
| SpaceControl.DefaultPitchAttackingThirdIsEmpty | analytics/utils/control.py:185 | on the default 105 by 68 pitch the attacking third's shares are NaN |
| SpaceControl.ArangeHits | analytics/utils/control.py:49 | `arange(0, stop, step)` has a value in every interval at least one step wide inside `[0, stop)` |
| SpaceControl.ThirdsAlongLengthAreNonEmpty | analytics/utils/control.py:183-201 | measured along the length, each third holds grid points once it is at least one step long, so its shares exist and add up to 100 |
| SpaceControl.SpaceControlAnalyzer.constructor | analytics/utils/control.py:24-56 | the grid is built once; no zones, regions or surface yet |
| SpaceControl.SpaceControlAnalyzer.FillControlMatrix | analytics/utils/control.py:127-132 | the double loop fills exactly the control matrix |
| SpaceControl.SpaceControlAnalyzer.BuildZones | analytics/utils/control.py:153-171 | the loop builds one zone per player, in `all_positions` order |
| SpaceControl.SpaceControlAnalyzer.Store | analytics/utils/control.py:147-153 | the stored regions, surface and zones are replaced by the frame's |
| SpaceControl.SpaceControlAnalyzer.AnalyzeSpaceControl | analytics/utils/control.py:108-187 | returns the frame's analysis and replaces the zones, dominant regions and control surface with the frame's |
| Passing.ClampedParameter | Soccer_Analytics/core/passing_opportunities.py:75 | the projection parameter lies in `[0, 1]` and is the ratio itself when that is already in range |
| Passing.ClampedProjectionIsCloser | Soccer_Analytics/core/passing_opportunities.py:75-80 | the point of the segment at the clamped parameter is no further (squared) from the defender than either end |
| Passing.PointToLineDistance | Soccer_Analytics/core/passing_opportunities.py:60-80 | the distance is non-negative and at most the distance to either endpoint; a degenerate segment gives the distance to its start |
| Passing.LaneEndsMeet | Soccer_Analytics/core/passing_opportunities.py:69-73 | a zero `denominator` means both ends of the lane are one point |
| Passing.ProjectionBounds | Soccer_Analytics/core/passing_opportunities.py:75-80 | on a lane of positive length the clamped projection is no further than either end |
| Passing.CloseDefenders | Soccer_Analytics/core/passing_opportunities.py:88-91 | every collected pair is a defender with its lane distance within the reach, and every defender within the reach is collected |
| Passing.InsertByDistance | Soccer_Analytics/core/passing_opportunities.py:93 | inserting into the sorted list adds exactly that interceptor |
| Passing.InsertKeepsSorted | Soccer_Analytics/core/passing_opportunities.py:93 | inserting keeps the list sorted by distance |
| Passing.SortByDistance | Soccer_Analytics/core/passing_opportunities.py:93 | the sort is a permutation of its input, ascending by distance |
| Passing.InterceptorsAreExactlyTheCloseDefenders | Soccer_Analytics/core/passing_opportunities.py:82-93 | `find_interceptors` returns exactly the defenders whose lane distance is at most `max_interceptor_distance` times the pass length, sorted ascending |
| Passing.PressureTerms | Soccer_Analytics/core/passing_opportunities.py:101-102 | one pressure term per defender, each in `(0, 1]` |
| Passing.DefensivePressure | Soccer_Analytics/core/passing_opportunities.py:95-103 | 0 with no defenders; otherwise positive and at most the number of defenders |
| Passing.InterceptorRisk | Soccer_Analytics/core/passing_opportunities.py:112 | the interceptor risk is non-negative |
| Passing.SuccessProbability | Soccer_Analytics/core/passing_opportunities.py:105-118 | the success probability lies in `(0, 1]` |
| Passing.RiskScore | Soccer_Analytics/core/passing_opportunities.py:254-269 | the risk score is at most 1 |
| Passing.RiskScoreNonneg | Soccer_Analytics/core/passing_opportunities.py:258-269 | with non-negative weights the risk score is at least 0 |
| Passing.RiskScoreMonotoneInInterceptors | Soccer_Analytics/core/passing_opportunities.py:258-269 | one more interceptor never lowers the risk score |
| Passing.RewardScore | Soccer_Analytics/core/passing_opportunities.py:271-286 | the reward score is at most 1 |
| Passing.RewardScoreNonneg | Soccer_Analytics/core/passing_opportunities.py:275-286 | with non-negative weights, progress at least -1 and non-negative space, the reward is at least 0 |
| Passing.SpaceGained | Soccer_Analytics/core/passing_opportunities.py:288-302 | non-negative, 0 with no opponents, and otherwise the clamped difference of the mean distances after and before the pass |
| Passing.InterceptorDistancesNonneg | Soccer_Analytics/core/passing_opportunities.py:88-93 | every interceptor's lane distance is non-negative |
| Passing.EvaluateWellFormed | Soccer_Analytics/core/passing_opportunities.py:162-249 | a receiver the loop keeps yields a well-formed opportunity |
| Passing.WellFormedInLongerSquad | Soccer_Analytics/core/passing_opportunities.py:162 | an opportunity well-formed for a prefix of the teammates stays so for the whole list |
| Passing.Evaluations | Soccer_Analytics/core/passing_opportunities.py:162-249 | the loop body's outcome for every teammate, in order |
| Passing.Present | Soccer_Analytics/core/passing_opportunities.py:238-249 | the appended opportunities are at most one per outcome |
| Passing.PresentMembers | Soccer_Analytics/core/passing_opportunities.py:238-249 | an opportunity is appended exactly when some iteration produced it |
| Passing.OpportunitiesArePresent | Soccer_Analytics/core/passing_opportunities.py:153-252 | the result list is the produced opportunities in teammate order |
| Passing.EvaluateKeepsIff | Soccer_Analytics/core/passing_opportunities.py:162-249 | an iteration produces an opportunity exactly when the receiver is not the passer, the pass length lies in `[min_pass_distance, max_pass_distance]` and the lane's success probability reaches the threshold; the opportunity is that receiver's, on that lane |
| Passing.OpportunitiesAreTheKeptReceivers | Soccer_Analytics/core/passing_opportunities.py:153-252 | an opportunity is in the result exactly when the iteration of some teammate produced it |
| Passing.EveryQualifyingTeammateIsKept | Soccer_Analytics/core/passing_opportunities.py:153-252 | every teammate other than the passer whose pass length lies in the window and whose lane reaches the threshold has an opportunity in the result, on its lane |
| Passing.OpportunitiesAreWellFormed | Soccer_Analytics/core/passing_opportunities.py:153-252 | at most one opportunity per teammate; each has a receiver other than the passer, a distance inside `[min, max]`, a success probability in `(0, 1]` at or above the threshold, risk and reward at most 1, and total `reward * (1 - risk)` |
| Passing.BestOpportunity | Soccer_Analytics/core/passing_opportunities.py:304-310 | None exactly when there are no opportunities; otherwise the first one with maximal total score |
| Passing.TotalScores | Soccer_Analytics/core/passing_opportunities.py:309-310 | the keys `max` compares are the opportunities' total scores, one per opportunity |
| Passing.ControlledCount | Soccer_Analytics/core/passing_opportunities.py:138-143 | the count of points the team reaches first never exceeds the number of points looked at |
| Passing.Share | Soccer_Analytics/core/passing_opportunities.py:145 | the share is in `[0, 1]`, 1 exactly when every point is controlled and 0 exactly when none is |
| Passing.PassingOpportunitiesAnalyzer.constructor | Soccer_Analytics/core/passing_opportunities.py:34-58 | no current opportunities |
| Passing.PassingOpportunitiesAnalyzer.FindInterceptors | Soccer_Analytics/core/passing_opportunities.py:82-93 | the loop's result is the sorted list of close defenders |
| Passing.PassingOpportunitiesAnalyzer.AnalyzePassingOpportunities | Soccer_Analytics/core/passing_opportunities.py:153-252 | returns the kept opportunities in teammate order and replaces `current_opportunities` with them |
| Passing.PassingOpportunitiesAnalyzer.GetBestOpportunity | Soccer_Analytics/core/passing_opportunities.py:304-310 | None exactly when there are no current opportunities, else the first of maximal total score |
| Passing.PassingOpportunitiesAnalyzer.CalculateSpaceControl | Soccer_Analytics/core/passing_opportunities.py:132-151 | no share (the call raises) exactly when the grid, the team or the opponents are empty; otherwise the share of 5 m x-major grid points where the team's nearest player is strictly closer than the opponents' |
| Passing.PassingOpportunitiesAnalyzer.CountControlled | Soccer_Analytics/core/passing_opportunities.py:138-143 | the loop counts exactly the grid points the team reaches first |
| Passing.PassingOpportunitiesAnalyzer.CountPoint | Soccer_Analytics/core/passing_opportunities.py:139-143 | one pass raises the count by one exactly when the team reaches that point first |
| HeatMap.Zeros | Soccer_Analytics/core/heat_map_analyzer.py:25 | `np.zeros(grid_size)`: a rows by cols grid of zeros |
| HeatMap.TotalOfZeros | Soccer_Analytics/core/heat_map_analyzer.py:25 | a fresh grid's total is 0 |
| HeatMap.Bump | Soccer_Analytics/core/heat_map_analyzer.py:41 | `grid[x, y] += d` raises exactly that cell by `d`; every other cell keeps its value |
| HeatMap.TotalBump | Soccer_Analytics/core/heat_map_analyzer.py:41 | one observation raises the grid's total by its duration |
| HeatMap.Accumulate | Soccer_Analytics/core/heat_map_analyzer.py:48-49 | adding observations one after the other keeps the grid's shape |
| HeatMap.AccumulateStep | Soccer_Analytics/core/heat_map_analyzer.py:48-49 | each further observation is one more bump |
| HeatMap.CellsFit | Soccer_Analytics/core/heat_map_analyzer.py:27-36 | every position's cell is an entry of the grid, so `add_position` never raises |
| HeatMap.AccumulateCell | Soccer_Analytics/core/heat_map_analyzer.py:43-49 | every cell ends up raised by the sum of the durations observed there, duplicates included, and by nothing else |
| HeatMap.TotalAccumulate | Soccer_Analytics/core/heat_map_analyzer.py:43-49 | the grid's total grows by the sum of the durations added |
| HeatMap.AxisCell | Soccer_Analytics/core/heat_map_analyzer.py:29-34 | each axis index is clamped into `[0, size - 1]` |
| HeatMap.AxisCellContains | Soccer_Analytics/core/heat_map_analyzer.py:29-34 | a coordinate before the pitch goes to the first cell, one at or past its far end to the last, and one on the pitch to the cell whose strip contains it |
| HeatMap.CellBefore | Soccer_Analytics/core/heat_map_analyzer.py:33-34 | a coordinate before the pitch is clamped to cell 0 |
| HeatMap.CellPast | Soccer_Analytics/core/heat_map_analyzer.py:33-34 | a coordinate at or past the far end is clamped to the last cell |
| HeatMap.InsideCell | Soccer_Analytics/core/heat_map_analyzer.py:29-30 | on the pitch the truncated index is the cell whose strip contains the coordinate |
| HeatMap.PositionToGrid | Soccer_Analytics/core/heat_map_analyzer.py:27-36 | the cell lies inside the grid |
| HeatMap.CellsOf | Soccer_Analytics/core/heat_map_analyzer.py:40-48 | one cell per position, each computed by `position_to_grid` |
| HeatMap.ZipLength | Soccer_Analytics/core/heat_map_analyzer.py:48 | `zip` stops at the shorter of the two lists |
| HeatMap.GridMax | Soccer_Analytics/core/heat_map_analyzer.py:53-54 | `np.max(grid)` bounds every entry |
| HeatMap.Normalized | Soccer_Analytics/core/heat_map_analyzer.py:53-56 | the normalised map has the grid's shape |
| HeatMap.NormalizedAtMostOne | Soccer_Analytics/core/heat_map_analyzer.py:51-57 | before smoothing no entry exceeds 1, and a positive maximum becomes exactly 1 |
| HeatMap.MostVisited | Soccer_Analytics/core/heat_map_analyzer.py:116 | the most visited zone is a cell of the grid |
| HeatMap.MostVisitedIsFirstMaximum | Soccer_Analytics/core/heat_map_analyzer.py:116 | the most visited cell holds the maximum, and every cell before it in row-major order holds less |
| HeatMap.ArraySplitBalanced | Soccer_Analytics/core/heat_map_analyzer.py:104 | `array_split` into three parts covers the rows in order; sizes never grow and differ by at most one, the remainder going to the first parts |
| HeatMap.ThirdsCoverGrid | Soccer_Analytics/core/heat_map_analyzer.py:104-110 | the three thirds' totals add up to the grid's total |
| HeatMap.SharesOf | Soccer_Analytics/core/heat_map_analyzer.py:113-115 | the three percentages add up to 100 |
| HeatMap.GetZoneStatistics | Soccer_Analytics/core/heat_map_analyzer.py:101-117 | the percentages are defined exactly when the total is not 0, and then add up to 100; the most visited zone is the first maximal cell |
| HeatMap.Contents | Soccer_Analytics/core/heat_map_analyzer.py:25 | the grid array read as a matrix of the same shape and entries |
| HeatMap.AddAt | Soccer_Analytics/core/heat_map_analyzer.py:41 | the in-place increment raises exactly one entry |
| HeatMap.ZeroGrid | Soccer_Analytics/core/heat_map_analyzer.py:25 | a fresh all-zero array of the configured size |
| HeatMap.HeatMapAnalyzer.constructor | Soccer_Analytics/core/heat_map_analyzer.py:8-25 | the grid starts at zero with the configured size |
| HeatMap.HeatMapAnalyzer.AddPosition | Soccer_Analytics/core/heat_map_analyzer.py:38-41 | the position's cell is raised by `duration` in place |
| HeatMap.HeatMapAnalyzer.AddPositions | Soccer_Analytics/core/heat_map_analyzer.py:43-49 | durations default to 1.0, and the observations of `zip(positions, durations)` are added in order |
| HeatMap.HeatMapAnalyzer.NormalizedGrid | Soccer_Analytics/core/heat_map_analyzer.py:51-56 | the current grid normalised: no entry above 1 |
| HeatMap.HeatMapAnalyzer.ZoneStatisticsOfGrid | Soccer_Analytics/core/heat_map_analyzer.py:101-117 | the statistics of the current grid: defined exactly when its total is not 0, the most visited cell inside the grid |
| HeatMapNp.AxisCellNp | Soccer_Analytics/core/heat_map_analyzer_np.py:43-50 | each axis index is truncated and clipped into `[0, size - 1]` |
| HeatMapNp.AxisCellsAgree | Soccer_Analytics/core/heat_map_analyzer_np.py:28-50 | multiplying by the precomputed factor gives the same cell as the loop version's `v / extent * size` |
| HeatMapNp.PositionsToGrid | Soccer_Analytics/core/heat_map_analyzer_np.py:33-50 | one clipped cell per position row |
| HeatMapNp.PositionsToGridAgrees | Soccer_Analytics/core/heat_map_analyzer_np.py:33-50 | the vectorised conversion puts every position in the same cell as `position_to_grid` of the loop version |
| HeatMapNp.BroadcastDurations | Soccer_Analytics/core/heat_map_analyzer_np.py:63-66 | missing durations become ones; a full list is used as is; a single value is broadcast to every position |
| HeatMapNp.AccumulateOne | Soccer_Analytics/core/heat_map_analyzer_np.py:71-73 | adding a one-element list is a single bump |
| HeatMapNp.ThirdBounds | Soccer_Analytics/core/heat_map_analyzer_np.py:134-138 | thirds of size `grid_size[0] // 3`, the remainder going to the last third |
| HeatMapNp.ThirdBoundsMatchArraySplit | Soccer_Analytics/core/heat_map_analyzer_np.py:134-138 | this split agrees with `np.array_split` exactly when the row count is a multiple of three |
| HeatMapNp.GetZoneStatisticsNp | Soccer_Analytics/core/heat_map_analyzer_np.py:131-157 | percentages add up to 100 when the total is positive and are all 0 otherwise; the most visited zone is the first maximal cell |
| HeatMapNp.ZoneStatisticsAgreeOnMultiplesOfThree | Soccer_Analytics/core/heat_map_analyzer_np.py:131-157 | on a positive total and a row count that is a multiple of three both versions report the same shares and cell |
| HeatMapNp.AddEach | Soccer_Analytics/core/heat_map_analyzer_np.py:69 | `np.add.at` is unbuffered: repeated cells receive every duration |
| HeatMapNp.HeatMapAnalyzerNp.constructor | Soccer_Analytics/core/heat_map_analyzer_np.py:8-31 | a zero grid of the configured size and the two scale factors |
| HeatMapNp.HeatMapAnalyzerNp.AddPositions | Soccer_Analytics/core/heat_map_analyzer_np.py:52-69 | the grid is unchanged and the call reports failure exactly when the position list is empty or the durations have neither length one nor the number of positions (numpy's broadcasting raises); otherwise every observation is added, duplicates included, so the grid total grows by the sum of the durations |
| HeatMapNp.HeatMapAnalyzerNp.AddPosition | Soccer_Analytics/core/heat_map_analyzer_np.py:71-73 | `add_position(p, d)` is `add_positions([p], [d])`: the position's cell is raised by `d` |
| Distance.CategorizeCountsReachedThresholds | Soccer_Analytics/core/distance_analyzer.py:43-51 | with ascending thresholds the category's rank is the number of thresholds the speed reaches, so a speed equal to a threshold takes the faster category |
| Distance.CategorizeMonotone | Soccer_Analytics/core/distance_analyzer.py:43-51 | a faster speed never gets a slower category |
| Distance.PerCategory.Raise | Soccer_Analytics/core/distance_analyzer.py:95 | `distances_by_category[c] += d` raises exactly that category by `d` and the sum of the four by `d` |
| Distance.CategoriesPartitionDistance | Soccer_Analytics/core/distance_analyzer.py:124-130 | every segment lies in exactly one category, so the categories' distances add up to the distance of all segments |
| Distance.AppendSegment | Soccer_Analytics/core/distance_analyzer.py:91-95 | logging a segment raises its own category's distance and the total by its distance |
| Distance.TotalIsSumOfCategories | Soccer_Analytics/core/distance_analyzer.py:94-95 | invariant: `total_distance` equals the sum of `distances_by_category` |
| Distance.Velocities | Soccer_Analytics/core/distance_analyzer.py:127 | one velocity per segment, in order |
| Distance.Shares | Soccer_Analytics/core/distance_analyzer.py:132-135 | the category percentages add up to 100 |
| Distance.DistanceStatsOf | Soccer_Analytics/core/distance_analyzer.py:103-139 | `{}` exactly when there are no segments; otherwise the total is the segments' distance and the sum over the categories; percentages exist exactly when the total is not 0 and then add up to 100; the average velocity is at most the maximum, which bounds every segment's |
| Distance.StatsMatchRunningTotals | Soccer_Analytics/core/distance_analyzer.py:94-131 | the statistics recomputed from the log agree with the running totals |
| Distance.DistanceAnalyzer.constructor | Soccer_Analytics/core/distance_analyzer.py:20-41 | no segments, total 0, every category 0 |
| Distance.DistanceAnalyzer.ProcessPosition | Soccer_Analytics/core/distance_analyzer.py:53-101 | a missing previous reading returns `{}` and changes nothing; otherwise exactly one segment is logged and the total and exactly one category grow by its distance, keeping the running totals consistent with the log |
| Distance.DistanceAnalyzer.Log | Soccer_Analytics/core/distance_analyzer.py:91-95 | appends the segment and adds its distance to the total and to its category |
| Distance.DistanceAnalyzer.GetDistanceStats | Soccer_Analytics/core/distance_analyzer.py:103-139 | `{}` exactly when nothing was logged; otherwise the reported totals are the running ones |
| DistanceNp.SearchSortedLeft | Soccer_Analytics/core/distance_analyzer_np.py:62 | `searchsorted` (left): every entry before the index is below the value and the entry at it, if any, is at least the value |
| DistanceNp.SearchSortedCountsBelow | Soccer_Analytics/core/distance_analyzer_np.py:45-62 | on sorted thresholds the insertion point is the number of thresholds strictly below the value |
| DistanceNp.NoneBelow | Soccer_Analytics/core/distance_analyzer_np.py:62 | a value at or below every threshold has insertion point 0 |
| DistanceNp.CategorizeNpCountsPassedThresholds | Soccer_Analytics/core/distance_analyzer_np.py:45-62 | the category index is in 0..3 and its rank is the number of thresholds strictly passed: a speed equal to a threshold stays in the lower category |
| DistanceNp.CategorizersAgreeOffThresholds | Soccer_Analytics/core/distance_analyzer_np.py:60-62 | away from the thresholds the two categorisers agree |
| DistanceNp.CategorizersDifferAtThreshold | Soccer_Analytics/core/distance_analyzer_np.py:60-62 | a speed equal to the jogging threshold is jogging in the cascade and walking in the `searchsorted` version |
| DistanceNp.DistanceAnalyzerNp.constructor | Soccer_Analytics/core/distance_analyzer_np.py:20-50 | ascending thresholds; no segments, total 0, every category 0 |
| DistanceNp.DistanceAnalyzerNp.ProcessPosition | Soccer_Analytics/core/distance_analyzer_np.py:64-116 | a missing previous reading returns `{}` with no state change; otherwise one segment is appended and the total and exactly one category grow by its distance |
| DistanceNp.DistanceAnalyzerNp.Log | Soccer_Analytics/core/distance_analyzer_np.py:106-110 | appends the segment and adds its distance to the total and to its category |
| DistanceNp.DistanceAnalyzerNp.GetDistanceStats | Soccer_Analytics/core/distance_analyzer_np.py:118-160 | `{}` exactly when nothing was logged; otherwise the total is the sum over the categories, percentages add up to 100 when the total is not 0 |
| Sprints.UpdatedFacts | Soccer_Analytics/core/sprint_analyzer.py:108-132 | an update never shrinks the distance, measures the duration from the sprint's start, keeps the running maximum of the speeds (one of the two), keeps start and recovery time, and gives a direction among the eight compass names |
| Sprints.AsWrittenUpdateAddsNothing | Soccer_Analytics/core/sprint_analyzer.py:113-118 | as written, the end position is overwritten before the step is measured, so an update adds nothing to the distance wherever the player went |
| Sprints.SprintDistanceDiscrepancy | Soccer_Analytics/core/sprint_analyzer.py:113-118 | for any move away from the previous point the corrected update counts the step and the written one does not |
| Sprints.FixPositions | Soccer_Analytics/core/sprint_analyzer.py:108-118 | the positions a run of updates passes through, one per update and in order |
| Sprints.SprintDistanceIsPathLength | Soccer_Analytics/core/sprint_analyzer.py:68-83 | with the corrected update, a sprint's distance is the length of the path from where it opened through every position it was updated with, and its last point is the last position |
| Sprints.DetectKeepsLogged | Soccer_Analytics/core/sprint_analyzer.py:66-104 | one step keeps the log consistent: no logged distance is negative, every logged sprint lasted the minimum duration, and a last end time exists exactly when a sprint was logged |
| Sprints.StatusByBranch | Soccer_Analytics/core/sprint_analyzer.py:66-104 | the status is sprinting iff the smoothed speed reaches the threshold; ended iff below it with an open sprint that lasted the minimum; discarded iff below it with a shorter open sprint; no sprint iff below it with none open |
| Sprints.SprintOpens | Soccer_Analytics/core/sprint_analyzer.py:66-80 | with no open sprint, one opens iff the smoothed speed reaches the threshold; it starts now from the previous position, its recovery time runs from the last logged end (0 without one), and the log is unchanged |
| Sprints.SprintCloses | Soccer_Analytics/core/sprint_analyzer.py:92-101 | below the threshold an open sprint is always closed; it is appended to the log and the last end set to now iff it lasted the minimum duration, otherwise the log is unchanged |
| Sprints.SprintContinues | Soccer_Analytics/core/sprint_analyzer.py:66-90 | while sprinting, the open sprint keeps its start, its duration runs from that start and its maximum speed is the larger of the new speed and the old maximum; the log is unchanged |
| Sprints.Summarize | Soccer_Analytics/core/sprint_analyzer.py:160-178 | the max of a non-empty column is at least each entry and at least the mean |
| Sprints.Column | Soccer_Analytics/core/sprint_analyzer.py:147-151 | the column holds one field of each sprint, in log order |
| Sprints.SprintDirections | Soccer_Analytics/core/sprint_analyzer.py:154-156 | the directions of the sprints, one per sprint in log order |
| Sprints.SprintStatsOf | Soccer_Analytics/core/sprint_analyzer.py:134-183 | no statistics exactly when there are no sprints; otherwise the count is the number of sprints, the direction shares add up to 100, the recovery mean lies between its min and max, and the reported max speed bounds every sprint's |
| Sprints.LoggedStats | Soccer_Analytics/core/sprint_analyzer.py:134-183 | over a consistent log the mean distance lies between 0 and the max, the total distance is non-negative, and the mean duration is at least the minimum sprint duration |
| Sprints.SprintAnalyzer.constructor | Soccer_Analytics/core/sprint_analyzer.py:27-47 | a fresh analyzer has no sprints, none open, no last end, and an empty speed window |
| Sprints.SprintAnalyzer.ProcessPosition | Soccer_Analytics/core/sprint_analyzer.py:49-106 | the speed since the previous fix is recorded, and the new log and the status are those the sprint logic gives for the mean of the last `smoothing_window` speeds |
| Sprints.SprintAnalyzer.PushVelocity | Soccer_Analytics/core/sprint_analyzer.py:59-61 | after appending and dropping the oldest speed, the window is the last `smoothing_window` speeds seen, and the log is unchanged |
| Sprints.SprintAnalyzer.Store | Soccer_Analytics/core/sprint_analyzer.py:68-104 | the analyzer's log becomes the given one and the speeds are unchanged |
| Sprints.SprintAnalyzer.GetSprintStats | Soccer_Analytics/core/sprint_analyzer.py:134-183 | nothing exactly when no sprint was logged; otherwise a non-negative total distance |
| SprintsNp.SumRotate | Soccer_Analytics/core/sprint_analyzer_np.py:75-76 | the mean of the full circular buffer does not depend on where the write index stands: a rotated buffer has the same sum |
| SprintsNp.WriteKeepsHolds | Soccer_Analytics/core/sprint_analyzer_np.py:68-72 | writing at the index and advancing it modulo the window keeps the buffer holding the speeds seen: all of them before it wraps, the last `smoothing_window` after |
| SprintsNp.WriteBeforeFull | Soccer_Analytics/core/sprint_analyzer_np.py:68-72 | before the buffer wraps, the filled prefix grows by the new speed; on the write that wraps, the whole buffer is the last window of speeds |
| SprintsNp.WriteWhenFull | Soccer_Analytics/core/sprint_analyzer_np.py:68-72 | once full, reading the buffer round from the next write index gives the last `smoothing_window` speeds, oldest first |
| SprintsNp.SprintAnalyzerNp.constructor | Soccer_Analytics/core/sprint_analyzer_np.py:25-49 | a fresh analyzer has no sprints, a zeroed buffer of `smoothing_window` slots, index 0 and not full |
| SprintsNp.SprintAnalyzerNp.ProcessPosition | Soccer_Analytics/core/sprint_analyzer_np.py:59-120 | the outcome is exactly the list version's: the same log and status for the mean of the last `smoothing_window` speeds |
| SprintsNp.SprintAnalyzerNp.PushVelocity | Soccer_Analytics/core/sprint_analyzer_np.py:68-72 | the new speed is recorded and the buffer still holds the speeds seen; the log is unchanged |
| SprintsNp.SprintAnalyzerNp.Smoothed | Soccer_Analytics/core/sprint_analyzer_np.py:74-78 | the mean of the whole buffer once full, of its filled part before, equals the mean of the last `smoothing_window` speeds |
| SprintsNp.SprintAnalyzerNp.Store | Soccer_Analytics/core/sprint_analyzer_np.py:82-118 | the log becomes the given one; index, full flag and speeds are unchanged |
| SprintsNp.SprintAnalyzerNp.GetSprintStats | Soccer_Analytics/core/sprint_analyzer_np.py:151-200 | the list version's statistics: nothing exactly when no sprint was logged, otherwise a non-negative total distance |
| Buildup.ProgressedFacts | Soccer_Analytics/core/buildup_analyzer.py:107-123 | an update adds the forward part of the ball's move to the vertical progress (never lowering it), moves the phase to the ball, keeps its start and first player, adds the possessor exactly once, and sets the progression speed to move over elapsed time (0 when no time passed, unchanged without a last reading) |
| Buildup.ClosedFacts | Soccer_Analytics/core/buildup_analyzer.py:60-75 | closing always clears the open phase; it is appended with end time, duration, and success equal to the reached flag exactly when it lasted `min_duration`, otherwise the log is unchanged |
| Buildup.NextKeepsWellformed | Soccer_Analytics/core/buildup_analyzer.py:77-134 | each step keeps the log well formed: every logged phase lasted the minimum, is closed, and succeeded exactly when it reached the final third; a phase's players are distinct, starter first |
| Buildup.StartRule | Soccer_Analytics/core/buildup_analyzer.py:97-104 | with no open phase, one starts (and `buildup_started` is reported) iff the ball is short of the defensive-third line; it starts at the ball, now, with the possessor as its only player |
| Buildup.EndRule | Soccer_Analytics/core/buildup_analyzer.py:106-131 | with a phase open, it ends as successful iff the ball is beyond the final-third line, as backwards iff it is not and the ball is behind the phase's start, and stays open otherwise; the log gains at most the closed phase, with the matching success |
| Buildup.CountSuccessful | Soccer_Analytics/core/buildup_analyzer.py:160 | the successful phases are at most all phases |
| Buildup.OccurrencesOfDistinct | Soccer_Analytics/core/buildup_analyzer.py:121-123 | a player list without repeats holds each player at most once |
| Buildup.InvolvementCountsPhases | Soccer_Analytics/core/buildup_analyzer.py:173-178 | as no phase lists a player twice, a player's involvement count is the number of phases they took part in |
| Buildup.InvolvementOccurrences | Soccer_Analytics/core/buildup_analyzer.py:173-178 | the occurrences of a player among all involvements equal the number of phases listing them |
| Buildup.InsertByCount | Soccer_Analytics/core/buildup_analyzer.py:179 | inserting a count adds exactly that entry |
| Buildup.SortByCount | Soccer_Analytics/core/buildup_analyzer.py:179 | sorting the counts is a permutation of them |
| Buildup.InsertKeepsDescending | Soccer_Analytics/core/buildup_analyzer.py:179 | inserting before the first count not above it keeps the counts descending |
| Buildup.SortByCountIsDescending | Soccer_Analytics/core/buildup_analyzer.py:179 | the sorted involvement counts are in descending order of count |
| Buildup.BuildupStatsOf | Soccer_Analytics/core/buildup_analyzer.py:148-179 | no statistics exactly when there are no phases; otherwise the total is the number of phases, successes are at most that, the success rate lies in [0, 1], and the most-involved list is the involvement tally in descending order of count |
| Buildup.LoggedBuildupStats | Soccer_Analytics/core/buildup_analyzer.py:148-179 | over a well-formed log the average involvement is at least one player, the average vertical progress is non-negative, and each player's count is the number of phases they were in |
| Buildup.BuildupAnalyzer.constructor | Soccer_Analytics/core/buildup_analyzer.py:33-45 | a fresh analyzer has no phases and none open |
| Buildup.BuildupAnalyzer.StartBuildup | Soccer_Analytics/core/buildup_analyzer.py:47-58 | the open phase becomes a new one at the position and time with the player as its only one; the log is unchanged |
| Buildup.BuildupAnalyzer.EndBuildup | Soccer_Analytics/core/buildup_analyzer.py:60-75 | the state becomes the one `end_buildup` specifies: the phase closed and logged when long enough |
| Buildup.BuildupAnalyzer.AnalyzeBuildup | Soccer_Analytics/core/buildup_analyzer.py:77-134 | the new state and the event are those of the build-up step, and the state stays well formed |
| Buildup.BuildupAnalyzer.Progress | Soccer_Analytics/core/buildup_analyzer.py:107-123 | the open phase becomes its update by the ball and possessor; the log is unchanged |
| Buildup.BuildupAnalyzer.GetBuildupStats | Soccer_Analytics/core/buildup_analyzer.py:148-171 | nothing exactly when no phase was logged; otherwise at least one player involved on average and a success rate in [0, 1] |
| OffBallRuns.StepsExistIffTimePasses | Soccer_Analytics/core/off_ball_runs.py:79-89 | there is a step velocity exactly when some interval of the history has a positive duration |
| OffBallRuns.SmoothVelocity | Soccer_Analytics/core/off_ball_runs.py:71-93 | no velocity exactly when the history has fewer than two samples or no time passed between any two of them |
| OffBallRuns.SteadyVelocityIsReported | Soccer_Analytics/core/off_ball_runs.py:91-93 | a player whose last five step velocities are all `v` is reported at velocity `v` |
| OffBallRuns.StepVelocities | Soccer_Analytics/core/off_ball_runs.py:80-86 | the loop collects exactly the finite-difference velocities of the intervals with positive duration, in order |
| OffBallRuns.InverseWeights | Soccer_Analytics/core/off_ball_runs.py:118 | one weight per defender, each positive |
| OffBallRuns.Reciprocal | Soccer_Analytics/core/off_ball_runs.py:118 | the reciprocal of a positive distance plus `1e-6` is positive |
| OffBallRuns.SpaceGainedFacts | Soccer_Analytics/core/off_ball_runs.py:106-124 | space gained is never negative, is 0 without defenders, and is 0 for a player who has not moved |
| OffBallRuns.CoverageBounds | Soccer_Analytics/core/off_ball_runs.py:202-208 | each defender adds between 0 and 1 to the coverage, so it lies between 0 and the number of defenders |
| OffBallRuns.DisruptionFacts | Soccer_Analytics/core/off_ball_runs.py:186-200 | disruption lies between 0 and the number of defenders, and is 0 without defenders or without movement |
| OffBallRuns.ThreatScoreBounds | Soccer_Analytics/core/off_ball_runs.py:126-157 | goal, space and direction threat each lie in [0, 1], so the weighted score 0.4/0.3/0.3 does too; without defenders the space threat is 1 |
| OffBallRuns.SupportNearbyIff | Soccer_Analytics/core/off_ball_runs.py:175-182 | the teammate loop finds support exactly when some teammate at a different spot is strictly within `space_creation_radius` |
| OffBallRuns.RunTypePrecedence | Soccer_Analytics/core/off_ball_runs.py:159-184 | penetrating exactly when the run is mostly along the length and forward; supporting exactly when not and a teammate at a different spot is within the radius; diversionary otherwise |
| OffBallRuns.AsWrittenRunDistanceNeverGrows | Soccer_Analytics/core/off_ball_runs.py:236-243 | as written, the position is overwritten before the step is measured, so a run's distance never grows |
| OffBallRuns.RunDistanceDiscrepancy | Soccer_Analytics/core/off_ball_runs.py:236-243 | for any move the corrected update adds the step and the written one adds nothing |
| OffBallRuns.ContinuedFacts | Soccer_Analytics/core/off_ball_runs.py:233-257 | a continued run keeps its player, start time and start, moves to the new position and velocity, never loses distance, and keeps non-negative space gained and disruption and a threat score in [0, 1] |
| OffBallRuns.Find | Soccer_Analytics/core/off_ball_runs.py:233-235 | a run is found exactly when one of that player is active, and the one found is that player's |
| OffBallRuns.PushKeepsAgreement | Soccer_Analytics/core/off_ball_runs.py:55-69 | pushing a sample onto both histories keeps every player's position and time histories of equal length and within `history_window` |
| OffBallRuns.JudgeFacts | Soccer_Analytics/core/off_ball_runs.py:229-290 | a run is kept only while the player keeps the run speed and the run is not too long, and keeps its start; a new one starts only at the run speed, now, at the position; a completed run is closed now and was active; no run means none was active and none starts |
| OffBallRuns.Visit | Soccer_Analytics/core/off_ball_runs.py:220-290 | one player's visit keeps the histories agreeing |
| OffBallRuns.Frame | Soccer_Analytics/core/off_ball_runs.py:220-290 | a frame keeps the histories agreeing |
| OffBallRuns.VisitFacts | Soccer_Analytics/core/off_ball_runs.py:220-290 | a visit adds at most one kept run, of that player and not the carrier's, and at most one completed run, closed at the frame's time |
| OffBallRuns.FrameFacts | Soccer_Analytics/core/off_ball_runs.py:210-293 | after a frame every kept run belongs to a frame player who is not the carrier and is open, every newly completed run is closed at the frame's time, and earlier completed runs are untouched |
| OffBallRuns.FrameKeepsActive | Soccer_Analytics/core/off_ball_runs.py:217-290 | the runs kept in a frame extend the kept list and each belongs to a non-carrier player of the frame and is open |
| OffBallRuns.FrameCompletes | Soccer_Analytics/core/off_ball_runs.py:263-267 | the runs completed in a frame extend the completed list and each is closed at the frame's time |
| OffBallRuns.RunTypesPartitionRuns | Soccer_Analytics/core/off_ball_runs.py:312-319 | every run has exactly one of the three types, so the three counts add up to the number of runs |
| OffBallRuns.MostActivePlayer | Soccer_Analytics/core/off_ball_runs.py:322-327 | the reported player has a completed run and no player has more completed runs |
| OffBallRuns.RunStatsOf | Soccer_Analytics/core/off_ball_runs.py:295-328 | the total is the number of completed runs and the run types add up to it; the details are absent exactly without runs, when the averages are 0 |
| OffBallRuns.HighThreatRuns | Soccer_Analytics/core/off_ball_runs.py:330-333 | exactly the completed runs whose threat score reaches the threshold |
| OffBallRuns.OffBallRunsAnalyzer.constructor | Soccer_Analytics/core/off_ball_runs.py:40-53 | a fresh analyzer has no runs and no histories |
| OffBallRuns.OffBallRunsAnalyzer.UpdatePositionHistory | Soccer_Analytics/core/off_ball_runs.py:55-69 | both histories of the player get the sample and keep the last `history_window`; the others and the runs are unchanged |
| OffBallRuns.OffBallRunsAnalyzer.CalculateSmoothVelocity | Soccer_Analytics/core/off_ball_runs.py:71-93 | the smoothed velocity of the player's history |
| OffBallRuns.OffBallRunsAnalyzer.VisitPlayer | Soccer_Analytics/core/off_ball_runs.py:220-290 | the new histories, kept runs and completed runs are those of one visit |
| OffBallRuns.OffBallRunsAnalyzer.Decide | Soccer_Analytics/core/off_ball_runs.py:233-290 | the histories are unchanged and the kept and completed runs are those of the run decision |
| OffBallRuns.OffBallRunsAnalyzer.Continue | Soccer_Analytics/core/off_ball_runs.py:233-269 | an active run is completed or kept with the new sample, as the decision says |
| OffBallRuns.OffBallRunsAnalyzer.Complete | Soccer_Analytics/core/off_ball_runs.py:265-267 | the closed run is appended to the completed runs and nothing else changes |
| OffBallRuns.OffBallRunsAnalyzer.AnalyzeFrame | Soccer_Analytics/core/off_ball_runs.py:210-293 | the new state is the frame's; every active run belongs to a non-carrier frame player and is open; earlier completed runs are kept and new ones are closed now |
| OffBallRuns.OffBallRunsAnalyzer.VisitAll | Soccer_Analytics/core/off_ball_runs.py:220-290 | the loop over the players gives the state of the frame |
| OffBallRuns.OffBallRunsAnalyzer.GetRunStatistics | Soccer_Analytics/core/off_ball_runs.py:295-328 | the total is the number of completed runs and the three types add up to it |
| OffBallRuns.OffBallRunsAnalyzer.ClearHistory | Soccer_Analytics/core/off_ball_runs.py:335-340 | every run and every history is forgotten |
| Formations.AssignRoles | Soccer_Analytics/core/formation_analyzer.py:88-115 | one role per centre up to the requested head count, handed out defenders first, then midfielders, then forwards; only the number of centres matters |
| Formations.Mismatches | Soccer_Analytics/core/formation_analyzer.py:163-165 | one mismatch per template |
| Formations.DetectFormationPattern | Soccer_Analytics/core/formation_analyzer.py:152-170 | the pattern is the nearest template to the zones' role head counts |
| Formations.CountRoles | Soccer_Analytics/core/formation_analyzer.py:155-157 | the loop counts the zones' players by the zone's role |
| Formations.NearestTemplate | Soccer_Analytics/core/formation_analyzer.py:159-170 | the loop keeps the first template with the smallest mismatch |
| Formations.PatternIsNearestTemplate | Soccer_Analytics/core/formation_analyzer.py:159-170 | the reported pattern is a template whose L1 mismatch is the least, and every earlier template mismatches strictly more, so the head-count fallback string is never used |
| Formations.ShadowedTemplatesAreNeverReported | Soccer_Analytics/core/formation_analyzer.py:58-67 | `4-1-4-1` and `4-5-1` have the head counts of `4-2-3-1`, which comes first, so they are never reported |
| Formations.ExactTemplatesAreRecognised | Soccer_Analytics/core/formation_analyzer.py:58-67 | head counts equal to any other template are reported as that template |
| Formations.Apart | Soccer_Analytics/core/formation_analyzer.py:129-130 | a row of pairwise distances with its zeros dropped holds only positive distances |
| Formations.PairDistances | Soccer_Analytics/core/formation_analyzer.py:129-130 | `distances[distances > 0]` holds only positive distances |
| Formations.ApartEmptyIff | Soccer_Analytics/core/formation_analyzer.py:129-130 | a row has no positive distance exactly when every point stands on the row's point |
| Formations.PairDistancesEmptyIff | Soccer_Analytics/core/formation_analyzer.py:129-130 | there is no positive pairwise distance exactly when all points coincide |
| Formations.MetricsFacts | Soccer_Analytics/core/formation_analyzer.py:117-150 | all zeros without positions or zones; width and depth non-negative; balance at most 1 (and at least 0 for players on the pitch); compactness positive, and NaN exactly when every player stands on one spot |
| Formations.CompactnessFacts | Soccer_Analytics/core/formation_analyzer.py:128-130 | no positive pairwise distance exactly when the players stand on one spot; otherwise the mean is positive |
| Formations.BalanceFacts | Soccer_Analytics/core/formation_analyzer.py:140-143 | the mean sideways offset over half the width is non-negative, and at most 1 for players on the pitch |
| Formations.ZonePlayers | Soccer_Analytics/core/formation_analyzer.py:223-225 | the zone lists at most one id per listed position |
| Formations.ZonePlayersWithinTolerance | Soccer_Analytics/core/formation_analyzer.py:223-225 | a player is in the zone exactly when one of their positions is strictly within `cluster_tolerance` of its centre |
| Formations.ZonePositions | Soccer_Analytics/core/formation_analyzer.py:228 | the zone's positions are a selection of the frame's |
| Formations.Spread | Soccer_Analytics/core/formation_analyzer.py:229-233 | a zone's width or depth is never negative |
| Formations.Zones | Soccer_Analytics/core/formation_analyzer.py:217-241 | one zone per centre, with that centre and its role |
| Formations.Column | Soccer_Analytics/core/formation_analyzer.py:191 | one player slot over every frame of the window |
| Formations.AveragePositions | Soccer_Analytics/core/formation_analyzer.py:191-192 | the average exists exactly when every frame of the window has the same number of players, and then has one point per slot |
| Formations.StillTeamAveragesToItsPositions | Soccer_Analytics/core/formation_analyzer.py:191-192 | a team that held the same positions over the whole window averages to those positions |
| Formations.StillSlot | Soccer_Analytics/core/formation_analyzer.py:191-192 | for such a team each slot's mean coordinates are its position |
| Formations.Unit | Soccer_Analytics/core/formation_analyzer.py:201-214 | a line's unit is a selection of the average positions |
| Formations.Repeat | Soccer_Analytics/core/formation_analyzer.py:219-221 | `[role] * n` is `n` copies of the role |
| Formations.PointsOf | Soccer_Analytics/core/formation_analyzer.py:183 | the positions of the frame's players, in order |
| Formations.LineZonesRunFromTheBack | Soccer_Analytics/core/formation_analyzer.py:194-241 | the zones are listed by role tag: the zones of KMeans line 0 tagged defence, then those of line 1 tagged midfield, then those of line 2 tagged attack (the tags follow the label number; KMeans does not promise that label 0 is the rearmost line) |
| Formations.FormationOfFacts | Soccer_Analytics/core/formation_analyzer.py:243-255 | the formation carries the time and the zones, names a template other than the two shadowed ones, and has non-negative width and depth and balance at most 1 |
| Formations.AnalyseFacts | Soccer_Analytics/core/formation_analyzer.py:190-255 | an analysed team's formation carries the time, names a reachable template, has its zones from the back forward, and non-negative width and depth with balance at most 1 |
| Formations.StepSlidesWindows | Soccer_Analytics/core/formation_analyzer.py:178-262 | a team with fewer than seven players is skipped and changes nothing; otherwise its frame is the newest of its window, an analysed formation the newest of its formations, no window exceeds `window_size`, and the other team is untouched |
| Formations.Changes | Soccer_Analytics/core/formation_analyzer.py:276-279 | fewer changes than formations |
| Formations.NoChangesIffSteady | Soccer_Analytics/core/formation_analyzer.py:276-279 | no change exactly when the formation string never changed |
| Formations.Names | Soccer_Analytics/core/formation_analyzer.py:277 | the formation strings, in window order |
| Formations.Values | Soccer_Analytics/core/formation_analyzer.py:282 | the present compactness values, in order |
| Formations.StabilityOf | Soccer_Analytics/core/formation_analyzer.py:266-291 | zeros without formations; otherwise fewer changes than formations, and non-negative variances |
| Formations.SteadyFormationIsStable | Soccer_Analytics/core/formation_analyzer.py:266-291 | a window holding one formation repeated has no change and no variance |
| Formations.MostCommon | Soccer_Analytics/core/formation_analyzer.py:301-303 | the primary formation is one of the window's strings and no string occurs more often |
| Formations.SummaryOf | Soccer_Analytics/core/formation_analyzer.py:301-324 | the primary formation is one of the team's, and the reported changes are the stability's, fewer than the formations |
| Formations.FormationSummary | Soccer_Analytics/core/formation_analyzer.py:293-326 | a team is summarised exactly when it has formations, with the summary of its formations |
| Formations.FormationAnalyzer.constructor | Soccer_Analytics/core/formation_analyzer.py:34-67 | a fresh analyzer has empty windows for both teams |
| Formations.FormationAnalyzer.AnalyzeTeam | Soccer_Analytics/core/formation_analyzer.py:178-262 | the new windows and the outcome are those of one team's step |
| Formations.FormationAnalyzer.AnalyzeFrame | Soccer_Analytics/core/formation_analyzer.py:172-264 | home then away; the new windows and the formations (absent where numpy raises) are those of the frame step, with a missing or zero timestamp replaced by the clock's time |
| Formations.FormationAnalyzer.GetFormationStability | Soccer_Analytics/core/formation_analyzer.py:266-291 | zeros without formations, and fewer changes than `window_size` |
| Formations.FormationAnalyzer.GetFormationSummary | Soccer_Analytics/core/formation_analyzer.py:293-326 | a team is summarised exactly when it has formations |
| Formations.FormationAnalyzer.Reset | Soccer_Analytics/core/formation_analyzer.py:328-331 | both windows of both teams are emptied |
| DefensiveLines.FitDefensiveLine | Soccer_Analytics/core/defensive_line_analyzer.py:37-51 | the fit is vertical exactly when fewer than two distinct x values occur, and then has r squared 1 and the mean x as intercept (NaN for no defenders) |
| DefensiveLines.VerticalIffSameX | Soccer_Analytics/core/defensive_line_analyzer.py:44-48 | for a non-empty line, the vertical case is exactly the one where every defender stands at the same x |
| DefensiveLines.UnitSquare | Soccer_Analytics/core/defensive_line_analyzer.py:51 | squaring a correlation coefficient gives a value in [0, 1] |
| DefensiveLines.StraightnessIsAFraction | Soccer_Analytics/core/defensive_line_analyzer.py:47-51 | the straightness lies in [0, 1] in both the vertical and the regression case |
| DefensiveLines.LineAngle | Soccer_Analytics/core/defensive_line_analyzer.py:113 | 90 degrees for a vertical line, otherwise strictly between -90 and 90 |
| DefensiveLines.HalfTurnInDegrees | Soccer_Analytics/core/defensive_line_analyzer.py:113 | an arctangent strictly inside a quarter turn either way is strictly inside (-90, 90) degrees |
| DefensiveLines.InsertByX | Soccer_Analytics/core/defensive_line_analyzer.py:59 | inserting a defender adds exactly that defender |
| DefensiveLines.SortByX | Soccer_Analytics/core/defensive_line_analyzer.py:59 | the sorted defenders are a permutation of the given ones |
| DefensiveLines.InsertKeepsSorted | Soccer_Analytics/core/defensive_line_analyzer.py:59 | inserting before the first defender not left of it keeps the line sorted by x |
| DefensiveLines.SortByXIsSorted | Soccer_Analytics/core/defensive_line_analyzer.py:59 | the defenders come out from left to right |
| DefensiveLines.Gaps | Soccer_Analytics/core/defensive_line_analyzer.py:62-66 | one gap per adjacent pair |
| DefensiveLines.GapsAddUpToPath | Soccer_Analytics/core/defensive_line_analyzer.py:62-66 | the gaps between neighbours add up to the length of the path through them |
| DefensiveLines.LineSpacingSign | Soccer_Analytics/core/defensive_line_analyzer.py:53-68 | the spacing is never negative |
| DefensiveLines.LineSpacingSharesThePath | Soccer_Analytics/core/defensive_line_analyzer.py:53-68 | for n of at least two defenders the spacing is the length of the left-to-right path through them over n - 1 |
| DefensiveLines.CalculateLineSpacing | Soccer_Analytics/core/defensive_line_analyzer.py:53-68 | the method computes the spacing: 0 below two defenders, else the mean gap of the sorted line |
| DefensiveLines.AdjacentGaps | Soccer_Analytics/core/defensive_line_analyzer.py:62-66 | the loop collects exactly the gaps between neighbours, in order |
| DefensiveLines.Movements | Soccer_Analytics/core/defensive_line_analyzer.py:79-84 | one movement per defender |
| DefensiveLines.Std | Soccer_Analytics/core/defensive_line_analyzer.py:87 | a standard deviation is never negative |
| DefensiveLines.Coordination | Soccer_Analytics/core/defensive_line_analyzer.py:70-87 | 0 when the two frames have different sizes; NaN exactly when both are empty; never negative |
| DefensiveLines.CalculateCoordination | Soccer_Analytics/core/defensive_line_analyzer.py:70-87 | the movement loop computes the coordination |
| DefensiveLines.UnisonIsPerfectlyCoordinated | Soccer_Analytics/core/defensive_line_analyzer.py:78-87 | a line that moves as one (every defender by the same vector) has coordination 0 |
| DefensiveLines.LineFacts | Soccer_Analytics/core/defensive_line_analyzer.py:102-141 | the offside line is never below the line height; straightness in [0, 1], angle in (-90, 90], spacing and coordination non-negative; coordination 0 without a previous frame; a line at one x has angle 90 and straightness 1 |
| DefensiveLines.LevelLineIsOnsideLine | Soccer_Analytics/core/defensive_line_analyzer.py:110-129 | a line level across the pitch sits exactly on its own offside line |
| DefensiveLines.DefensiveLineAnalyzer.constructor | Soccer_Analytics/core/defensive_line_analyzer.py:21-35 | a fresh analyzer has no lines and no previous frame |
| DefensiveLines.DefensiveLineAnalyzer.AnalyzeDefensiveLine | Soccer_Analytics/core/defensive_line_analyzer.py:89-156 | fewer than three defenders gives nothing and changes nothing; otherwise exactly the measured line is logged and its frame becomes the previous one |
| DefensiveLines.DefensiveLineAnalyzer.Log | Soccer_Analytics/core/defensive_line_analyzer.py:143-147 | the line is appended and its positions and time become the previous state |
| DefensiveLines.DefensiveLineAnalyzer.MeasureLine | Soccer_Analytics/core/defensive_line_analyzer.py:106-141 | the line measured against the previous frame, carrying the positions and time |
| TeamShapes.ColumnSize | Soccer_Analytics/core/team_shape_analyzer.py:88-92 | the pairs with second index `j` and first below `k` number `k` |
| TeamShapes.PairKeysSize | Soccer_Analytics/core/team_shape_analyzer.py:88-92 | n players give n(n - 1)/2 pairs `(i, j)` with `i < j` |
| TeamShapes.Row | Soccer_Analytics/core/team_shape_analyzer.py:79 | row `i` of `pdist` holds `n - i - 1` pairs |
| TeamShapes.PdistOrderFacts | Soccer_Analytics/core/team_shape_analyzer.py:79 | `pdist` lists from row `i` on exactly the pairs `i <= a < b < n`, (n - i)(n - i - 1)/2 of them |
| TeamShapes.PdistOrderMembers | Soccer_Analytics/core/team_shape_analyzer.py:79 | from row `i` on exactly the pairs `i <= a < b < n` are listed |
| TeamShapes.RowMembers | Soccer_Analytics/core/team_shape_analyzer.py:79 | row `i` holds exactly the pairs `(i, j)` with `i < j < n` |
| TeamShapes.PdistOrderLength | Soccer_Analytics/core/team_shape_analyzer.py:79 | from row `i` on there are (n - i)(n - i - 1)/2 pairs |
| TeamShapes.PlayerDistancesFacts | Soccer_Analytics/core/team_shape_analyzer.py:79-92 | `player_distances` has a key for exactly each pair `i < j` of players, n(n - 1)/2 of them, and its entry for the k-th pair in row-major order is the k-th `pdist` distance |
| TeamShapes.StretchIndexFacts | Soccer_Analytics/core/team_shape_analyzer.py:82-84 | a flat bounding box gives stretch 0; otherwise stretch times half the box is the hull measure; never negative for a non-negative measure |
| TeamShapes.ShapeOf | Soccer_Analytics/core/team_shape_analyzer.py:59-105 | the shape carries the time, positions and hull measure, the x and y extents as width and depth, and the stretch of those |
| TeamShapes.ShapeExtents | Soccer_Analytics/core/team_shape_analyzer.py:63-76 | width and depth are the team's extents and never negative, and the centroid lies between the extremes on both axes |
| TeamShapes.CompactnessFacts | Soccer_Analytics/core/team_shape_analyzer.py:78-80 | compactness is defined exactly for two or more players and is never negative |
| TeamShapes.StretchFacts | Soccer_Analytics/core/team_shape_analyzer.py:82-84 | a flat team has stretch 0, and stretch is never negative for a non-negative hull measure |
| TeamShapes.Thirds | Soccer_Analytics/core/team_shape_analyzer.py:255-257 | the three bin counts add up to at most the number of values |
| TeamShapes.ThirdsCountEveryValueInRange | Soccer_Analytics/core/team_shape_analyzer.py:255-257 | every value inside `[0, top]` is counted in exactly one bin |
| TeamShapes.ThirdsLastBinEmpty | Soccer_Analytics/core/team_shape_analyzer.py:255-257 | no value below two thirds of the range reaches the last bin |
| TeamShapes.TeamShapeAnalyzer.constructor | Soccer_Analytics/core/team_shape_analyzer.py:25-41 | a fresh analyzer has recorded no shape |
| TeamShapes.TeamShapeAnalyzer.CalculateTeamShape | Soccer_Analytics/core/team_shape_analyzer.py:43-116 | too few players give nothing and record nothing; a hull scipy cannot build raises before anything is recorded; otherwise exactly the measured shape is recorded and returned |
| TeamShapes.TeamShapeAnalyzer.PlayerDistribution | Soccer_Analytics/core/team_shape_analyzer.py:246-280 | nothing exactly without shapes; otherwise the thirds of the last shape count at most its players |
| TeamShapes.DistributionFacts | Soccer_Analytics/core/team_shape_analyzer.py:255-280 | with the y coordinates inside the width of a pitch narrower than two thirds of its length (105 by 68 among them), all players are counted and the attacking third is always 0 |
| Pressing.InsertIndex | Soccer_Analytics/core/pressing_analyzer.py:56 | inserting an index adds one valid index |
| Pressing.ArgSortUpTo | Soccer_Analytics/core/pressing_analyzer.py:56 | the order of the first `n` values has `n` valid indices |
| Pressing.ArgSort | Soccer_Analytics/core/pressing_analyzer.py:56 | one valid index per distance |
| Pressing.InsertIndexKeepsMembers | Soccer_Analytics/core/pressing_analyzer.py:56 | inserting keeps every index present and adds the new one |
| Pressing.ArgSortUpToCovers | Soccer_Analytics/core/pressing_analyzer.py:56 | every index below `n` occurs in the order of the first `n` values |
| Pressing.InsertIndexAtLeast | Soccer_Analytics/core/pressing_analyzer.py:56 | inserting an index whose value is at least `lo` among such indices keeps every value at least `lo` |
| Pressing.InsertIndexKeepsAscending | Soccer_Analytics/core/pressing_analyzer.py:56 | inserting after every index whose value is not above it keeps the values ascending |
| Pressing.ArgSortUpToAscending | Soccer_Analytics/core/pressing_analyzer.py:56 | the sorted indices point at ascending distances |
| Pressing.ArgSortStep | Soccer_Analytics/core/pressing_analyzer.py:56 | one more insertion keeps the order ascending |
| Pressing.ArgSortHasEveryIndex | Soccer_Analytics/core/pressing_analyzer.py:56 | every defender's index turns up in the sorted order |
| Pressing.InsertIndexAvoids | Soccer_Analytics/core/pressing_analyzer.py:56 | an index neither inserted nor present is absent afterwards |
| Pressing.InsertIndexBelow | Soccer_Analytics/core/pressing_analyzer.py:56 | inserting an index below `n` into indices below `n` keeps them below `n` |
| Pressing.InsertIndexKeepsDistinct | Soccer_Analytics/core/pressing_analyzer.py:56 | inserting a new index keeps the indices distinct |
| Pressing.ArgSortUpToDistinct | Soccer_Analytics/core/pressing_analyzer.py:56 | the order of the first `n` values names each index below `n` once |
| Pressing.ArgSortUpToNoRepeats | Soccer_Analytics/core/pressing_analyzer.py:56 | the order of the first `n` values has no repeats and stays below `n` |
| Pressing.NearestThree | Soccer_Analytics/core/pressing_analyzer.py:56-57 | at most three valid indices, exactly three when there are that many defenders |
| Pressing.NearestThreeAreNearest | Soccer_Analytics/core/pressing_analyzer.py:53-60 | the pressing set is in ascending order of distance, no defender left out is nearer than one chosen, and all defenders are chosen when there are at most three |
| Pressing.SpeedScore | Soccer_Analytics/core/pressing_analyzer.py:107-108 | a speed score lies in [0, 1] |
| Pressing.DistanceScores | Soccer_Analytics/core/pressing_analyzer.py:104 | one score per distance |
| Pressing.SpeedScores | Soccer_Analytics/core/pressing_analyzer.py:107-108 | one score per speed, each in [0, 1] |
| Pressing.IntensityBounds | Soccer_Analytics/core/pressing_analyzer.py:99-111 | for non-negative distances the intensity lies in [0, 100] |
| Pressing.FullPress | Soccer_Analytics/core/pressing_analyzer.py:99-111 | defenders on the ball closing at least at the threshold speed give intensity 100 |
| Pressing.ClosingSpeeds | Soccer_Analytics/core/pressing_analyzer.py:62-73 | the loop raises exactly when there is a previous frame and a chosen index falls inside it (the position minus timestamp subtraction); otherwise every closing speed is 0 |
| Pressing.EventFacts | Soccer_Analytics/core/pressing_analyzer.py:53-87 | the event has one to three pressing defenders, each recorded with its distance to the ball, in ascending order of distance, with closing speeds 0 |
| Pressing.Intensities | Soccer_Analytics/core/pressing_analyzer.py:141-144 | one intensity per event |
| Pressing.PooledFacts | Soccer_Analytics/core/pressing_analyzer.py:133-134 | the pooled lists have at least one entry per event and equal lengths; distances are non-negative and speeds all 0 |
| Pressing.PooledDistanceBounds | Soccer_Analytics/core/pressing_analyzer.py:137-138 | over a non-empty log the nearest approach is non-negative and at most the average |
| Pressing.PooledSpeedsVanish | Soccer_Analytics/core/pressing_analyzer.py:139-140 | the pooled closing speeds have max and mean 0 |
| Pressing.MeanIntensityBounded | Soccer_Analytics/core/pressing_analyzer.py:141-144 | the mean intensity over the events lies in [0, 100] |
| Pressing.StatsOf | Soccer_Analytics/core/pressing_analyzer.py:113-145 | over a non-empty log: closing speeds max and mean 0, the minimum distance non-negative and at most the average, and the intensity in [0, 100] |
| Pressing.PressingAnalyzer.constructor | Soccer_Analytics/core/pressing_analyzer.py:19-35 | a fresh analyzer has no events and no previous frame |
| Pressing.PressingAnalyzer.AnalyzeFrame | Soccer_Analytics/core/pressing_analyzer.py:37-97 | without defenders (cdist raises) or when the closing-speed loop raises, nothing changes; otherwise exactly the frame's event is logged, the frame becomes the previous one, and the metrics are those of the event |
| Pressing.PressingAnalyzer.Log | Soccer_Analytics/core/pressing_analyzer.py:75-88 | the event is appended and the frame becomes the previous one |
| Pressing.PressingAnalyzer.GetPressingStatistics | Soccer_Analytics/core/pressing_analyzer.py:113-145 | nothing exactly without events; otherwise the statistics of the log |
| PressingNp.SortingIsAPartition | Soccer_Analytics/core/pressing_analyzer_np.py:71 | the first three of a full sort pick the three nearest defenders, so the partition law can be met |
| PressingNp.DistanceScores | Soccer_Analytics/core/pressing_analyzer_np.py:118 | one clipped score per distance, each in [0, 1] |
| PressingNp.SpeedScores | Soccer_Analytics/core/pressing_analyzer_np.py:121 | one clipped score per speed, each in [0, 1] |
| PressingNp.IntensityBounds | Soccer_Analytics/core/pressing_analyzer_np.py:113-124 | clipping keeps the intensity in [0, 100] whatever the distances and speeds |
| PressingNp.AgreesWithListAnalyzer | Soccer_Analytics/core/pressing_analyzer_np.py:113-124 | on non-negative distances the clipped intensity equals the list-based analyzer's |
| PressingNp.ClosingSpeeds | Soccer_Analytics/core/pressing_analyzer_np.py:74-86 | one speed per chosen defender, and all 0 without a previous frame |
| PressingNp.ClosingSpeedSign | Soccer_Analytics/core/pressing_analyzer_np.py:76-86 | with history, in-range indices and time moving forward, a defender's closing speed is positive exactly when they are now nearer the ball than in the previous frame, and 0 exactly when the distance is unchanged |
| PressingNp.OutOfRangeIsIndexError | Soccer_Analytics/core/pressing_analyzer_np.py:81-83 | with a non-empty previous frame, indexing it raises exactly when a chosen index is past its end |
| PressingNp.ChosenDistances | Soccer_Analytics/core/pressing_analyzer_np.py:72 | each chosen defender's distance to the ball, in the chosen order |
| PressingNp.EventOf | Soccer_Analytics/core/pressing_analyzer_np.py:93-100 | the event carries the time, the ball, the speeds and the chosen defenders' distances |
| PressingNp.EventFacts | Soccer_Analytics/core/pressing_analyzer_np.py:68-100 | the event records three defenders, each at its distance from the ball, and no defender left out is nearer than any chosen one |
| PressingNp.MetricsOf | Soccer_Analytics/core/pressing_analyzer_np.py:104-111 | the minimum distance is non-negative and at most the average, and the intensity lies in [0, 100] |
| PressingNp.FrameSpeeds | Soccer_Analytics/core/pressing_analyzer_np.py:68-86 | three closing speeds when they can be computed |
| PressingNp.Intensities | Soccer_Analytics/core/pressing_analyzer_np.py:150-153 | one intensity per event |
| PressingNp.PooledFacts | Soccer_Analytics/core/pressing_analyzer_np.py:146-147 | the concatenated arrays hold three entries per event, and the distances are non-negative |
| PressingNp.MeanIntensityBounded | Soccer_Analytics/core/pressing_analyzer_np.py:150-160 | the mean intensity lies in [0, 100] |
| PressingNp.AppendKeepsWellFormed | Soccer_Analytics/core/pressing_analyzer_np.py:101 | appending a well-formed event keeps every logged event well formed |
| PressingNp.StatsOf | Soccer_Analytics/core/pressing_analyzer_np.py:126-161 | over a non-empty log the minimum distance is non-negative and at most the average, the average closing speed is at most the max, and the intensity lies in [0, 100] |
| PressingNp.PressingAnalyzer.constructor | Soccer_Analytics/core/pressing_analyzer_np.py:19-38 | a fresh analyzer has no events and no previous frame |
| PressingNp.PressingAnalyzer.AnalyzeFrame | Soccer_Analytics/core/pressing_analyzer_np.py:48-111 | fewer than four defenders (argpartition raises) exactly when the outcome says so; a logged frame appends exactly its event from the three nearest defenders and their speeds, becomes the previous frame, and reports the event's metrics; any other outcome changes nothing |
| PressingNp.PressingAnalyzer.Record | Soccer_Analytics/core/pressing_analyzer_np.py:88-101 | the event is appended and the frame becomes the previous one |
| PressingNp.PressingAnalyzer.Event | Soccer_Analytics/core/pressing_analyzer_np.py:92-111 | the event of the chosen defenders and the metrics of that event |
| PressingNp.PressingAnalyzer.GetPressingStatistics | Soccer_Analytics/core/pressing_analyzer_np.py:126-161 | nothing exactly without events; otherwise the statistics of the log |
| YoloLabels.Convert | training/data.py:8-18 | no box (the `ZeroDivisionError`) exactly when the width or the height is 0; otherwise the last two components are `w / width` and `h / height`: multiplied back by the image size they give the box's width and height |
| YoloLabels.ConvertRoundTrip | training/data.py:13-18 | whenever the conversion succeeds, scaling the converted box back and moving its centre to the corner gives the original pixel box, so the centre is `(x/width + (w/width)/2, y/height + (h/height)/2)` |
| YoloLabels.InsideImageIsNormalised | training/data.py:9-12 | a box inside an image of positive size converts to a YOLO box whose extent lies in `[0, 1]` on both axes, as the docstring promises |
| YoloLabels.IdsMentioning | training/data.py:57-66 | an id is collected exactly when some game-information line carrying that id contains the word |
| YoloLabels.CollectIds | training/data.py:60-66 | with the ball flag no goalkeeper and no referee ids are collected |
| YoloLabels.ClassId | training/data.py:75-84 | every class id written is 0, 1, 2 or 3 |
| YoloLabels.ClassPriority | training/data.py:77-84 | ball ids take precedence over goalkeeper ids (2), then referee ids (3); 1 exactly when the track is in none of the lists |
| YoloLabels.BallModeLabelsEverythingBall | training/data.py:75-76 | with `ball=True` every row gets class 0 |
| YoloLabels.GoalkeeperFromInfo | training/data.py:57-84 | a track is labelled 2 exactly when some line mentions "goalkeeper" with its id and no line mentions "ball" with it |
| YoloLabels.LabelOf | training/data.py:71-89 | no label line (the `ZeroDivisionError` of `convert`) exactly when the image width or height is 0; otherwise the line's box converts back to the ground-truth box, and its class is 0 exactly in ball mode or for a ball id |
| Calculations.Velocity | analytics/utils/calculations.py:7-22 | the speed times the time step is 3.6 times the distance: metres per second turned into km/h |
| Calculations.VelocitySign | analytics/utils/calculations.py:7-22 | over a forward time step the speed is non-negative, and 0 exactly when the player did not move |
| Calculations.FloorMod360 | analytics/utils/calculations.py:33-34 | Python's float `% 360` lands in [0, 360) and leaves angles already there unchanged |
| Calculations.DirectionIndex | analytics/utils/calculations.py:33-34 | the index is always a valid position in the eight-label list |
| Calculations.TravelIndex | analytics/utils/calculations.py:30-34 | the sector of the angle itself is one of the eight |
| Calculations.DirectionIsOppositeOfTravel | analytics/utils/calculations.py:32-35 | the `+ 180` shift moves every angle four sectors round, so the label names the direction opposite to the one travelled in |
| Calculations.DirectionLabel | analytics/utils/calculations.py:32-35 | the label is one of the eight compass names |
| Calculations.DirectionLabelExamples | analytics/utils/calculations.py:25-35 | moving east is labelled `W`, north `S`, west `E`, south `N` |
| Calculations.CalculateDirection | analytics/utils/calculations.py:25-35 | the label is the compass name four sectors round from the sector of the movement's angle |
| Calculations.PathLengthNonneg | analytics/utils/calculations.py:38-43 | the distance covered is never negative, and 0 for fewer than two positions |
| Calculations.PathLengthJoin | analytics/utils/calculations.py:38-43 | two paths that meet at a point cover, walked one after the other, the sum of their lengths |
| Calculations.CalculateDistance | analytics/utils/calculations.py:38-43 | the summing loop over consecutive pairs gives the path length |
| Calculations.CentroidInBoundingBox | analytics/utils/calculations.py:56-59 | the centroid lies inside the group's bounding box |
| Calculations.CentroidOfOneSpot | analytics/utils/calculations.py:56-59 | a group standing on one spot has that spot as its centroid |
| Calculations.TeamCentroid | analytics/utils/calculations.py:56-59 | a centroid exactly for a non-empty group (an empty one raises), and it lies in the bounding box |
| Calculations.SmoothPositions | analytics/utils/calculations.py:46-53 | a result exactly for a non-empty list and a window of at least one; `n - w + 1` points when `w <= n`, and `w - n + 1` when numpy swaps the operands |
| Calculations.SmoothedPointInWindow | analytics/utils/calculations.py:46-53 | each smoothed point lies inside the bounding box of its window of `w` consecutive points |
| Calculations.SmoothingKeepsStillPlayer | analytics/utils/calculations.py:46-53 | a player standing still stays put under smoothing |
| Calculations.ConvexHullArea | analytics/utils/calculations.py:62-68 | 0 below three points, otherwise the hull's `area` |
| Calculations.InterpolatePosition | analytics/utils/calculations.py:71-76 | ratio 0 gives the first position and ratio 1 the second |
| Calculations.InterpolateSqDist | analytics/utils/calculations.py:71-76 | the squared distances to the two ends are the squared ratio and the squared complement times the squared segment length |
| Calculations.InterpolateOnSegment | analytics/utils/calculations.py:71-76 | for a ratio in [0, 1] the point lies on the segment, at `ratio` of its length from the first end and `1 - ratio` from the second |
| Interpolate.Interpolate | tracking/interpolate.py:6-18 | the accumulator loop gives the weighted sum of the window's points with weights 2, 3, 4, 3, 2 over 14 |
| Interpolate.FiveTermForm | tracking/interpolate.py:6-18 | over a full window the result is `(2 p0 + 3 p1 + 4 p2 + 3 p3 + 2 p4) / 14` |
| Interpolate.ConstantWindow | tracking/interpolate.py:8 | the weights add up to one: five copies of a position smooth to that position |
| Interpolate.WindowStaysInBox | tracking/interpolate.py:6-18 | the smoothed point is a convex combination: it stays inside any box holding the five positions |
| Interpolate.BallRowsSound | tracking/interpolate.py:27-33 | every row of the ball table belongs to a frame with an entity and holds the fix of that frame's first entity (NaN unless it is the ball strictly inside the 105 by 68 pitch) |
| Interpolate.BallRowsAscending | tracking/interpolate.py:27-33 | the rows come in strictly increasing frame order |
| Interpolate.BallRowsComplete | tracking/interpolate.py:27-33 | every frame with an entity has a row |
| Interpolate.CollectBallRows | tracking/interpolate.py:27-33 | the frame loop writes exactly those rows |
| Interpolate.IdsMembers | tracking/interpolate.py:49-50 | an id is in a frame's id set exactly when some entity carries it |
| Interpolate.KeepIds | tracking/interpolate.py:52 | filtering never adds entities |
| Interpolate.KeepIdsFacts | tracking/interpolate.py:52 | filtering keeps exactly the entities whose id is listed, and keeps ids distinct |
| Interpolate.InsertById | tracking/interpolate.py:53 | inserting adds one entity |
| Interpolate.SortById | tracking/interpolate.py:53 | sorting keeps the number of entities |
| Interpolate.InsertByIdMembers | tracking/interpolate.py:53 | inserting adds exactly that entity and its id |
| Interpolate.InsertByIdSorted | tracking/interpolate.py:53 | inserting before the first larger id keeps the list sorted by id |
| Interpolate.SortByIdFacts | tracking/interpolate.py:53 | the sort returns the same entities in id order and keeps distinct ids distinct |
| Interpolate.CommonIdsMembers | tracking/interpolate.py:49-50 | an id is common exactly when all five frames carry it |
| Interpolate.Aligned | tracking/interpolate.py:52-53 | five aligned frames |
| Interpolate.Column | tracking/interpolate.py:12-13 | five positions, one per aligned frame |
| Interpolate.EmitNoneSticks | tracking/interpolate.py:55-56 | once an `IndexError` is raised, processing more entities does not undo it |
| Interpolate.SmoothWindow | tracking/interpolate.py:48-64 | the window loop body gives the window's smoothed players, or the error |
| Interpolate.EmitFacts | tracking/interpolate.py:55-61 | every entry comes from a non-ball entity of the centre frame, with its id and class and the weighted sum of its column |
| Interpolate.EmitSorted | tracking/interpolate.py:55-61 | the entries follow the centre frame's order, so a centre frame sorted by id gives entries sorted by id |
| Interpolate.EmitTotal | tracking/interpolate.py:55-56 | without a short column nothing raises |
| Interpolate.AlignedFacts | tracking/interpolate.py:49-53 | each aligned frame holds entities of its own frame whose ids are common to the window, sorted by id, without new repeats |
| Interpolate.SmoothedEntries | tracking/interpolate.py:47-64 | every emitted player is a non-ball track present in all five frames and carries the class of a centre-frame entity with its id; entries come in id order |
| Interpolate.PosOf | tracking/interpolate.py:12-13 | one position per entity |
| Interpolate.SortedSameIds | tracking/interpolate.py:52-53 | two id-sorted lists without repeats and with the same ids list them in the same order |
| Interpolate.AlignedIds | tracking/interpolate.py:49-53 | each aligned frame holds exactly the common ids |
| Interpolate.AlignedColumns | tracking/interpolate.py:49-56 | without repeated ids, the aligned frames list the same ids at the same indices |
| Interpolate.SmoothedWithDistinctIdsIsSome | tracking/interpolate.py:47-64 | when no frame repeats a track id, the window never raises |
| Interpolate.SmoothedWithDistinctIds | tracking/interpolate.py:47-64 | when no frame repeats a track id, every emitted position is the weighted mean of the five positions of that id, one from each frame |
| Interpolate.ColumnEntities | tracking/interpolate.py:55-56 | the entities behind one entry are one per frame, all with the entry's id, and its position is their weighted sum |
| Interpolate.Column2 | tracking/interpolate.py:12-13 | the `k`-th entity of each aligned frame |
| Interpolate.Window | tracking/interpolate.py:48 | the five frames centred on frame `i` |
| Interpolate.PlayersAppend | tracking/interpolate.py:47-64 | one more window that succeeds appends its players to the result |
| Interpolate.PlayersFail | tracking/interpolate.py:47-64 | a window that raises makes the whole call raise |
| Interpolate.PlayersUpToLength | tracking/interpolate.py:47 | a successful run over centre frames up to `n` gives `n - 2` lists |
| Interpolate.PlayersNoneSticks | tracking/interpolate.py:47-64 | once a window raises, later windows do not undo it |
| Interpolate.PlayersInterpolate | tracking/interpolate.py:41-66 | the result of every window, one list per centre frame: `max(0, n - 4)` lists for `n` frames, unless a window raises |
| Interpolate.NearestEdgesSound | tracking/interpolate.py:77-84 | a carried edge list is that of the last frame up to `m` with a non-empty one |
| Interpolate.NearestEdgesNone | tracking/interpolate.py:77-84 | nothing is carried exactly when no frame up to `m` has edges |
| Interpolate.EdgeWindow | tracking/interpolate.py:76-84 | at most one list per slot |
| Interpolate.EdgeWindowNonEmpty | tracking/interpolate.py:76-84 | every carried list is non-empty |
| Interpolate.NearestEdgesPresent | tracking/interpolate.py:77-84 | a carried list is never empty |
| Interpolate.NearestEdgesPersist | tracking/interpolate.py:77-84 | once some frame has had edges, every later frame carries some |
| Interpolate.EdgeWindowFull | tracking/interpolate.py:76-84 | when some frame up to `i - 2` had edges, the window has all five slots |
| Interpolate.OwnEdges | tracking/interpolate.py:84 | the recorded edge lists of the five frames |
| Interpolate.EdgeWindowOwn | tracking/interpolate.py:76-84 | when all five frames have edges, the window holds exactly their lists |
| Interpolate.EdgeColumn | tracking/interpolate.py:15-16 | the `k`-th vertex of every window list |
| Interpolate.VerticesUpToFacts | tracking/interpolate.py:86-87 | the vertices are computed exactly when every list reaches each index, and vertex `k` is the weighted sum of the lists' `k`-th vertices |
| Interpolate.FullWindowVertices | tracking/interpolate.py:75-89 | five frames with as many vertices as the centre smooth to that many vertices, each the weighted mean of that vertex's five positions |
| Interpolate.StaticEdgesAreFixed | tracking/interpolate.py:75-89 | edges that do not move across the window are their own smoothing |
| Interpolate.EdgesAppend | tracking/interpolate.py:75-89 | one more window that succeeds appends its vertices |
| Interpolate.EdgesNoneSticks | tracking/interpolate.py:75-89 | once a window raises, later windows do not undo it |
| Interpolate.EdgesFail | tracking/interpolate.py:75-89 | a window that raises makes the whole call raise |
| Interpolate.EdgesUpToLength | tracking/interpolate.py:75 | a successful run over centre frames up to `n` gives `n - 2` vertex lists |
| Interpolate.FindEdges | tracking/interpolate.py:78-82 | the backward search finds the nearest frame up to `m` with edges |
| Interpolate.CarriedWindow | tracking/interpolate.py:76-84 | the inner loop builds the window's carried edge lists |
| Interpolate.SmoothEdges | tracking/interpolate.py:86-87 | the comprehension gives the smoothed vertices, or the error |
| Interpolate.VerticesNoneSticks | tracking/interpolate.py:86-87 | once a short list raises, more vertices do not undo it |
| Interpolate.EdgesInterpolate | tracking/interpolate.py:69-91 | one smoothed vertex list per centre frame, `max(0, n - 4)` of them for `n` frames, unless a window raises |
| Integration.FrameSlotsFacts | analytics/integration.py:79-82 | the indices collected for one frame are exactly those of its removed-class detections, each once |
| Integration.SlotsMembers | analytics/integration.py:77-82 | a pair `[i, j]` is collected exactly when detection `j` of frame `i` has a removed class |
| Integration.SlotsDistinct | analytics/integration.py:77-82 | no pair is collected twice |
| Integration.CollectSlots | analytics/integration.py:77-82 | the collecting loops build exactly that list of pairs |
| Integration.InsertDesc | analytics/integration.py:84 | the insertion step of the sort adds one pair |
| Integration.SortDesc | analytics/integration.py:84 | the sort keeps the number of pairs |
| Integration.InsertDescMembers | analytics/integration.py:84 | inserting adds exactly the new pair and keeps pairs distinct |
| Integration.InsertDescSorted | analytics/integration.py:84 | inserting keeps the list in descending index order |
| Integration.SortDescFacts | analytics/integration.py:84 | `sorted(..., key=x[1], reverse=True)` returns the same pairs, without repeats, with indices never increasing |
| Integration.SurvivorsAgree | analytics/integration.py:86-87 | what is left of a frame depends only on which of its own indices were popped |
| Integration.SurvivorsPrefix | analytics/integration.py:86-87 | detections below every popped index of the frame stay where they are |
| Integration.SurvivorsOfNothing | analytics/integration.py:86-87 | a frame nothing was popped from is unchanged |
| Integration.PopStep | analytics/integration.py:86-87 | popping index `j` after only larger indices of the frame were popped removes the frame's original detection `j` |
| Integration.SurvivorsKeep | analytics/integration.py:84-87 | popping exactly the removed-class indices leaves the detections of the other classes in their order |
| Integration.KeepAppend | analytics/integration.py:84-87 | the removal keeps the order of the detections it keeps |
| Integration.KeepMembers | analytics/integration.py:81-87 | nothing of a removed class survives, and every detection of another class does |
| Integration.PopSlots | analytics/integration.py:86-87 | the pop loop, run on pairs in descending index order, leaves each frame without exactly the listed detections |
| Integration.PopBelowGone | analytics/integration.py:84-87 | each pop lies below every earlier pop of the same frame, so it still hits the original detection |
| Integration.OtherFramesUnchanged | analytics/integration.py:87 | popping from one frame leaves every other frame alone |
| Integration.RemoveClasses | analytics/integration.py:75-87 | afterwards every frame holds exactly its detections of the other classes, in their original order (also lines 181-190 with class 3 only) |
| Integration.TrackVelocities | analytics/integration.py:18-33 | one velocity per sample, and `(0, 0)` for a player with no samples |
| Integration.VelocityReconstructs | analytics/integration.py:24-31 | velocity `i` is finite exactly when samples `i - 1` and `i` come from different frames, and moving from sample `i - 1` at that velocity for the time between them lands on sample `i` |
| Integration.FrameGapTime | analytics/integration.py:25-26 | the time step is zero exactly when the two frame numbers agree |
| Integration.FirstVelocityIsZero | analytics/integration.py:22 | every player's first velocity is `(0, 0)` |
| Integration.PlayerVelocities | analytics/integration.py:21-31 | the inner loop builds exactly the player's velocity list |
| Integration.FrameVelocity | analytics/integration.py:18-33 | the result has exactly the players of the input, each with its velocity list |
| Integration.LastBallFacts | analytics/integration.py:55-57 | a frame gives no ball exactly when it has no class-0 detection, and otherwise gives the position of its last one |
| Integration.SideMembers | analytics/integration.py:58-61 | a player is listed for a side exactly when a detection of that class carries its id and position |
| Integration.NoBallStaysAtStart | analytics/integration.py:43 | with no ball seen so far the ball stays at the pitch centre |
| Integration.BallIsLatestSeen | analytics/integration.py:55-57 | otherwise it is the last ball detection of the latest frame that had one |
| Integration.ScanFrame | analytics/integration.py:53-61 | the detection loop gives the carried ball and both side lists of the frame |
| Integration.PySlice | analytics/integration.py:47 | `data[:n]` is a prefix: `n` frames for `0 <= n`, `|data| + n` for negative `n`, clamped to the list |
| Integration.TruncatedKeepsLeadingSeconds | analytics/integration.py:45-47 | a positive `times` keeps the frames of the first `int(times * frame_rate)` of them |
| Integration.TruncatedNegativeDropsTail | analytics/integration.py:45-47 | a negative `times` worth at least one frame drops that many frames from the end |
| Integration.PossessionInputs | analytics/integration.py:36-65 | `analyze_possession` receives, for every kept frame `j`, timestamp `j / frame_rate`, the carried ball and the class-1 and class-2 players |
| Integration.ScanFrames | analytics/integration.py:49-65 | the frame loop gives one input per kept frame |
| Integration.FindPasserFacts | analytics/integration.py:144-149 | the passer is found exactly when some detection carries its id, and it is the first such detection |
| Integration.PassPartition | analytics/integration.py:159-164 | teammates, opponents and the passer's own detections split the frame |
| Integration.OthersMembers | analytics/integration.py:159-164 | teammates have the passer's class, opponents any other class, and neither list holds the passer's id |
| Integration.FrameAt | analytics/integration.py:141 | `data[frame_id]` exists exactly when `-len(data) <= frame_id < len(data)`, and is then the frame at that index, a negative id counting from the end |
| Integration.LookupOf | analytics/integration.py:139-153 | the `IndexError` of `data[frame_id]` is the outcome exactly when the frame id is out of range |
| Integration.PassingInputs | analytics/integration.py:139-164 | the `IndexError` outcome exactly when the frame id is out of range; `PlayerNotFound` ("Player not found", `None` returned) when no detection in the frame carries the id; otherwise the passer's position and class and both lists |
| Integration.MarkOfFits | analytics/integration.py:208-215 | with `position_to_grid` inside a 15 by 10 grid, every `[y_c][x_c]` lies inside the 10 by 15 arrays |
| Integration.CountAppend | analytics/integration.py:211-222 | counts add up over concatenated marks |
| Integration.FrameMarksEmpty | analytics/integration.py:214-215 | a frame adds no ball detection count exactly when it has no ball |
| Integration.BallMarksTotal | analytics/integration.py:203-222 | every frame adds at least one ball count: its ball detections, or the carried one |
| Integration.Resting | analytics/integration.py:217-222 | a ball last seen in frame `k` is counted once more in its own cell for every following frame without a ball |
| Integration.AsWrittenSameTotal | analytics/integration.py:217-222 | when the written loop does not raise it adds as many ball counts as the corrected one |
| Integration.AsWrittenCarriedCountRaises | analytics/integration.py:221-222 | a ball in column 12 followed by a frame without a ball raises `IndexError` |
| Integration.AsWrittenCarriedCountMisplaced | analytics/integration.py:221-222 | a ball in column 3, row 5, then no ball: the carried count lands in row 3, column 5 instead of row 5, column 3 |
| Integration.Tally | analytics/integration.py:211 | `grid[i][j] += 1` adds one to that entry and changes no other |
| Integration.TallyMark | analytics/integration.py:211-215 | counting one more mark keeps every entry equal to its number of marks |
| Integration.CountFrame | analytics/integration.py:204-215 | the inner loop counts the frame's detections in the grid of their class and returns its last ball |
| Integration.ZeroGrid | analytics/integration.py:196-198 | `np.zeros` holds no marks |
| Integration.CountFrames | analytics/integration.py:203-222 | after the outer loop every entry holds the number of marks at its index |
| Integration.HeatmapIntegrate | analytics/integration.py:178-229 | referees are removed in place; each entry of the three 10 by 15 grids holds the count of detections, and for the ball of the carried ball, at that entry |
| Integration.FrameSamplesMembers | analytics/integration.py:103-108 | a frame adds a sample `[i, pos]` to a player exactly for each detection of that player |
| Integration.TrackMembers | analytics/integration.py:103-108 | a sample is in a player's list exactly when some detection of that player made it |
| Integration.TrackOrdered | analytics/integration.py:103-108 | each list runs through the frames in order |
| Integration.FirstAt | analytics/integration.py:119-124 | the first entry taken in frame `i`, or none when there is none |
| Integration.PresentIsFound | analytics/integration.py:117-124 | every detection of frame `i` has an entry of frame `i`, so `position` is always bound |
| Integration.FirstAppearanceIsAtRest | analytics/integration.py:119-126 | a detection in its player's first frame gets velocity `(0, 0)` |
| Integration.EarlierSampleAppears | analytics/integration.py:119-126 | an entry ahead of the first one of frame `i` means the player appeared earlier |
| Integration.LaterAppearanceSteps | analytics/integration.py:119-126 | otherwise the velocity is the step from the player's previous sample, in an earlier frame, to its first sample of frame `i` |
| Integration.EarlierSampleComesFirst | analytics/integration.py:119-126 | a player seen before frame `i` has an entry from an earlier frame just ahead of its first one of frame `i` |
| Integration.MovingMembers | analytics/integration.py:126-131 | each side entry is a detection of that class with its own position and velocity |
| Integration.UniquePlayers | analytics/integration.py:90-96 | every id of the data once, and only those |
| Integration.AppearsStep | analytics/integration.py:92-96 | an id has appeared after frame `i` exactly when it had before or frame `i` carries it |
| Integration.EmptyLists | analytics/integration.py:99-101 | one empty list per listed player |
| Integration.AddFrame | analytics/integration.py:104-108 | frame `i` appends to each player's list the samples of its own detections, and adds no player |
| Integration.PositionLists | analytics/integration.py:99-108 | each player's list holds its samples in scan order |
| Integration.FindPosition | analytics/integration.py:119-124 | the search loop returns the first entry taken in frame `i` |
| Integration.FrameInputs | analytics/integration.py:113-131 | the inner loop of frame `i` builds its home and away lists with velocities |
| Integration.AllListed | analytics/integration.py:92-96 | every id of the data is listed |
| Integration.PlayerTables | analytics/integration.py:90-110 | every detected id has a position list and a velocity list, built as above |
| Integration.ControlInputs | analytics/integration.py:112-134 | frames `1` to `n - 1` each get their lists, `n - 1` analyzer calls |
| Integration.SpaceControlInputs | analytics/integration.py:73-134 | ball and referees are removed in place, and every frame after the first gets its home and away lists with velocities |
| Integration.SpaceControlRemoval | analytics/integration.py:81 | after the removal no ball and no referee is left, and every other detection is |
| Integration.ScaledFrame | analytics/integration.py:247-250 | scaling keeps the number of detections |
| Integration.ScaleRoundTrip | analytics/integration.py:247-250 | on a pitch of non-zero size, dividing back gives the ids, classes and normalised positions |
| Integration.ScaledOnPitch | analytics/integration.py:250 | a normalised position lands on the `length` by `width` pitch, id and class kept |
| Integration.ScalePositions | analytics/integration.py:247-250 | the scaling loop rewrites every detection with its scaled position |
| Integration.Integrate | analytics/integration.py:232-253 | the scaled frames feed the possession inputs and, after the referees are removed from them, the three heat maps |
| CoreIntegration.MarkFits | Soccer_Analytics/core/integration.py:203-209 | with a `grid_size` of at most 15 by 10, every `[x_c][y_c]` lies inside the 15 by 10 arrays |
| CoreIntegration.HeatmapIntegrate | Soccer_Analytics/core/integration.py:169-222 | referees are removed in place; each entry `[x][y]` of the three grids holds the number of counts at that cell, the carried ball's included, starting from the pitch centre |
| CoreIntegration.BallMarksInGrid | Soccer_Analytics/core/integration.py:196-215 | no ball count, detected or carried, falls outside the grid, so none raises |
| CoreIntegration.FrameMarksInGrid | Soccer_Analytics/core/integration.py:197-209 | no detection count of a frame falls outside the grid |
| CoreIntegration.CarriedBallStaysInItsCell | Soccer_Analytics/core/integration.py:210-215 | a ball last seen in frame `k` is counted once more in the very cell of its detection for every following frame without a ball |
| FrameCache.HitSkipsExtraction | Soccer_Analytics/core/analytics-integrator.py:87-89 | a cache hit returns the stored state whatever the extraction would do, and changes nothing |
| FrameCache.FailureCachesNothing | Soccer_Analytics/core/analytics-integrator.py:92-104 | an extraction that raises gives `None` and inserts nothing |
| FrameCache.FetchThenHit | Soccer_Analytics/core/analytics-integrator.py:87-100 | once a request was answered without raising, repeating it is answered from the cache with the same state |
| FrameCache.FetchKeepsOthers | Soccer_Analytics/core/analytics-integrator.py:96-98 | a request changes no other cached entry |
| FrameCache.CleanupKeepsRecent | Soccer_Analytics/core/analytics-integrator.py:106-117 | a frame at most `cache_size` (1000) behind the current one keeps all its entries |
| FrameCache.CleanupDropsOld | Soccer_Analytics/core/analytics-integrator.py:112-117 | a frame further behind is evicted |
| FrameCache.CleanupIdempotent | Soccer_Analytics/core/analytics-integrator.py:106-117 | cleaning twice is cleaning once |
| FrameCache.GatherFromIds | Soccer_Analytics/core/analytics-integrator.py:119-129 | positions only come from the listed players, at most one each |
| FrameCache.GatherWarm | Soccer_Analytics/core/analytics-integrator.py:119-129 | with every listed player cached, the positions are the cached states of the team in list order and nothing changes |
| FrameCache.GatherRaising | Soccer_Analytics/core/analytics-integrator.py:75-81 | with the placeholder `extract_position`, which always raises, nothing of an uncached frame is returned and the cache is unchanged |
| FrameCache.Integrator.constructor | Soccer_Analytics/core/analytics-integrator.py:59-73 | an empty cache, no current frame and no player ids |
| FrameCache.Integrator.GetPlayerState | Soccer_Analytics/core/analytics-integrator.py:83-104 | the state returned and the cache left behind are those of the cache semantics above; nothing else changes |
| FrameCache.Integrator.Stale | Soccer_Analytics/core/analytics-integrator.py:111-114 | a frame is marked exactly when it is more than `cache_size` behind the current one |
| FrameCache.Integrator.Recent | Soccer_Analytics/core/analytics-integrator.py:116-117 | a frame is left exactly when it is at most `cache_size` behind |
| FrameCache.Integrator.RecentDistinct | Soccer_Analytics/core/analytics-integrator.py:116-117 | the frames left keep distinct keys |
| FrameCache.Integrator.DeleteFrames | Soccer_Analytics/core/analytics-integrator.py:116-117 | the deletion loop removes exactly the marked frames |
| FrameCache.Integrator.CleanupCache | Soccer_Analytics/core/analytics-integrator.py:106-117 | nothing without a current frame, else exactly the frames more than `cache_size` behind are deleted |
| FrameCache.Integrator.GetTeamPositions | Soccer_Analytics/core/analytics-integrator.py:119-129 | the positions of the listed players whose state belongs to the team, each fetched through the cache |
| FrameCache.Integrator.BeginFrame | Soccer_Analytics/core/analytics-integrator.py:133-137 | the frame becomes current, and the cache is cleaned when the frame id is a multiple of 100 |
| Counting.Incr | Soccer_Analytics/core/sprint_analyzer.py:156 | `d[k] = d.get(k, 0) + 1` keeps every key where it was and adds at most a new one at the end |
| Counting.IncrCounts | Soccer_Analytics/core/buildup_analyzer.py:178 | raising one key adds one to its count and to the total, keeps every other count and the keys distinct |
| Counting.TallyCountsOccurrences | Soccer_Analytics/core/sprint_analyzer.py:154-156 | each key is counted as often as it occurs, in one entry, and the counts add up to the number of keys |
| Counting.Shares | Soccer_Analytics/core/sprint_analyzer.py:179-181 | one percentage per key, in the dictionary's order |
| Counting.ShareTotalIsCountTotal | Soccer_Analytics/core/sprint_analyzer.py:179-181 | the percentages add up to the total count over `n`, times 100 |
| Counting.SharesOfTallySumTo100 | Soccer_Analytics/core/sprint_analyzer.py:154-181 | the direction percentages of a non-empty sprint list add up to 100 |
| Numerics.Dist | Soccer_Analytics/core/distance_analyzer_np.py:89 | `np.linalg.norm(p - q)` is the non-negative number whose square is the squared distance |
| Numerics.DistPositive | Soccer_Analytics/core/distance_analyzer_np.py:89 | distinct points are a positive distance apart |
| Numerics.DistSelf | Soccer_Analytics/core/distance_analyzer_np.py:89 | a point is at distance zero from itself |
| Numerics.DistSymmetric | Soccer_Analytics/core/distance_analyzer_np.py:89 | distance does not depend on the order of the points |
| Numerics.DistancesFrom | Soccer_Analytics/core/ball_possession_analyzer.py:82-83 | `cdist([p], qs)[0]` holds the distance from `p` to each of `qs`, in order |
| Numerics.PercentagesOfParts | Soccer_Analytics/core/heat_map_analyzer.py:110-115 | shares of a non-zero total split in three parts add up to 100 |
| Numerics.Variance | Soccer_Analytics/core/formation_analyzer.py:282-284 | `np.var` is never negative |
| Numerics.VarianceOfConstant | Soccer_Analytics/core/formation_analyzer.py:282-284 | a constant series has no variance |
| Numerics.MeanBetween | Soccer_Analytics/core/sprint_analyzer.py:64 | the mean of values in `[lo, hi]` lies in `[lo, hi]` |
| Numerics.ArgMin | Soccer_Analytics/core/ball_possession_analyzer.py:90 | `np.argmin` is the first index holding the minimum |
| Numerics.ArgMax | Soccer_Analytics/core/heat_map_analyzer_np.py:150 | `np.argmax` is the first index holding the maximum |
| Numerics.Min | Soccer_Analytics/core/ball_possession_analyzer.py:85-86 | `np.min` is a value of the array no larger than any other |
| Numerics.Max | Soccer_Analytics/core/sprint_analyzer.py:162 | `np.max` is a value of the array no smaller than any other |
| Numerics.MeanWithinExtremes | Soccer_Analytics/core/sprint_analyzer.py:161-162 | the mean lies between the smallest and the largest value |
| Numerics.Clamp | Soccer_Analytics/core/heat_map_analyzer_np.py:46 | `np.clip` lies in `[lo, hi]` and leaves values already there alone |
| Numerics.Trunc | Soccer_Analytics/core/heat_map_analyzer.py:29-30 | `int(x)` truncates toward zero |
| Numerics.ClampIndex | Soccer_Analytics/core/heat_map_analyzer.py:33-34 | `min(max(v, 0), size - 1)` is an index of the grid: `v` itself when in range, else the nearer edge |
| Numerics.ArangeLen | Soccer_Analytics/core/passing_opportunities.py:149-150 | `np.arange(0, stop, step)` is non-empty exactly when `stop` is positive |
| Numerics.Arange | Soccer_Analytics/core/passing_opportunities.py:149-150 | value `k` is `k * step` |
| Numerics.ArangeBounds | Soccer_Analytics/core/passing_opportunities.py:149-150 | every value lies in `[0, stop)` and the first value left out is at least `stop` |
| Numerics.GridIndex | Soccer_Analytics/core/passing_opportunities.py:151 | point `(xs[i], ys[j])` sits at index `i * len(ys) + j` |
| Numerics.GridPointsFromAxes | Soccer_Analytics/core/passing_opportunities.py:151 | every grid point combines a value of each axis |
| Numerics.Recent | Soccer_Analytics/core/formation_analyzer.py:186-188 | the window holds `min(len(history), w)` entries |
| Numerics.PushedKeepsRecent | Soccer_Analytics/core/sprint_analyzer.py:59-61 | append-then-`pop(0)` keeps exactly the last `w` entries of the history |
| Numerics.PushedWithinWindow | Soccer_Analytics/core/formation_analyzer.py:186-188 | the window never exceeds `w` entries and ends with the newest |

## Left out
- Plotting and the two visualization modules: they draw results and compute none.
- YAML configuration, pickle and CSV I/O: configuration values are constructor or function parameters. The `training/data.py` file handling and random split are out for the same reason.
- pandas `.interpolate()` in `ball_interpolate`: `Interpolate.CollectBallRows` stops at the table of ball rows handed to pandas.
- Detection, tracking, homography, drawing, `voronoi.py`, the fine-tuning scripts and the UI: they are model inference, matrix inversion and video around foreign libraries.
- The analyzer calls of the integration scripts (`analyze_possession`, `analyze_space_control`, `analyze_passing_opportunities`, the stats afterwards): the scripts' own work up to each call is modelled. The analyzers themselves are modelled in their own modules but are not chained to these inputs.
- `analytics-integrator.py`: `analyze_frame` beyond its start (`FrameCache.Integrator.BeginFrame` and the position requests), `analyze_sequence` and `reset_analysis`. They call methods that do not exist or pass a dictionary as a path.
- `extract_position` is a stub that raises. It is a parameter of the requests, and `FrameCache.GatherRaising` states what the stub leads to.
- Python dictionary iteration order is modelled as a sequence of keys in insertion order beside the map.
- The `time_window` branches of every `get_*_stats`: they call `timedelta` on the `datetime` class and raise.
- `_get_current_buildup_stats` and its merge into the result of `analyze_buildup`: it reads the wall clock (`datetime.now()`).
- Formations: the time of a formation record is the clock reading, passed in as the parameter `now`.
- Foreign numerics become parameters with stated laws: KMeans (`Formations`, law `Sound`), `scipy.stats.linregress` (`DefensiveLines`, law `Correlation`), `ConvexHull` (`TeamShapes`, law `Measurable`) and `np.argpartition` (`PressingNp`, law `PartitionLaw`). Their numerical output is not computed. `gaussian_filter` is left out: `HeatMap` stops at the normalised grid it is applied to.
- `np.polyfit` and `get_defensive_trends`.
- `TeamShapes`: the standard-deviation balance and `structure_symmetry` of `analyze_tactical_balance` are not modelled, only its histogram counts. `get_shape_evolution` is not modelled either.
- Floating-point rounding, infinities and `nan`: the model uses real numbers.
- Calculations.Velocity: requires a non-zero time step. With equal timestamps `calculate_velocity` divides a numpy distance by 0.0 and returns `inf` if the player moved and `nan` if not, without raising; real numbers have neither value.
- Distance.DistanceAnalyzer.ProcessPosition: requires the new timestamp to differ from the last one. With equal timestamps `distance_analyzer.py:74-76` computes an `inf` or `nan` velocity, categorises it (`sprint` for `inf`, `walking` for `nan`) and logs a segment carrying that velocity.
- DistanceNp.DistanceAnalyzerNp.ProcessPosition: requires the new timestamp to differ from the last one. With equal timestamps `distance_analyzer_np.py:89-91` computes an `inf` or `nan` velocity and logs a segment carrying it.
- Sprints.SprintAnalyzer.ProcessPosition: requires the new timestamp to differ from the last one. With equal timestamps `sprint_analyzer.py:54-55` pushes an `inf` or `nan` speed into the smoothing buffer, and the smoothed speed stays non-finite while it is in the window.
- SprintsNp.SprintAnalyzerNp.ProcessPosition: requires the new timestamp to differ from the last one. With equal timestamps `sprint_analyzer_np.py:65-66` writes an `inf` or `nan` speed into the circular buffer, with the same effect on the smoothed speed.
- Integration.FrameVelocity: a zero time step, which gives `inf`/`nan` in numpy, is the single value `NonFinite`.
- PressingNp.PressingAnalyzer.AnalyzeFrame: when two frames share a timestamp, numpy logs an event with non-finite closing speeds. The model returns `SameInstant` and changes nothing, because real numbers have no infinity.
- Sprints and SprintsNp: the average velocity of a sprint of duration 0 (numpy's `0/0`) is `None`.
- Pressing.PressingAnalyzer.AnalyzeFrame: when a previous frame exists and one of the three chosen indices is below `len(previous_positions)`, the closing-speed loop of `pressing_analyzer.py` subtracts a timestamp from a position and raises (`ClosingSpeedRaises`). This is kept as the outcome `ClosingSpeedFailed`, not as an exception. When every chosen index lies beyond the previous frame, the loop skips them all and the frame is logged with zero closing speeds.
- Pressing and PressingNp: `argsort` and `argpartition` are modelled as a stable selection of the nearest players. numpy does not promise which of several equally near players it picks.
- OffBallRuns.MostActivePlayer and Formations.MostCommon: ties go to the first in the log. In Python the tie-break follows set or `max` iteration order, which the source does not fix.
- OffBallRuns: the value model reads the runs as they were before the frame. A player id repeated within one frame would see its own earlier update in Python.
- CoreIntegration.HeatmapIntegrate: requires a `grid_size` of at most 15 by 10. A larger configured grid makes the core heat map raise `IndexError`, which is not modelled.
- Integration.HeatmapIntegrate: `position_to_grid` of the analytics heat-map utility is a parameter assumed to stay inside its 15 by 10 grid. That utility is not part of this model.
- Integration.Integrate: the first element of each loaded pair (`data[i][0]`) is taken as given, and the deep copy is a value copy.
- SpaceControl.Report: the thirds are built with the corrected `ZoneControl`, which tests `x` against thirds of the pitch length. `_calculate_zone_control` (`analytics/utils/control.py:189-201`) tests `y`, so on the 105 by 68 pitch the source's attacking-third shares are `nan` (0/0), and its defensive and middle thirds are taken over other points. `SpaceControl.ZoneControlAsWritten` models that test (see "## Findings").
- SpaceControl.AnalysisOfMatrix: the loops are tied to `Report`, so the thirds it states are the corrected ones, not the `y`-based thirds of `control.py:189-201`.
- SpaceControl.SpaceControlAnalyzer.AnalyzeSpaceControl: the returned thirds are those of the corrected `Report`, not the `y`-based thirds of `control.py:189-201`.
- Sprints.Detect: an extended sprint goes through the corrected `Updated`, whose distance grows by each step. `_update_sprint` (`sprint_analyzer.py:113-118`) adds 0 on every update, so its logged distances stay 0. `Sprints.UpdatedAsWritten` models that update.
- Sprints.SprintAnalyzer.ProcessPosition: its log is that of the corrected `Detect`, so a logged sprint that moved has a positive distance where the source logs 0.
- SprintsNp.SprintAnalyzerNp.ProcessPosition: its log is that of the corrected `Sprints.Detect`, so a logged sprint that moved has a positive distance where `sprint_analyzer_np.py:127-132` logs 0.
- OffBallRuns.Continuing: a continued run goes through the corrected `Continued`, whose `run_distance` grows by the step. `off_ball_runs.py:236-243` overwrites `current_position` before measuring the step, so the source's `run_distance` never grows. `OffBallRuns.ContinuedAsWritten` models that update.
- OffBallRuns.Visit: a continued run is the corrected `Continuing`'s, so its distance grows where the source's stays at 0.
- OffBallRuns.Frame: it folds the corrected `Visit`, so the runs' distances differ from the source's.
- OffBallRuns.OffBallRunsAnalyzer.VisitPlayer: its new state is that of the corrected `Visit`.
- OffBallRuns.OffBallRunsAnalyzer.Continue: it keeps or completes the run of the corrected `Continuing`.
- OffBallRuns.OffBallRunsAnalyzer.VisitAll: it loops the corrected `Visit`.
- OffBallRuns.OffBallRunsAnalyzer.AnalyzeFrame: its new state is the corrected `Frame`'s, whose run distances differ from the source's.
- Integration.CountFrames: the carried ball is counted with the same `mark` as every detection, at `[y_c][x_c]`. `analytics/integration.py:222` indexes the carried ball at `[x_c][y_c]`: it raises `IndexError` when `x_c` is 10 or more and otherwise counts the ball at the transposed cell. `Integration.BallMarksAsWritten` models that count, with `None` for the raise.
- Integration.HeatmapIntegrate: the ball grid holds the corrected marks of `BallMarks`, not the `[x_c][y_c]` carry of `analytics/integration.py:222`.
- Integration.Integrate: its heat maps are those of the corrected `HeatmapIntegrate`.

## Findings
| source | as written | input that shows it | evidently intended | confidence | as-written member | corrected member |
|---|---|---|---|---|---|---|
| analytics/utils/control.py:189-201 | `_calculate_zone_control` tests the `y` coordinate against bounds that are thirds of the pitch length | the default 105 by 68 pitch: the attacking third asks for `70 <= y < 105`, and no grid point has `y` of 68 or more, so both shares are `0/0`, which numpy reports as `nan` | the thirds run along the length, so `x` is tested | not executed | `SpaceControl.ZoneControlAsWritten`, `SpaceControl.AsWrittenAttackingThirdIsEmpty`, `SpaceControl.DefaultPitchAttackingThirdIsEmpty` | `SpaceControl.ZoneControl`, `SpaceControl.ThirdsAlongLengthAreNonEmpty` |
| Soccer_Analytics/core/sprint_analyzer.py:113-118 | `_update_sprint` sets `end_position` to the new position and then adds the distance from `end_position` to the new position (also `sprint_analyzer_np.py:127-132`) | any sprint that moves: every update adds 0, so `distance` stays 0 | add the step from the previous end (or the start) to the new position | not executed | `Sprints.UpdatedAsWritten`, `Sprints.AsWrittenUpdateAddsNothing`, `Sprints.SprintDistanceDiscrepancy` | `Sprints.Updated`, `Sprints.SprintDistanceIsPathLength` |
| Soccer_Analytics/core/off_ball_runs.py:236-243 | the run's `current_position` is overwritten before the step is measured from it | any run that moves: `run_distance` never grows | add the step from the previous position to the new one | not executed | `OffBallRuns.ContinuedAsWritten`, `OffBallRuns.AsWrittenRunDistanceNeverGrows`, `OffBallRuns.RunDistanceDiscrepancy` | `OffBallRuns.Continued`, `OffBallRuns.ContinuedFacts` |
| analytics/integration.py:208-222 | detections are counted at `[y_c][x_c]` of the 10 by 15 grids, but the carried ball at `[x_c][y_c]` | a ball in grid column 12, then a frame without a ball: `IndexError`. A ball in column 3, row 5, then no ball: the carried count lands in row 3, column 5 | count the carried ball at `[y_c][x_c]`, like every detection | not executed | `Integration.BallMarksAsWritten`, `Integration.AsWrittenCarriedCountRaises`, `Integration.AsWrittenCarriedCountMisplaced` | `Integration.BallMarks`, `Integration.Resting`, `Integration.HeatmapIntegrate` |
