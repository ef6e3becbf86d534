# MTCF arena simulation, modelled in Dafny

This project models the competition simulation of the MedTech Cognitive Foundry demo front end, and the views that read it:

- **the engine** (`SimulationContext`). It holds `isActive`, `gameTime`, a roster of five teams and a bid feed. `startSimulation` and `stopSimulation` drive it, and so does a one-second game loop. Each tick advances the clock and updates every team: a clamped random walk on the score, a ten-sample velocity window, a five-line log, and the scripted lead changes and policy alert, keyed on the tick number. A tick may also push a bid onto a five-entry feed. After 60 ticks the run ends.
- **the arena page**: the `HH:MM:SS` clock, the winner, the merged log panel, the velocity chart series, the governance alert, the game-over overlay, and the page's own countdown and camera-cycle counters.
- **the orbit view** (`SolarSystem3D`): teams ranked by score, with each rank's orbit lane, planet size, orbit speed and glow.
- **the landing page**: the 3-2-1 countdown, which starts the simulation at most once.

Each `Math.random()` draw is an input with the range that `Math.random()` in [0, 1) gives it. `TeamDraw` holds one team's draws for one tick. `BidDraw` holds one tick's bid-generator draws. With those inputs a tick is a deterministic function of the state before it. Scores and velocities are `real`.

Files:

- `wrappers.dfy`: `Option` and `Result`.
- `simulation.dfy`: the engine. The per-team update and the bid feed are functions. The provider's state is the class `Engine`, with `Start`, `Stop` and `Step`.
- `ranking.dfy`: the stable sort by non-increasing score. The arena's winner and the orbit view's ranking both use it.
- `arena.dfy`: the arena page's views, plus its counters as the class `ArenaClock`.
- `solar_system.dfy`: the orbit view.
- `launch.dfy`: the landing page's launch sequence, as the class `Launcher`.

`Engine.Step` is one run of the game-loop effect:

- When the loop is armed (`isActive && gameTime < 60`), the interval fires once. The clock goes up by one. Every team is updated from the *pre-increment* time, because that is the value the callback captured.
- Otherwise nothing ticks. If the clock has reached 60, the run is deactivated.

So after the 60th tick `isActive` is still true until the effect runs again, as in the source. `gameTime` never exceeds 60.

Notes on what the code does:

- Bid amounts are `digit * 1000 + 10000`, a multiple of 1000 in [10000, 59000], whatever the tick. The amount does not escalate over the run.
- The code never gives a team the `winner` status. The winner is only computed by the arena page.
- `stopSimulation` keeps teams and bids and only halts and rewinds the clock. So a `flagged` status survives a stop and is cleared only by the next start.
- The code keeps no viewer count. Log lines are written only by the per-team update; there is no separate system-log loop.

## Model

| member | source | states |
|---|---|---|
| Simulation.InitialTeams | src/context/SimulationContext.tsx:35-41 | The five teams alpha, beta, gamma, delta and epsilon, in that order, with their names, constant ten-sample windows, scores, `active` status and no logs. It has no contract; `InitialRosterOk` states its properties. |
| Simulation.InitialRosterOk | src/context/SimulationContext.tsx:35-41 | The initial roster satisfies the roster invariant: ten-sample non-negative windows, scores 80/75/85/60/70 within [0,100]. Every team starts with empty logs and `active` status. |
| Simulation.ScriptedBoost | src/context/SimulationContext.tsx:87-126 | The if-chain of scripted lead changes, with the literal breakthrough lines. It has no contract; `ScriptedBoostFollowsSchedule` and `BoostNonNegative` state its properties. |
| Simulation.ScriptedBoostFollowsSchedule | src/context/SimulationContext.tsx:87-126 | The scripted boosts agree with a lookup in the fixed table (8 beta 15, 15 epsilon 20, 22 alpha 18, 30 gamma 22, 38 delta 25, 45 beta 15). A boost has a log line iff the table has an entry for that tick and team. With no entry, tick 52 gives the random boost to alpha, gamma and epsilon only, and every other (tick, team) gets no boost. |
| Simulation.BoostNonNegative | src/context/SimulationContext.tsx:87-126 | No scripted boost is negative when the final-showdown draw is not. |
| Simulation.IsFlagEvent | src/context/SimulationContext.tsx:132 | The policy alert fires for gamma at tick 10 and nowhere else. It has no contract; `UpdateTeam` and `UpdateTeamsKeepsRoster` state its effect. |
| Simulation.ClampScore | src/context/SimulationContext.tsx:136 | The result is always in [0,100]. It equals the input when the input is in range, and is 0 below the range and 100 above it. |
| Simulation.SlideWindow | src/context/SimulationContext.tsx:140 | The window keeps length 10. Samples 1..9 shift left unchanged. The new last sample is `max(0, old[9] + delta)`, so it is never negative. |
| Simulation.Truthy | src/context/SimulationContext.tsx:143 | `filter(Boolean)` keeps no more entries than it is given, and every kept line is a non-empty string. |
| Simulation.TruthyMembers | src/context/SimulationContext.tsx:143 | `filter(Boolean)` keeps every present, non-empty entry, and keeps nothing that is not a present entry. |
| Simulation.LastN | src/context/SimulationContext.tsx:143 | For n ≥ 1, `slice(-n)` gives `min(n, len)` elements, which are the input's last ones in order. |
| Simulation.NextLogs | src/context/SimulationContext.tsx:143 | `[...logs, newLog, boostLog, flagLog].filter(Boolean).slice(-5)`. It has no contract; `NextLogsShape` states its properties. |
| Simulation.NextLogsShape | src/context/SimulationContext.tsx:143 | A team's new log is the last 5 lines of (old log ++ the present lines among new log, boost log and flag log, in that order). Its length is at most 5. |
| Simulation.UpdateTeam | src/context/SimulationContext.tsx:71-145 | One team's update keeps its id and name, keeps the score in [0,100], the window at 10 and the log at ≤ 5 lines. It is flagged afterwards iff it was already flagged or this is gamma at tick 10. Otherwise its status is unchanged. |
| Simulation.UpdateTeamKeepsTeamOk | src/context/SimulationContext.tsx:135-144 | A tick preserves each team's invariant: a non-negative 10-sample window, a score in [0,100], and at most 5 non-empty log lines. |
| Simulation.UpdateTeamBoundedStep | src/context/SimulationContext.tsx:128-140 | The score walk is bounded. One tick lowers the score by at most 5 and raises it by less than 5 plus the scripted boost. The new velocity sample is below the newest old one plus 8, and at most 7 below it unless clamped at 0. |
| Simulation.UpdateTeams | src/context/SimulationContext.tsx:71 | The tick maps teams one-to-one. Team i's new state is its own update, from its own old state, the pre-tick time and its own draws. |
| Simulation.UpdateTeamsKeepsRoster | src/context/SimulationContext.tsx:71-145 | A tick keeps roster length, order, ids, names and every team invariant. Flagged teams stay flagged. A team becomes newly flagged only at tick 10, and only if it is gamma (index 2). |
| Simulation.MakeBid | src/context/SimulationContext.tsx:148-157 | The amount is a multiple of 1000 in [10000, 59000] and gives back its digit. The sponsor is one of the five sponsors. The target is the name of one of the five initial teams. |
| Simulation.PushBid | src/context/SimulationContext.tsx:158 | The new bid goes first. The feed is cut to `min(5, len+1)` entries, and older bids keep their relative order. |
| Simulation.NextBids | src/context/SimulationContext.tsx:147-159 | A bid is pushed when the draw fires, otherwise the feed is kept. It has no contract; `NextBidsKeepsFeed` states its properties. |
| Simulation.NextBidsKeepsFeed | src/context/SimulationContext.tsx:147-159 | The feed stays at ≤ 5 well-formed bids. With no bid it is unchanged. With a bid it becomes `[new] ++ old[..min(4, len)]`. |
| Simulation.Engine.constructor | src/context/SimulationContext.tsx:44-47 | The provider starts inactive, at time 0, with the initial roster and no bids. |
| Simulation.Engine.Start | src/context/SimulationContext.tsx:50-56 | Start sets the engine active, time 0, the initial roster and an empty feed, whatever the previous state. |
| Simulation.Engine.Stop | src/context/SimulationContext.tsx:58-61 | Stop sets the engine inactive at time 0 and leaves teams and bids unchanged. |
| Simulation.Engine.Step | src/context/SimulationContext.tsx:64-166 | A tick happens iff the engine is active with time < 60. It raises the time by exactly 1, maps the teams by `UpdateTeams` at the pre-tick time and applies the bid draw. Otherwise nothing changes except that the run is inactive afterwards. The invariant (time ≤ 60, roster, feed) is preserved. |
| Simulation.UseSimulation | src/context/SimulationContext.tsx:175-179 | The guard succeeds iff a provider is present, and then yields that context. Otherwise it fails with the guard's message. |
| Ranking.Insert | src/app/arena/page.tsx:26 | Inserting into a sorted roster keeps it sorted and grows the length by one. The head is the new team or the old head. |
| Ranking.InsertPermutes | src/app/arena/page.tsx:26 | Inserting adds exactly that team and loses none (multiset). |
| Ranking.SortByScore | src/app/arena/page.tsx:26 | The result is a permutation of the input (same multiset, same length) sorted by non-increasing score. |
| Ranking.WithScore | src/app/arena/page.tsx:26 | The teams with one given score, in order: every one of them has that score, and there are no more of them than teams. |
| Ranking.InsertStable | src/app/arena/page.tsx:26 | Inserting a team puts it before every team with its score and keeps the order of the others with that score. |
| Ranking.SortStable | src/app/arena/page.tsx:26 | The sort is stable: for every score, the teams with that score come out in roster order. |
| Ranking.HeadIsBest | src/app/arena/page.tsx:26 | The first team after sorting is on the roster and scores at least as much as every team. |
| Ranking.FirstBest | src/app/arena/page.tsx:26 | The reference definition of the stable winner: an index on the roster whose score is ≥ every team's, with every earlier team scoring strictly less. |
| Ranking.SortHeadIsFirstBest | src/app/arena/page.tsx:26 | The first team after sorting is the first team in roster order with the top score. This is the stable-sort guarantee. |
| Arena.DecimalString | src/app/arena/page.tsx:85 | `toString` of a non-negative integer gives at least one character, all decimal digits, and exactly one digit iff the number is < 10. It starts with '0' iff the number is 0, so there is never a leading zero. |
| Arena.DecimalRoundTrip | src/app/arena/page.tsx:85 | Reading the decimal digits back gives the number. |
| Arena.PadTwo | src/app/arena/page.tsx:85 | `padStart(2, '0')` for the strings the clock pads. It has no contract; `PadTwoShape` states its properties. |
| Arena.PadTwoShape | src/app/arena/page.tsx:85 | `padStart(2,'0')` gives length `max(2, len)`, the original string as suffix and only '0' before it. |
| Arena.SplitTime | src/app/arena/page.tsx:82-84 | The split satisfies `h*3600 + m*60 + s == seconds` with `m < 60` and `s < 60`. Below 360000 seconds the hours are below 100. |
| Arena.Field | src/app/arena/page.tsx:85 | A clock field has at least two digits, denotes its number, and is exactly two digits for numbers < 100. |
| Arena.Clock | src/app/arena/page.tsx:85 | Joining three fields gives a clock text with colons at the field boundaries. It is exactly 8 characters long when the hours are below 100. |
| Arena.ClockRoundTrip | src/app/arena/page.tsx:85 | Parsing the clock text of hours, minutes (< 60) and seconds (< 60) gives `h*3600 + m*60 + s`. |
| Arena.FormatTime | src/app/arena/page.tsx:81-86 | The clock text has colons at the field boundaries, is at least 8 characters long, and is exactly 8 below 100 hours. |
| Arena.FormatTimeRoundTrip | src/app/arena/page.tsx:81-86 | Parsing the displayed `HH:MM:SS` gives back exactly the seconds it was made from. |
| Arena.Winner | src/app/arena/page.tsx:26 | The winner exists iff the roster is non-empty. It is a roster member whose score is ≥ every team's. |
| Arena.WinnerIsFirstBest | src/app/arena/page.tsx:26 | The winner is the team at `Ranking.FirstBest`: on a tie for the top score, the one listed first. |
| Arena.GameOverShown | src/app/arena/page.tsx:102 | The overlay shows iff `gameTime >= 60` and the roster is non-empty. |
| Arena.ActiveAlert | src/app/arena/page.tsx:295 | The governance alert is on iff some team is flagged. |
| Arena.FlatLogs | src/app/arena/page.tsx:52 | `teams.flatMap(t => t.logs)`: every team's logs, in roster order. It has no contract; `FlatLogsLength` and `DerivedLogs` state its properties. |
| Arena.FlatLogsLength | src/app/arena/page.tsx:52 | With ≤ 5 lines per team, the merged log has at most 5 lines per team. |
| Arena.Reversed | src/app/arena/page.tsx:52 | `reverse` keeps the length, and element i is the input's element `len-1-i`. |
| Arena.DerivedLogs | src/app/arena/page.tsx:52 | The log panel has `min(10, total)` lines. Line i is the i-th newest of the concatenation of all teams' logs in roster order. |
| Arena.PointValues | src/app/arena/page.tsx:58 | A chart point has exactly one key per team id. |
| Arena.VelocityData | src/app/arena/page.tsx:56-60 | The series has exactly 10 points. Point i has time i and one value per team id. |
| Arena.PointValuesOf | src/app/arena/page.tsx:58 | With distinct ids, point i maps each team's id to that team's i-th sample. A missing sample is undefined. |
| Arena.RosterIdsDistinct | src/context/SimulationContext.tsx:35-41 | The engine's roster never repeats an id. |
| Arena.VelocityDataOfRoster | src/app/arena/page.tsx:56-60 | On the engine's roster, point i maps each team's id to `velocity[i]`. |
| Arena.ArenaClock.constructor | src/app/arena/page.tsx:22-23 | The countdown starts at 7200 and the camera at feed 2. |
| Arena.ArenaClock.CountDown | src/app/arena/page.tsx:76 | The countdown drops by 1 when positive and stays at 0 otherwise. It never goes negative, and the camera is left alone. |
| Arena.ArenaClock.CycleCamera | src/app/arena/page.tsx:37 | The camera becomes `(prev+1) % 5` and stays in [0,5). |
| Arena.ArenaClock.Focus | src/app/arena/page.tsx:197 | Clicking a feed focuses that feed index. |
| Arena.ArenaClock.Display | src/app/arena/page.tsx:142 | The header clock is `formatTime(timeLeft)`. It is 8 characters long and parses back to `timeLeft`. |
| SolarSystem.RankedTeams | src/components/SolarSystem3D.tsx:20-23 | The ranking is empty for an empty roster. Otherwise it is a permutation of the roster sorted by non-increasing score. Teams with equal scores keep their roster order, so of two tied teams the one listed first gets the lower rank. |
| SolarSystem.OrbitRadius | src/components/SolarSystem3D.tsx:60 | The lane `baseOrbitRadii[rank]`, or 175 past the last lane. It has no contract; `OrbitRadiusMonotone` states its properties. |
| SolarSystem.OrbitRadiusMonotone | src/components/SolarSystem3D.tsx:60 | The orbit radius is non-decreasing in rank, within [55,175], strictly increasing over ranks 0..4, and 175 from rank 4 on. |
| SolarSystem.Sum | src/components/SolarSystem3D.tsx:64 | The sum of a non-negative window is non-negative. |
| SolarSystem.Mean | src/components/SolarSystem3D.tsx:64 | The average of the velocity window. It has no contract; `OrbitDuration` and `OrbitDurationMonotone` state what depends on it. |
| SolarSystem.OrbitDuration | src/components/SolarSystem3D.tsx:64-65 | The orbit duration is always ≥ 4, and ≤ 20 when every sample is ≥ 0. |
| SolarSystem.OrbitDurationMonotone | src/components/SolarSystem3D.tsx:63-65 | A higher average velocity never gives a slower orbit. From an average of 160 the duration is 4. |
| SolarSystem.PlanetSize | src/components/SolarSystem3D.tsx:68 | The planet size is at most 18. |
| SolarSystem.PlanetSizeDecreasing | src/components/SolarSystem3D.tsx:68 | The planet size strictly decreases with rank, by 2 per rank. |
| SolarSystem.GlowIntensity | src/components/SolarSystem3D.tsx:71 | The glow always lies in [10,30], and is `score/3` for scores in [30,90]. |
| SolarSystem.GlowMonotone | src/components/SolarSystem3D.tsx:71 | The glow is non-decreasing in score. |
| SolarSystem.SpinsReversed | src/components/SolarSystem3D.tsx:83 | Odd ranks spin the other way. It has no contract; `NeighboursSpinOpposite` states its property. |
| SolarSystem.NeighboursSpinOpposite | src/components/SolarSystem3D.tsx:83 | Adjacent ranks spin in opposite directions. |
| SolarSystem.Layout | src/components/SolarSystem3D.tsx:59-71 | There is one planet per team, and planet k is the rank-k team of the ranking. |
| SolarSystem.HigherScoreInnerOrbit | src/components/SolarSystem3D.tsx:19-23 | A planet whose team outscores another's is on an orbit no further out, and is larger. |
| SolarSystem.RosterLanes | src/components/SolarSystem3D.tsx:14 | On the five-team roster, each planet's orbit is strictly inside the next one's. |
| Launch.Launcher.constructor | src/app/page.tsx:20-21 | On mount there is no countdown and no launch has happened. |
| Launch.Launcher.EnterSystem | src/app/page.tsx:25-28 | Once launched, entering is a no-op. Before launch it (re)sets the countdown to 3. |
| Launch.Launcher.Step | src/app/page.tsx:30-39 | A launch happens iff the count is at 0 and the page has not launched. The launch sets `hasLaunched`, makes it the only launch, and starts the engine. A positive count drops by exactly 1 and never goes negative. Otherwise nothing changes. |
| Launch.LaunchSequence | src/app/page.tsx:25-39 | After entering, the fourth step launches. Entering and stepping again do not launch a second time. |

## Left out

- Timer scheduling, effect re-subscription and cancellation (`setInterval`, `setTimeout`, `clearInterval`) are event-loop concurrency. Each tick or countdown step is an explicit method call (`Engine.Step`, `ArenaClock.CountDown`, `ArenaClock.CycleCamera`, `Launcher.Step`).
- The distribution of `Math.random()` is not modelled. Every draw is a parameter constrained to its range.
- The text of the six synthetic per-team log lines (random pod ids, `toFixed` latencies) is not modelled. Each tick's synthetic line is an opaque optional string. The boost lines and the alert line are given literally.
- Bid ids (random base-36) and timestamps (`toLocaleTimeString`) are opaque strings. `Intl.NumberFormat` currency display is left out.
- `router.push` navigation in `startSimulation` and in the arena's return-to-hub handler is an external side effect and is left out. The return-to-hub call of `stopSimulation` is `Engine.Stop`.
- JavaScript floating point is modelled as exact `real` arithmetic, so rounding is not modelled.
- Simulation.UpdateTeam: requires a ten-sample window, because the source reads `velocity[9]` and every window the engine holds has ten samples.
- Arena.FormatTime: takes only non-negative seconds, because its one caller passes `timeLeft`, which never goes below 0.
- SolarSystem.OrbitDuration: requires a non-empty window, because the source would compute `NaN` for an empty one and the engine's windows always hold ten samples.
- Arena.VelocityData: keeps the point's `time` apart from the team values. In the source a team whose id were `time` would overwrite it, but no roster id is `time`.
- The radar-chart data, the team asset table, the bottom ticker and all JSX, framer-motion and recharts rendering are presentation.
- The WebGL backgrounds, the matrix rain, the governance graph, the about page, the editor page, the layout's provider wiring and the console greeting are outside this model.
