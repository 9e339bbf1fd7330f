# Hammurabi simulation kernel in Dafny

This project models the kernel of a terminal Hammurabi game. Over the years of a reign, the player buys and sells land at a price that changes every year. They plant acres and feed the people. After each feeding, a fixed pipeline of yearly events runs: harvest, a chance of rats, immigration, and a chance of plague. The game ends when the years run out, when everyone is dead, or when too many people starve in one year. A final score then rates the reign.

The model has two layers:

- Value-level modules specify every operation as a function on a `Kingdom` record.
  - `State` covers the record, the random stream, `new`, `advance_year` and the queries.
  - `Actions` covers the four player actions.
  - `Events` covers the year pipeline.
  - `Scoring` covers the final evaluation.
- `Game.GameState` is a class with the same fields, updated in place as the Rust methods do.
  - Each method is proved to leave exactly the record that its specification function gives for the old record.
- `Application.App` is the Enter-key driver.
  - It holds the typed line, the status message, the event panel and the quit flag.
  - The key handlers (`HandleInput`, `HandleBackspace`, `HandleEnter`) and the per-screen methods that Enter dispatches to keep the invariant `Valid()` (see `Steady`).
  - Each of these states its whole effect in terms of the value-level functions. The effect of Enter on the trading, planting and feeding screens is written once, as the two-state predicates `LandEntryDone`, `PlantingDone` and `FeedingDone`, and both `HandleEnter` and the method it dispatches to promise it.
  - The helpers `ProcessYearEnd`, `ListOutcomes` and `CalculateFinalScore` are called in the middle of a step, so they state their effect but not `Valid()`; `ProcessYearEnd` promises that the kingdom it leaves is steady.

Randomness is the game's own stream, modelled as an infinite supply of raw draws (`Rng.source`, fixed by the seed) and a count of draws consumed. Each `gen_range` consumes one draw and maps it into its inclusive range. This makes the order and range of every draw a provable fact.

The messages shown to the player become tags: `Events.Outcome`, `Notice` and `Line`. Each tag carries exactly the numbers its message is built from.

## Model

| member | source | states |
|---|---|---|
| State.Rng.GenRange | src/game/state.rs:66 | a `gen_range` yields a value in its inclusive range and consumes exactly one draw of the same stream |
| State.NewGame | src/game/state.rs:36-62 | a new game is in year 1 with 100 people, 2800 bushels, 1000 acres, yield 3, phase Splash and every other counter 0; the price is the stream's first draw, in [17, 26], and one draw has been consumed |
| State.AdvanceYear | src/game/state.rs:64-77 | the year goes up by one and the phase becomes LandTransaction; the new price is the next draw, in [17, 26]; the seven per-year counters are zero; population, grain, land, total deaths and the mode are unchanged |
| State.MaxPlantableAcres | src/game/state.rs:79-85 | the result is at most 10 per person, at most the grain and at most the land, and it equals one of those three limits |
| State.GrainNeededForFeeding | src/game/state.rs:87-89 | the result is exactly 20 bushels for each person |
| State.IsGameOver | src/game/state.rs:91-107 | an empty kingdom, or a year past 10 outside unlimited mode, always ends the game; in a year without starvation nothing else does |
| State.GameOverWithoutDivision | src/game/state.rs:91-107 | the game is over iff the year cap is passed outside unlimited mode, or nobody is left, or those who starved this year make up at least 46% of the people left after the year's events plus those who starved (a plague after the feeding shrinks that sum); the division is only reached with a positive divisor |
| State.UnlimitedIgnoresYear | src/game/state.rs:92 | in unlimited mode, changing the year never changes whether the game is over |
| State.TenthYearIsNotTheLast | src/game/state.rs:92 | a healthy kingdom in year 10 is not over; advancing it starts year 11, and outside unlimited mode that year ends the game |
| Actions.Buy | src/game/actions.rs:29-42 | the result is Success or InsufficientGrain; it is InsufficientGrain iff the cost exceeds the grain, and then nothing changes; on success grain drops by the cost and land grows by the acres; nothing else changes |
| Actions.Sell | src/game/actions.rs:44-56 | the result is Success or InsufficientLand; it is InsufficientLand iff more acres are offered than owned, and then nothing changes; on success land drops by the acres and grain grows by acres times price; nothing else changes |
| Actions.Plant | src/game/actions.rs:58-79 | planting 0 succeeds and only resets the planted acres; otherwise land, grain and workers are checked in that order, each refusal holding exactly when the earlier checks pass and its own fails; a refusal changes nothing; success plants the acres (at most the land) and spends one bushel each |
| Actions.Feed | src/game/actions.rs:81-98 | the result is InsufficientGrain iff more is handed out than held, and then nothing changes; on success grain drops by exactly the bushels; survivors plus starved equal the old population; starved are added to total deaths; starvation happens iff bushels / 20 is below the population, and then the survivors are bushels / 20 |
| Actions.Execute | src/game/actions.rs:20-27 | a rejection changes nothing; total deaths never decrease; each action fails only in its own ways; only feeding changes the population; price, year, stream and phase are unchanged |
| Actions.BuyThenSellRestores | src/game/actions.rs:29-56 | selling back what was just bought restores the kingdom exactly |
| Actions.SellThenBuyRestores | src/game/actions.rs:29-56 | buying back what was just sold restores the kingdom exactly |
| Actions.LandTradeKeepsWorth | src/game/actions.rs:29-56 | a land trade, accepted or not, keeps grain plus land times price |
| Actions.PlantWithinMaxSucceeds | src/game/actions.rs:58-79 | a positive planting succeeds iff it is at most `max_plantable_acres` |
| Actions.FeedingTheNeededGrainAvoidsStarvation | src/game/actions.rs:81-98 | feeding what one holds succeeds, and nobody starves iff at least `grain_needed_for_feeding` is handed out |
| Actions.FeedingKeepsSomeoneOrStarvation | src/game/actions.rs:88-95 | after an accepted feeding of a kingdom with people, either somebody starved or the population is unchanged and positive, so the immigration divisor is never zero |
| Events.ProcessHarvest | src/game/events.rs:33-39 | the yield is the next draw, in [1, 5]; the harvest is planted acres times yield; grain grows by exactly the harvest; one draw is consumed; the outcome reports yield and harvest |
| Events.ProcessRats | src/game/events.rs:41-47 | the rats eat grain times the next draw (in [10, 30]) / 100, which lies between 10% and 30% of the grain and never exceeds it; grain drops by exactly that amount |
| Events.ProcessImmigration | src/game/events.rs:58-69 | with starvation nobody arrives and nothing else changes; otherwise between 1 and 50 arrive, pinned by bounds without division to one more than (20 * land + grain) / (100 * population), capped at 50, and join the population |
| Events.ProcessPlague | src/game/events.rs:49-56 | half the people (rounded down) die and are added to total deaths; a kingdom with people keeps at least one |
| Events.HarvestAndRats | src/game/events.rs:10-18 | the yield is the first draw and the harvest is planted acres times yield; the rats eat their share of the grain after harvest, with the third draw, iff the second draw is under 40, and otherwise grain only grows by the harvest; the reports are harvest and then rats when they strike; only yield, harvest, grain, rats' share and stream change |
| Events.ImmigrationAndPlague | src/game/events.rs:20-28 | immigration reports first, NoImmigration iff somebody starved; the plague strikes iff the chance draw after immigration is under 15 and then reports second; population and total deaths are accounted exactly; without starvation 1 to 50 people arrive, one more than (20 × land + grain) per 100 bushels a head; a plague kills half the people after immigration, rounded down, and without one the plague count is unchanged; a kingdom with people keeps people; only arrivals, population, deaths and stream change |
| Events.ProcessYearEvents | src/game/events.rs:7-31 | the draws come in order (yield, rats chance, damage only if rats strike, plague chance); the reports are harvest, rats when they strike, immigration, plague when it strikes, so 2 to 4 of them; grain and population are accounted exactly; a plague kills half the people after immigration, rounded down, and without one the plague count is unchanged; nobody arrives iff somebody starved, and otherwise 1 to 50 people arrive, one more than (20 × land + the grain left after the rats) per 100 bushels a head; a kingdom with people keeps people; land, planting, price, year, phase and mode are unchanged |
| Scoring.Rate | src/game/scoring.rs:34-44 | the rating is Terrible iff the death rate exceeds 33 or land per person is below 7, and Excellent iff the death rate is at most 3 and land per person at least 12 |
| Scoring.EvaluatePerformance | src/game/scoring.rs:20-53 | the death rate is deaths per ten times the starting population, in percent; land per person is land / survivors, or 0 with a Terrible rating when nobody survived; growth is the signed change in population; total deaths are carried through; the rating is the cascade on these numbers |
| Scoring.RatingMessageOf | src/game/scoring.rs:55-68 | Terrible and Poor each have their own message; Fair, Good and Excellent share a third |
| Scoring.DeathRateAbove | src/game/scoring.rs:26 | the death rate exceeds t iff ten times the deaths exceed t times the starting population |
| Scoring.AcresBelow | src/game/scoring.rs:27-31 | land per person is below t iff the land is below t times the survivors |
| Scoring.RatingAgreesWithCounts | src/game/scoring.rs:34-44 | the rating on reals equals the same cascade stated on whole numbers |
| Scoring.PoorReignExample | src/game/scoring.rs:34-39 | 20 deaths from 100 with 105 people on 900 acres give a 2% death rate, growth of 5 and a Poor rating |
| Game.GameState.constructor | src/game/state.rs:36-62 | the new record is `NewGame` of the seeded stream |
| Game.GameState.GenRange | src/game/state.rs:66 | the owned stream yields its next value in range and only the stream changes |
| Game.GameState.AdvanceYear | src/game/state.rs:64-77 | the record becomes `AdvanceYear` of the old record |
| Game.GameState.ExecuteAction | src/game/actions.rs:20-27 | the record and result are `Execute` of the old record, which for each kind of action is its own handler's function (`Buy`, `Sell`, `Plant` or `Feed`) |
| Game.GameState.BuyLand | src/game/actions.rs:29-42 | the record and result are `Buy` of the old record |
| Game.GameState.SellLand | src/game/actions.rs:44-56 | the record and result are `Sell` of the old record |
| Game.GameState.PlantAcres | src/game/actions.rs:58-79 | the record and result are `Plant` of the old record |
| Game.GameState.FeedPopulation | src/game/actions.rs:81-98 | the record and result are `Feed` of the old record |
| Game.GameState.ProcessYearEvents | src/game/events.rs:7-31 | the record and the collected reports are `ProcessYearEvents` of the old record |
| Game.GameState.ProcessHarvest | src/game/events.rs:33-39 | the record and report are `ProcessHarvest` of the old record |
| Game.GameState.ProcessRats | src/game/events.rs:41-47 | the record and report are `ProcessRats` of the old record |
| Game.GameState.ProcessPlague | src/game/events.rs:49-56 | the record and report are `ProcessPlague` of the old record |
| Game.GameState.ProcessImmigration | src/game/events.rs:58-69 | the record and report are `ProcessImmigration` of the old record |
| Application.ParseU32 | src/app.rs:83 | a line parses as unsigned iff it is one or more digits with value at most 4294967295, and then to that value |
| Application.ParseI32 | src/app.rs:52 | a parsed value is in the 32-bit signed range; a negative one needs a leading '-'; the empty line and a lone '-' do not parse; a digits-only line parses iff its value is at most 2147483647; a line with a leading '-' parses iff the rest is one or more digits of value at most 2147483648, and then to minus that value; a '-' anywhere else rejects the line |
| Application.ParseU32RoundTrip | src/app.rs:83 | every unsigned amount in range, typed in decimal, parses back to itself |
| Application.ParseI32RoundTrip | src/app.rs:52 | every signed amount in range, typed in decimal with '-' when negative, parses back to itself |
| Application.LandAction | src/app.rs:53-61 | zero issues no action; a positive amount buys exactly that many acres and a negative one sells its magnitude |
| Application.LandEntryMovesLandByAmount | src/app.rs:52-68 | an accepted land entry changes the land by exactly the signed amount typed, and the grain by that amount at the current price the other way |
| Application.EventLines | src/app.rs:123-127 | one panel line per event report, in the same order |
| Application.FinalVerdictFromCounts | src/app.rs:146-161 | the closing verdict praises the reign iff at most 200 died and people remain with at least 9 acres each |
| Application.CloseYear | src/app.rs:120-139 | the kingdom is the one `process_year_events` leaves, in phase GameOver iff `is_game_over` holds of it and YearEnd otherwise; the panel holds the final report on GameOver and one line per report of the year's events on YearEnd; total deaths never decrease; a record whose price is in range and whose planting fits its land comes out satisfying the driver's invariant |
| Application.NewGameIsSteady | src/app.rs:13-21 | a new game satisfies the driver's invariant |
| Application.LandTradeKeepsSteady | src/app.rs:51-80 | a land trade, and moving on to planting, keep the invariant |
| Application.PlantingKeepsSteady | src/app.rs:82-102 | a refused planting keeps the invariant, and an accepted one keeps it once the phase moves on to feeding |
| Application.FeedingKeepsSteady | src/app.rs:104-139 | after an accepted feeding somebody starved or people remain, so the year's events can run, and closing the year keeps the invariant |
| Application.AdvanceKeepsSteady | src/app.rs:141-144 | advancing from the year's end keeps the invariant |
| Application.App.constructor | src/app.rs:13-21 | the game is new, the line, message and panel are empty and the app is not quitting |
| Application.App.HandleInput | src/app.rs:23-34 | a digit or '-' is appended outside YearEnd and GameOver; every other key, and every key in those phases, changes nothing |
| Application.App.HandleBackspace | src/app.rs:36-38 | the last character is removed; an empty line stays empty |
| Application.App.HandleEnter | src/app.rs:40-49 | on the trading, planting and feeding screens Enter has exactly the effect `LandEntryDone`, `PlantingDone` and `FeedingDone` describe (the branches of `process_land_transaction`, `process_planting` and `process_feeding`); YearEnd advances the year and empties the panel, keeping line and message; GameOver only sets the quit flag; Splash and Instructions change nothing; the phase only moves along the edges of the year and deaths are never undone |
| Application.App.ProcessLandTransaction | src/app.rs:51-80 | an empty line or zero moves on to planting without trading; a positive amount buys and a negative one sells; success moves on and clears line and message; a refusal keeps phase and line and says which limit was hit; other unparseable lines change nothing |
| Application.App.ProcessPlanting | src/app.rs:82-102 | a parsed amount is planted; success moves on to feeding and clears line and message; each refusal keeps phase and line and names its limit; an unparseable line changes nothing |
| Application.App.ProcessFeeding | src/app.rs:104-118 | a parsed amount is fed; on success the year is closed as `CloseYear` says and line and message are cleared; a refusal keeps everything and reports missing grain; an unparseable line changes nothing |
| Application.App.ProcessYearEnd | src/app.rs:120-139 | the record and panel become those `CloseYear` gives for the old record, and a record whose price is in range and whose planting fits its land comes out steady |
| Application.App.ListOutcomes | src/app.rs:123-127 | the panel is cleared and then holds one line per report, in order; line, message and quit flag are unchanged |
| Application.App.AdvanceToNextYear | src/app.rs:141-144 | the record becomes `AdvanceYear` of the old record and the panel is emptied |
| Application.App.CalculateFinalScore | src/app.rs:146-162 | the panel holds the final report: population, land, deaths, death rate, land per person, a blank line and the verdict for a starting population of 100 |

## Left out

- The concrete `StdRng` generator and its seeding, including `from_entropy`. The seed is a parameter `source`, and each `gen_range` maps one raw draw into its range by remainder. The order and range of every draw are modelled; the distribution is not.
- Flavour text and its separate random choice. Every message is a tag carrying its numbers. The one-decimal formatting of the final report is left out as well.
- Terminal input and output, the event loop, the splash timeout and the quit keys handled outside the driver. The widgets and rendering are left out too.
- Enter on the Splash and Instructions screens: the driver has no arm for these phases, so Enter does nothing there, in the source and in the model. Nothing in the kernel's files or in the terminal loop (src/main.rs) moves the phase out of Splash after `App::new`: the loop calls a `check_splash_timeout` that none of them defines. So, as written, the game never leaves Splash, in the source and in the model alike; the year screens are modelled for a record that is already past it.
- `App::new` calls `GameState::new` with one argument, but `GameState::new` takes a seed and the mode. `Application.App.constructor` takes both, as `GameState::new` does.
- The driver calls `process_year_events` with no template argument and reads a `description` field, but the game module takes the templates and returns strings. The model follows the game module: it returns reports, and each report becomes one panel line.
- `save_year_summary` does nothing and is not modelled.
- 32-bit overflow: every counter is an unbounded integer, so no `u32` overflow of the source is modelled. This covers acres times price in Buy, grain plus proceeds in Sell, `population * 10` in MaxPlantableAcres and Plant, `population * 20` in GrainNeededForFeeding, `deaths_starvation * 100` in IsGameOver, grain plus harvest in ProcessHarvest, grain times the damage percent in ProcessRats and `20 * land` in ProcessImmigration. In Buy one 9-digit entry reaches it: the land screen accepts any amount up to 2147483647, and from 252645136 acres (165191050 at a price of 26) `acres * land_price` passes `u32::MAX`; the source then panics in a debug build, and in a release build the cost wraps (252645136 acres at 17 cost 16 bushels) and the purchase goes through, where the model refuses with InsufficientGrain. The other sites are out of reach from the starting kingdom, since what is typed there is first checked against the kingdom's own grain, land or population, unless a wrapped purchase has already inflated the land: after one, `20 * land` in ProcessImmigration overflows in that same year's events whenever nobody starved, and selling the acres back overflows `acres * land_price` in Sell.
- ProcessImmigration: it requires somebody to have starved or somebody to be left; without that, the source divides by zero. `FeedingKeepsSteady` shows that the driver always meets this requirement.
- ProcessLandTransaction: negating the smallest 32-bit amount overflows in the source; the model sells 2147483648 acres instead.
- ParseI32: surrounding whitespace is not trimmed, because the line can only ever hold digits and '-'. A leading '+' is also not accepted, for the same reason.
- EvaluatePerformance: requires a positive starting population. The driver always passes 100. A zero would make the source's float division produce infinity or NaN.
- EvaluatePerformance: single-precision rounding is not modelled; the rates are exact reals. `RatingAgreesWithCounts` shows that no fraction decides a rating that the whole-number counts would not.
