# PieMaker economy in Dafny

PieMaker is a console idle game: the player bakes pies with SPACE, buys
grandmas, bakeries and factories that bake pies passively, buys three one-shot
upgrades, and may trade a run of at least 1000 pies for prestige stars. The
game is won at a million pies. This project models the game's economy as
written in `Piemaker.cpp`: the state globals, the purchases, the prestige
reset, the unlock updates done while a frame is built, the passive-production
carry, the key-edge detector, and one iteration of the main loop that ties
them together. Everything is a pure function on immutable data; the
properties are proved about those functions.

Files, one module each:

- `keyboard.dfy`, module `Keyboard`: `keyPressed`, with the key table as a
  set of keys last seen down and the physical key state as an input bit.
- `accumulator.dfy`, module `Accumulator`: the `pendingPies` carry, over the
  reals.
- `economy.dfy`, module `Economy`: `GameState`, the building and upgrade
  tables, every command as a transition, the main loop's guards as a
  `Command` step, and the state invariant `Valid`.
- `screen.dfy`, module `Screen`: `buildFrame` as the unlock updates plus a
  frame described by what its lines carry (counters, building prices,
  upgrade offers, unlock notices, prestige offer).
- `game.dfy`, module `Game`: one tick of `main` (input, goal check,
  production, frame) with the source's short-circuiting key guards.

Design points that follow the code:

- `piesPerSecond` is a field, not derived from the counts. An upgrade gives
  buildings already owned +1/+2/+3 each (lines 37-39) but buildings bought
  later +1/+10/+60 (lines 140, 150, 160), so the rate depends on the order
  of purchases. `Valid` bounds the rate between the two extremes
  (`LowRate`, `HighRate`), and `UpgradeOrderMatters` shows both are reached.
- A prestige reset keeps each upgrade's bought and visible flags; it only
  clears the three building unlocks. Bought upgrades therefore keep giving
  the full bonus to buildings bought in later runs.
- The upgrade closures are replaced by one closed effect kind,
  `Boost(target, perOwned)`, applied by `ApplyEffect`.
- A key is only polled when the condition in front of it holds (the `&&`
  in lines 321-323, 327-328 and 336 short-circuits), so a key held while its
  guard is false is reported as a fresh press once the guard turns true, if
  it was up when it was last polled.
- `Piemaker.cpp` keeps the rate as a running total updated at each
  purchase, lets one SPACE press bake exactly one pie, and keeps the
  upgrades across a prestige reset; other revisions of PieMaker differ on
  these points, and the model follows `Piemaker.cpp`.

## Model

| member | source | states |
|---|---|---|
| Keyboard.KeyPressed | Piemaker.cpp:118-129 | a poll reports a press exactly when the key is down and was not down at the last poll; afterwards the table records exactly the key's current state; no other key's entry changes |
| Keyboard.PressesAreRisingEdges | Piemaker.cpp:118-129 | over any sequence of polls, the number of presses reported equals the number of up-to-down transitions of the physical key |
| Keyboard.HeldKeyReportsOnce | Piemaker.cpp:118-129 | a key held down across consecutive polls is reported on the first poll only, and only if it was up before |
| Accumulator.Accrue | Piemaker.cpp:351-356 | one production update loses and creates nothing (whole pies plus new carry equal old carry plus rate times time); the carry stays below one; on a non-negative total the pies added are its floor and never negative |
| Accumulator.AccrueKeepsCarry | Piemaker.cpp:351-356 | with a carry in [0, 1) and non-negative production, the carry stays in [0, 1) and the pies added are the floor of carry plus production |
| Accumulator.AccrueTwice | Piemaker.cpp:351-356 | two consecutive updates at one rate add the same pies and leave the same carry as one update over the combined time |
| Accumulator.AccrueAllIsOneTick | Piemaker.cpp:351-356 | any split of elapsed time into non-negative ticks at a constant rate yields exactly the pies and carry of one tick over the total time |
| Economy.Cost | Piemaker.cpp:134-162 | the price of the next building is never below 10 pies nor below the price of the first building of its kind |
| Economy.CostStrictlyIncreasing | Piemaker.cpp:134-162 | building prices are 10+2n, 50+10n and 200+50n: each next building costs a fixed step more, so prices strictly increase with the number owned |
| Economy.Bake | Piemaker.cpp:315-316 | baking adds exactly one pie and changes nothing else |
| Economy.Buy | Piemaker.cpp:134-162 | a building is bought iff pies cover its price; then pies drop by exactly the price, the count rises by one and the rate by the base rate plus the bonus iff the matching upgrade is bought; otherwise nothing changes; other counts, upgrades, stars, carry and unlocks never change |
| Economy.ApplyEffect | Piemaker.cpp:37-39 | an upgrade effect raises the rate by its per-building amount times the buildings of its kind owned now, and changes nothing else |
| Economy.BuyUpgrade | Piemaker.cpp:326-333 | an upgrade is bought only when visible, not yet bought and affordable; then its price is paid, it is marked bought and its effect applied once; otherwise nothing changes |
| Economy.BuyUpgradeIdempotent | Piemaker.cpp:326-333 | a second attempt at the same upgrade changes nothing |
| Economy.UpgradeBoughtAtMostOnce | Piemaker.cpp:326-333 | over any run of commands an upgrade is bought, and its effect applied, at most once, and never once it is already bought |
| Economy.ResetForPrestige | Piemaker.cpp:167-175 | the reset adds the star gain of the current pie count to the stars (never lowering them), zeroes pies, rate, carry and the three building counts, clears the three building unlocks, and keeps every upgrade's flags |
| Economy.UpdateUnlocks | Piemaker.cpp:216-256 | a building kind is offered iff it was or the pies reach 10, 100 or 500; an upgrade is visible iff it was, or it is not bought and the pies reach half its price; nothing else changes |
| Economy.Produce | Piemaker.cpp:351-356 | passive production never lowers the pie count, keeps pies plus carry equal to their old sum plus rate times time, and changes nothing but pies and carry |
| Economy.SharesMatchTable | Piemaker.cpp:134-162 | the per-building rate shares used by the invariant are the tables' base rates plus the retroactive effect (least) or the later-purchase bonus (greatest), and the rate bounds are the counts weighted by them |
| Economy.InitialValid | Piemaker.cpp:13-40 | the start state satisfies the invariant |
| Economy.ValidRateNonNegative | Piemaker.cpp:14 | in every valid state the rate is non-negative |
| Economy.BuyKeepsRateInBounds | Piemaker.cpp:134-162 | a building purchase keeps the rate between its least and greatest value for the owned buildings |
| Economy.BuyPreservesValid | Piemaker.cpp:134-162 | a building purchase keeps the state valid; in particular pies stay non-negative |
| Economy.BuyUpgradePreservesValid | Piemaker.cpp:326-333 | an upgrade purchase keeps the state valid |
| Economy.Step | Piemaker.cpp:315-356 | the main loop's guards: buying a building that is not offered and a reset below 1000 pies change nothing; only a reset changes the stars, and it never lowers them |
| Economy.StepPreservesValid | Piemaker.cpp:315-356 | every command of the main loop keeps the state valid |
| Economy.RunPreservesValid | Piemaker.cpp:313-374 | any sequence of commands from a valid state leaves pies non-negative and the state valid |
| Economy.StepMonotone | Piemaker.cpp:315-356 | no command lowers the stars or un-buys or hides an upgrade; every command but a prestige reset keeps the rate from decreasing and keeps building unlocks |
| Economy.UpgradeOrderMatters | Piemaker.cpp:144-152 | with the same bakery and upgrade, buying the bakery before "Industrial Wheat" yields a rate of 7, buying it after yields 15 |
| Economy.RunBakes | Piemaker.cpp:315-316 | baking n times adds exactly n pies and changes nothing else |
| Economy.ExampleSession | Piemaker.cpp:313-356 | from the start, 15 bakes give 15 pies; a frame and a grandma purchase leave 5 pies, one grandma and a rate of 1; five seconds later there are 10 pies |
| Screen.Render | Piemaker.cpp:212-267 | a frame first performs the unlock updates; a notice appears exactly in the frame where its building unlocks; a building line appears exactly while offered; an upgrade line exactly while visible and not bought; each line shows its building, count and next price or its upgrade's name and price; the prestige offer exactly at 1000 pies or more |
| Screen.ShownCostIsCharged | Piemaker.cpp:238-248 | a building line shows its building, the number owned and the next price; that price is exactly what buying the building then charges, and with fewer pies the purchase changes nothing |
| Screen.ShownUpgradeCostIsCharged | Piemaker.cpp:252-260 | an upgrade line shows the upgrade's name and price; that price is exactly what buying the upgrade then charges, and with fewer pies the purchase changes nothing |
| Screen.PrestigeOfferIsGranted | Piemaker.cpp:264-267 | the stars offered on screen are exactly the stars a prestige reset of the frame's state adds |
| Game.OfferHoldsNextTick | Piemaker.cpp:315-338 | in a tick whose only key down is R, the reset fires iff R was up at its last poll, and then adds exactly the stars the last frame offered |
| Game.Guarded | Piemaker.cpp:321-338 | a guarded key is polled only when its guard holds; the command runs exactly on a fresh press with the guard true; otherwise the game state is unchanged; a polled key's table entry then holds its physical state and an unpolled key's table is untouched |
| Game.InputBeforePrestige | Piemaker.cpp:315-333 | the bake, building and upgrade inputs keep the stars and do not poll R, so R's entry in the key table is still that of the previous tick |
| Game.Input | Piemaker.cpp:315-338 | without a reset the input phase keeps the stars; a reset clears the pies and adds the star gain of the pie count left by the bake and purchases |
| Game.Tick | Piemaker.cpp:313-374 | the loop stops only with at least a million pies; a frame shows the pies, rate and stars of the state the loop goes on with; the key table is the one left by the input phase |
| Game.InputBeforePrestigeAdvances | Piemaker.cpp:315-333 | the bake, building and upgrade inputs of a tick keep the state valid, never lower the rate, stars or unlocks, never un-buy or hide an upgrade |
| Game.InputKeeps | Piemaker.cpp:315-338 | the whole input phase keeps the state valid and the upgrades; without a prestige reset it also never lowers the rate or unlocks |
| Game.ProduceAndRenderAdvance | Piemaker.cpp:351-371 | production followed by frame building keeps the state valid and never lowers the rate, stars or unlocks |
| Game.TickPreserves | Piemaker.cpp:313-374 | every tick keeps the state valid, never lowers the stars, never un-buys or hides an upgrade, and unless it performs a prestige reset never lowers the rate or withdraws an unlock |
| Game.ResetOnlyAtGate | Piemaker.cpp:336-338 | a tick performs a prestige reset only with at least 1000 pies and a fresh press of R, and otherwise leaves the state of the input phase untouched |
| Game.CelebratesAtGoal | Piemaker.cpp:340-344 | the loop stops exactly when the input of a tick leaves at least a million pies |
| Game.SpaceBakesOnEdge | Piemaker.cpp:315-319 | a fresh SPACE press bakes exactly one pie, otherwise the bake step changes nothing; after the input phase the key table holds SPACE's physical state |
| Game.StartValid | Piemaker.cpp:13-40 | the game starts from a valid state with no pies, no stars and an empty key table |
| Game.TickUnlocks | Piemaker.cpp:216-256 | after a tick that goes on, every building whose threshold the pies reach is offered and every unbought upgrade whose half price they reach is visible |

## Left out

- Console output: `hideCursor`, `setCursorPos`, `renderFrame`, `lockConsoleSize`, `showCelebration` and the `system("cls")`/`_getch` calls write text or wait for a key and have no effect on the game state beyond ending the loop, which `Game.Tick` models as `Celebrating`.
- Text of the frame: the ASCII-art pies, the exact strings of `screenBuffer` and the padding to 80 columns are cosmetic; a frame is modelled by the values its lines show.
- Animation state (`showPressedPie`, `pieAnimTimer`, `idleFrame`, `idleTimer`): it only selects which pie picture is drawn.
- `GetAsyncKeyState`: the physical key state is an input. A tick takes one snapshot `down` of the keys held; the source samples each key at the moment it is polled, a few microseconds apart.
- Wall-clock timing (`steady_clock`, `Sleep`): the elapsed time is an input of type `Seconds`, a non-negative real.
- Economy.ResetForPrestige: the star gain `sqrt(totalPies / 1000.0f)` is a parameter `curve` that is only known to be non-negative, because square roots and float rounding are outside the model.
- Accumulator.Accrue: works over exact reals rather than single-precision floats, so float rounding of `pendingPies` and of `piesPerSecond * deltaTime` is not modelled.
- 32-bit `int` overflow: pies, rate and counts are unbounded integers; the goal check stops the game at a million pies, long before overflow, except for a production step over an extreme elapsed time, which is not modelled.
- Screen.PrestigeOfferIsGranted: the offer is the gain of the frame's pie count; a reset in the next tick grants the gain of the count after that tick's bake and purchases, which can differ. `Game.OfferHoldsNextTick` covers the tick in which R is the only key down.
