# Idle clicker progression engine, in Dafny

This project models the progression engine of a browser idle/clicker game. A
player accrues resources by clicking and from generators that pay out on
every timer tick, and buys generator levels at a cost that grows by 15% per
purchase. The engine exists in two variants. Each is a React component holding
three pieces of state: resource balances, generators (each with a `level` and
a `cost`) and stats. Each reacts to three events:

- **tick**: every resource grows by the level of its own generator;
- **purchase** (`upgradeGenerator`): all or nothing. With `coins >= cost`
  it pays the pre-purchase cost, raises the level by one and sets the cost
  to `floor(cost * 1.15)`. Otherwise nothing changes;
- **click** (`handleClick`): one coin and one click. It can also add a
  random bonus drop of 1..10 units of one resource from a drop pool.

Modules:

- `Economy` (economy.dfy): the shared cost step `NextCost` and the price
  schedule `CostAt` with their properties. It also holds the click's random
  draws as an explicit input `Roll(triggered, pick, amount)`, whose ranges
  are stated by `Fits`, and the as-written double-precision cost step used
  in the finding below.
- `App` (app.dfy): the three-resource variant of `src/App.tsx`. It has
  coins/energy/data, generators at level 1 costing 10/20/30, and the stats
  `totalResources` and `generatorsOwned`. Bonus drops go to energy or data,
  never to coins.
- `ClickerGameDashboard` (dashboard.dfy): the six-resource variant of
  `src/components/ClickerGameDashboard.tsx`. It has coins/wood/food/
  knowledge/iron/rock, miners at level 0 costing 10/20/30/30/30/30, and the
  stats `level` and `totalClicks`. Bonus drops can hit any of the six,
  coins included.

Each variant has the same shape:

- the pure record-to-record transitions `Tick`, `Upgrade` and `Click`;
- an `Invariant` that holds in every reachable state;
- lemmas showing that each event, and any sequence of events (`Run`),
  preserves the invariant;
- a class `Engine` with the component's three state fields. Its handlers
  `OnTick`, `UpgradeGenerator` and `HandleClick` update the fields one
  setter call at a time, as the component does. Each handler is proved to
  produce exactly the pure transition's result and to keep the invariant.

The six-resource component imports its state types from `src/types.ts`, but
that file declares the three-resource shape. The model takes each variant's
shape from the state literals inside the component.

The specification of the system also describes click-yield upgrades,
auto-clickers, cubic and doubly-exponential cost formulas rounded up,
persistence and schema migration. None of them appears in the two
components, so the model follows the code and leaves them out.

## Model

| member | source | states |
|---|---|---|
| `Economy.NextCost` | src/App.tsx:234 | the new cost r is floor(c * 1.15): r * 100 <= c * 115 < r * 100 + 100 |
| `Economy.NextCostBounds` | src/components/ClickerGameDashboard.tsx:97 | the step never lowers a cost and never raises it by more than 15%; it strictly raises every cost >= 7, so every initial cost (10/20/30) |
| `Economy.NextCostFixedPoints` | src/App.tsx:234 | a cost stays the same after a purchase if and only if it is below 7 |
| `Economy.NextCostMonotone` | src/components/ClickerGameDashboard.tsx:97 | a dearer generator stays at least as dear after one purchase each |
| `Economy.CostAtGrows` | src/App.tsx:226-240 | from a starting cost >= 7, the cost after k purchases is at least base + k |
| `Economy.CostAtMonotone` | src/components/ClickerGameDashboard.tsx:89-102 | the price schedule never decreases with the number of purchases |
| `Economy.CostAtStrictlyIncreasing` | src/components/ClickerGameDashboard.tsx:89-102 | from a starting cost >= 7, a later purchase always costs strictly more than an earlier one |
| `Economy.CostAtCompounding` | src/App.tsx:226-240 | after k purchases the cost is at most base * 1.15^k |
| `Economy.DoubleStepLosesACoin` | src/components/ClickerGameDashboard.tsx:97 | a base-30 generator reaches cost 220 after 15 purchases; there the double computation gives 252 and the exact step gives 253 |
| `App.AddTo` | src/App.tsx:255-258 | a drop adds n to exactly the chosen resource and leaves the other two alone |
| `App.Set` | src/App.tsx:229-236 | replacing one generator's entry keeps every other entry |
| `App.Initial` | src/App.tsx:179-208 | zero balances; every generator at level 1 with its base cost 10/20/30; generatorsOwned 3; the invariant holds |
| `App.Tick` | src/App.tsx:212-224 | each resource grows by its own generator's level (coinMiner to coins, energyPlant to energy, dataCenter to data); generators and stats unchanged |
| `App.Upgrade` | src/App.tsx:226-240 | coins below the cost: nothing changes. Otherwise: level + 1, coins minus the pre-purchase cost, cost := NextCost(cost), generatorsOwned + 1; other generators, energy, data and the other stats unchanged |
| `App.Click` | src/App.tsx:242-266 | +1 coin, +1 totalClicks, +1 totalResources, plus the drop's gain on its resource; generators unchanged |
| `App.DropHitsOneNonCoinResource` | src/App.tsx:250-258 | a fired drop adds 1..10 to exactly one resource, which is never coins; an unfired drop adds nothing |
| `App.TickPreservesInvariant` | src/App.tsx:214-218 | a tick keeps balances non-negative and the whole invariant |
| `App.UpgradePreservesInvariant` | src/App.tsx:226-240 | a purchase keeps the invariant: the guard keeps coins non-negative, the new cost follows the schedule at the new level, and generatorsOwned still equals the sum of levels |
| `App.ClickPreservesInvariant` | src/App.tsx:242-258 | a click keeps the invariant, including totalResources == totalClicks |
| `App.StepPreservesInvariant` | src/App.tsx:212-266 | each of the three events keeps the invariant |
| `App.RunPreservesInvariant` | src/App.tsx:179-266 | every sequence of ticks, purchases and clicks keeps the invariant |
| `App.ReachableStatesAreSound` | src/App.tsx:186-240 | in every reachable state all three balances are non-negative and generatorsOwned equals the sum of the three levels (3 at the start) |
| `App.OnlyPurchaseSpends` | src/App.tsx:212-258 | if an event lowers a balance, the event is a purchase and the balance is coins |
| `App.Engine.constructor` | src/App.tsx:179-208 | the component starts in the initial state, which satisfies the invariant |
| `App.Engine.OnTick` | src/App.tsx:212-224 | the interval callback produces exactly Tick of the old state and keeps the invariant |
| `App.Engine.UpgradeGenerator` | src/App.tsx:226-240 | the handler, applying its three setters in turn, produces exactly Upgrade of the old state and keeps the invariant |
| `App.Engine.HandleClick` | src/App.tsx:242-266 | the handler, applying its setters and the drop in turn, produces exactly Click of the old state and keeps the invariant |
| `ClickerGameDashboard.AddTo` | src/components/ClickerGameDashboard.tsx:117-120 | a drop adds n to exactly the chosen resource and leaves the other five alone |
| `ClickerGameDashboard.Set` | src/components/ClickerGameDashboard.tsx:92-99 | replacing one miner's entry keeps every other entry |
| `ClickerGameDashboard.Initial` | src/components/ClickerGameDashboard.tsx:23-68 | zero balances; every miner at level 0 with its base cost 10/20/30/30/30/30; the invariant holds |
| `ClickerGameDashboard.Tick` | src/components/ClickerGameDashboard.tsx:72-87 | each resource grows by its own miner's level (coinMiner to coins, knowledgeMiner to knowledge, foodMiner to food, ironMiner to iron, woodMiner to wood, rockMiner to rock); generators and stats unchanged |
| `ClickerGameDashboard.Upgrade` | src/components/ClickerGameDashboard.tsx:89-102 | coins below the cost: nothing changes. Otherwise: level + 1, coins minus the pre-purchase cost, cost := NextCost(cost); the other five miners, all non-coin resources and the stats unchanged |
| `ClickerGameDashboard.Click` | src/components/ClickerGameDashboard.tsx:104-128 | +1 coin and +1 totalClicks, stats.level unchanged, plus the drop's gain on its resource; generators unchanged |
| `ClickerGameDashboard.DropHitsExactlyOneResource` | src/components/ClickerGameDashboard.tsx:112-120 | a fired drop adds 1..10 to exactly one resource; all six resources, coins included, are in the pool; an unfired drop adds nothing |
| `ClickerGameDashboard.IdleTick` | src/components/ClickerGameDashboard.tsx:74-81 | with every miner at level 0, a tick changes nothing |
| `ClickerGameDashboard.TickPreservesInvariant` | src/components/ClickerGameDashboard.tsx:74-81 | a tick keeps balances non-negative and the whole invariant |
| `ClickerGameDashboard.UpgradePreservesInvariant` | src/components/ClickerGameDashboard.tsx:89-102 | a purchase keeps the invariant: the guard keeps coins non-negative and the new cost follows the schedule at the new level |
| `ClickerGameDashboard.ClickPreservesInvariant` | src/components/ClickerGameDashboard.tsx:104-120 | a click keeps the invariant |
| `ClickerGameDashboard.StepPreservesInvariant` | src/components/ClickerGameDashboard.tsx:72-128 | each of the three events keeps the invariant |
| `ClickerGameDashboard.RunPreservesInvariant` | src/components/ClickerGameDashboard.tsx:23-128 | every sequence of ticks, purchases and clicks keeps the invariant |
| `ClickerGameDashboard.ReachableBalancesNonNegative` | src/components/ClickerGameDashboard.tsx:89-102 | in every reachable state, coins and every other balance are non-negative, because the only decrement is the guarded purchase |
| `ClickerGameDashboard.NoPurchaseKeepsGenerators` | src/components/ClickerGameDashboard.tsx:72-128 | ticks and clicks never change the miners |
| `ClickerGameDashboard.NoIncomeBeforeFirstPurchase` | src/components/ClickerGameDashboard.tsx:23-87 | until something is bought, every miner stays at level 0, so a tick changes no balance |
| `ClickerGameDashboard.OnlyPurchaseSpends` | src/components/ClickerGameDashboard.tsx:72-128 | if an event lowers a balance, the event is a purchase and the balance is coins |
| `ClickerGameDashboard.Engine.constructor` | src/components/ClickerGameDashboard.tsx:23-68 | the component starts in the initial state, which satisfies the invariant |
| `ClickerGameDashboard.Engine.OnTick` | src/components/ClickerGameDashboard.tsx:72-87 | the interval callback produces exactly Tick of the old state and keeps the invariant |
| `ClickerGameDashboard.Engine.UpgradeGenerator` | src/components/ClickerGameDashboard.tsx:89-102 | the handler, applying its two setters in turn, produces exactly Upgrade of the old state and keeps the invariant |
| `ClickerGameDashboard.Engine.HandleClick` | src/components/ClickerGameDashboard.tsx:104-128 | the handler, applying its setters and the drop in turn, produces exactly Click of the old state and keeps the invariant |

## Left out

- Rendering, tabs, the theme and the "Resource Drop!" toast are left out. So are the presentation components (`ResourceCard`, `PersistentSidebar`, `GeneratorCard`, whose `level % 10 * 10` only sets a progress bar, and `app-sidebar`), the image assets and the build configuration. None of them changes game state.
- `setInterval`/`clearInterval` and the React effect lifecycle are left out. One tick is one call of `OnTick`.
- React's batching of state updates is not modelled. Nor are the stale closures: `upgradeGenerator` checks `resources.coins` and reads `cost` from the rendered state but deducts through `prev`. The model handles events one after another, so the two readings coincide.
- `Math.random` is left out. The drop decision (probability 0.005 in `App`, 0.1 in the dashboard), the pool index and the amount are the explicit input `Roll`. `Fits` states the ranges `Math.random` guarantees: index below the pool size, amount in 1..10.
- `App.Click`, `ClickerGameDashboard.Click`, `App.Engine.HandleClick`, `ClickerGameDashboard.Engine.HandleClick`: each requires `Fits(roll, ...)`. The random draws always meet it, so this excludes no reachable input.
- `NextCost`: the model uses the exact floor(c * 115 / 100). The source computes `Math.floor(cost * 1.15)` in IEEE-754 doubles, and at some costs that is one coin less. See Findings. `DoubleNextCost` models the double computation for the finding only.
- Balances and stats are unbounded integers. JavaScript numbers are doubles, so they lose integer precision beyond 2^53; that is not modelled.
- The generator `image` field is left out. It only chooses what is displayed.
- Persistence, save/load and schema migration are left out. So are click-yield upgrades, auto-clickers and the cubic and doubly-exponential cost formulas. None of them is in `src/App.tsx` or `src/components/ClickerGameDashboard.tsx`.
- `src/types.ts` is not part of this model. It declares types only, and they do not match the six-resource state.

## Findings

| source | as written | input that shows it | evidently intended | confidence | as-written member | corrected member |
|---|---|---|---|---|---|---|
| src/components/ClickerGameDashboard.tsx:97 | the next cost is `Math.floor(prev[type].cost * 1.15)` in doubles; 1.15 is stored slightly low, so an exact product like 220 * 1.15 = 253 rounds to just under 253 | a food, wood, iron or rock miner (base cost 30) after 15 purchases costs 220; the next cost comes out 252 | floor(220 * 1.15) = 253, the 15% step computed exactly | medium, not executed; the specification of the system calls the per-step rounding observable, so the authors may accept it | `Economy.DoubleStepLosesACoin` | `Economy.NextCost` |
| src/App.tsx:234 | the same expression in the three-resource variant | the data centre (base cost 30) after 15 purchases costs 220; the next cost comes out 252 | 253 | medium, not executed | `Economy.DoubleStepLosesACoin` | `Economy.NextCost` |
