# Power grid allocation and load shedding, in Dafny

This project models the allocation and load-shedding engine of the
PowerGridSimulator, a small C++ program. The simulator builds a grid of
busbars. Power sources (generators, transformers) and loads (homes,
factories, hospitals) are connected to the busbars.

An allocation pass resets every source. It then visits the connected loads
in priority order, Critical (1) first and Minimal (5) last. Each load is
given to the first source, in connection order, that can still take its
whole demand. A load that no source can take is shed. The grid runs this
pass bus by bus (`distributeLoadOptimally`) or over every load and source
at once (`performSystemWideLoadShedding`), then tallies its statistics.

The model has six modules:

- `PowerSources` (power_source.dfy): a source as a value (`SourceState`) and
  as a class whose methods update it in place.
- `Loads` (load.dfy): the load type and priority enums, a load as a value
  (`LoadState`), and the `Load` class.
- `Allocation` (allocation.dfy): one pass stated on values.
  - `RankOrder` is the visiting order, `FirstFit` the choice of a source,
    `Run` the pass over an order.
  - `Allocate` is the distribution pass and `Shed` the shedding pass.
  - `UnservedIds` is the shedding report.
  - This module holds the main theorems: capacity, conservation,
    maximality, priority, idempotence, and shedding after distribution.
- `Busbars` (busbar.dfy): the `Busbar` class over `Load` and `PowerSource`
  objects. Its loops are proved against `Allocate` and `Shed`.
- `Registries` and `GridStores` (registry.dfy, grid_store.dfy): the
  containers of the grid.
  - The `std::map` registries are sorted key lists plus maps.
  - A bus is a list of the ids it holds.
  - A consistency invariant is kept by every add and remove.
- `Grids` (grid.dfy): the `Grid` class and its allocation loops.
- `Scenarios` (scenario.dfy): the simulator's default scenario, evaluated.

The shedding report that the source prints is returned as a list of load
ids.

## Model

| member | source | states |
|---|---|---|
| PowerSources.SourceState.Available | src/PowerSource.cpp:19-22 | an offline source offers 0; an online one offers capacity minus draw, which is non-negative while the draw fits |
| PowerSources.SourceState.AddLoad | src/PowerSource.cpp:41-48 | when the source can supply the power, the draw grows by exactly that power; otherwise nothing changes; capacity and validity are kept |
| PowerSources.SourceState.RemoveLoad | src/PowerSource.cpp:50-55 | the draw drops by the power, clamped at 0; nothing else changes |
| PowerSources.SourceState.Reset | src/PowerSource.cpp:57-59 | the draw becomes 0, so an online source offers its full capacity |
| PowerSources.ResetIdempotent | src/PowerSource.cpp:57-59 | resetting twice is resetting once |
| PowerSources.AddLoadThenRemoveLoad | src/PowerSource.cpp:41-55 | removing what addLoad accepted restores the source |
| PowerSources.PowerSource.constructor | src/PowerSource.cpp:4-5 | a new source is online with no draw |
| PowerSources.PowerSource.SetCapacity | src/PowerSource.cpp:28-30 | only the capacity changes |
| PowerSources.PowerSource.SetOperational | src/PowerSource.cpp:32-34 | only the operational flag changes |
| PowerSources.PowerSource.AddLoad | src/PowerSource.cpp:36-48 | returns whether the source could supply the power, and in that case adds it to the draw, else changes nothing |
| PowerSources.PowerSource.RemoveLoad | src/PowerSource.cpp:50-55 | the draw drops by the power, never below 0 |
| PowerSources.PowerSource.ResetLoading | src/PowerSource.cpp:57-59 | the draw is 0 and an online source offers its whole capacity |
| Loads.LoadType.Label | src/Load.cpp:49-57 | every type has a non-empty name |
| Loads.Priority.Rank | include/Load.h:16-22 | the five priorities have the ranks 1 to 5 |
| Loads.Priority.Label | src/Load.cpp:59-68 | a priority's text is its name followed by its rank in parentheses |
| Loads.RankInjective | include/Load.h:16-22 | two priorities share a rank only when they are equal |
| Loads.TypeLabelInjective | src/Load.cpp:49-57 | distinct types have distinct names |
| Loads.PriorityLabelInjective | src/Load.cpp:59-68 | distinct priorities have distinct texts |
| Loads.Load.constructor | src/Load.cpp:4-6 | a new load is neither connected nor served |
| Loads.Load.SetPowerDemand | src/Load.cpp:32-34 | only the demand changes |
| Loads.Load.Connect | src/Load.cpp:36-38 | only the connected flag is set |
| Loads.Load.Disconnect | src/Load.cpp:40-43 | the load is neither connected nor served, so "served implies connected" holds |
| Loads.Load.SetServed | src/Load.cpp:45-47 | only the served flag changes |
| Registries.LexLessIrreflexive | include/Grid.h:17-18 | std::map's key order is irreflexive |
| Registries.LexLessTransitive | include/Grid.h:17-18 | the key order is transitive |
| Registries.LexLessTotal | include/Grid.h:17-18 | the key order is total |
| Registries.InsertSorted | src/Grid.cpp:45-53 | inserting a new key keeps the key list ascending |
| Registries.EraseSorted | src/Grid.cpp:55-66 | erasing a key keeps the key list ascending |
| Registries.Find | src/Grid.cpp:36-43 | the first position holding the id, or the length when there is none |
| Registries.RemoveFirstSpec | src/Busbar.cpp:49-59 | erasing the first occurrence from a repeat-free list removes exactly that id |
| Allocation.ServedDemandBounds | src/Grid.cpp:178-204 | the served demand lies between 0 and the connected demand |
| Allocation.WithRankSpec | src/Busbar.cpp:99-104 | WithRank lists, ascending, exactly the loads of one rank |
| Allocation.FromRankSpec | src/Busbar.cpp:99-104 | FromRank lists each load of rank r or more once, ranks never decreasing |
| Allocation.RankOrderSpec | src/Busbar.cpp:99-104 | the visiting order is a permutation of the loads sorted by rank, Critical first |
| Allocation.RankOrderVisitsLowerRankFirst | src/Busbar.cpp:99-104 | a load of strictly better priority is visited earlier |
| Allocation.FirstFit | src/Busbar.cpp:114-122 | the first source in connection order that can take the demand, or none |
| Allocation.RunFrame | src/Busbar.cpp:106-127 | a pass changes only served flags and draws |
| Allocation.RunUntouched | src/Busbar.cpp:106-127 | a load the order skips keeps its state |
| Allocation.RunAppend | src/Busbar.cpp:106-127 | running two orders in turn runs their concatenation |
| Allocation.RunOfflineUnchanged | src/Busbar.cpp:114-122 | an offline source is never given a load |
| Allocation.RunWithinCapacity | src/Busbar.cpp:114-122 | a pass keeps every draw within its capacity |
| Allocation.RunConsistent | src/Busbar.cpp:108-109 | a pass never serves a disconnected load |
| Allocation.RunDrawGrows | src/Busbar.cpp:114-122 | draws only grow during a pass |
| Allocation.ServedIffFitAtTurn | src/Busbar.cpp:108-127 | a connected load ends served exactly when some source could take it at its turn |
| Allocation.RunConservesPower | src/Busbar.cpp:106-127 | the draw a pass adds equals the demand it serves |
| Allocation.RunMaximal | src/Busbar.cpp:106-127 | a connected load left unserved fits on no source at the end of the pass |
| Allocation.LaterServedLoadIsSmaller | src/Busbar.cpp:106-127 | a load served after a shed one demands strictly less |
| Allocation.AllocateIgnoresAllocation | src/Busbar.cpp:89-97 | distribution does not depend on earlier flags or draws |
| Allocation.AllocateIdempotent | src/Busbar.cpp:80-130 | distributing twice gives the same result as distributing once |
| Allocation.AllocateWithoutSources | src/Busbar.cpp:81-87 | without sources every load is left unserved |
| Allocation.RunOverwritesServed | src/Busbar.cpp:146-168 | a pass over connected loads settles each served flag regardless of its start value |
| Allocation.ShedMatchesAllocate | src/Busbar.cpp:132-169 | when served implies connected, shedding allocates exactly as distribution does |
| Allocation.ShedAfterAllocate | src/Grid.cpp:113-118 | shedding right after distribution reproduces its outcome |
| Allocation.AllocateWithinCapacity | src/Busbar.cpp:80-130 | after distribution every draw fits its capacity |
| Allocation.AllocateOfflineIdle | src/Busbar.cpp:89-122 | after distribution an offline source carries no draw |
| Allocation.AllocateConsistent | src/Busbar.cpp:80-130 | after distribution only connected loads are served |
| Allocation.AllocateConservesPower | src/Busbar.cpp:80-130 | the total draw equals the served demand |
| Allocation.AllocateMaximal | src/Busbar.cpp:80-130 | no load left unserved fits on any source |
| Allocation.AllocateRespectsPriority | src/Busbar.cpp:99-127 | a load of worse priority is served over a shed one only when it demands strictly less |
| Allocation.AllocateReport | src/Busbar.cpp:162-167 | the report lists exactly the connected loads left unserved |
| Allocation.UnservedIdsMember | src/Busbar.cpp:162-167 | an id is reported exactly when a listed load with that id is connected and unserved |
| Allocation.UnservedIdsNone | src/Busbar.cpp:162-167 | nothing is reported when every connected load is served |
| Allocation.AllocatePriorities | src/Busbar.cpp:80-130 | a pass leaves the priorities alone |
| Allocation.AllocateCleared | src/Grid.cpp:102-110 | the grid's reset before the bus passes changes none of their outcomes |
| Allocation.DrawWithinSupply | src/Grid.cpp:196-200 | total draw is at most the operational capacity |
| Allocation.AllocateWithinSupply | src/Grid.cpp:178-204 | after distribution the served demand lies between 0 and the operational capacity |
| Busbars.ResetAll | src/Busbar.cpp:89-92 | every source of the bus is reset |
| Busbars.ClearAll | src/Busbar.cpp:94-97 | every load of the bus is marked unserved |
| Busbars.Visit | src/Busbar.cpp:108-127 | one load offered to the sources in order: served exactly when one fits, with the state one Step further |
| Busbars.ServePass | src/Busbar.cpp:106-129 | the loop is the pass Run, and it returns true exactly when every connected load is served |
| Busbars.ShedPass | src/Busbar.cpp:145-168 | the loop is the pass Run, and it reports the connected loads left unserved |
| Busbars.DistributeLists | src/Busbar.cpp:80-130 | the bus ends in Allocate's state, and the result is true exactly when it has sources and serves every connected load |
| Busbars.ShedLists | src/Busbar.cpp:132-169 | the bus ends in Shed's state, and the report lists its unserved loads |
| Busbars.Busbar.constructor | src/Busbar.cpp:6 | a new bus is empty and de-energized |
| Busbars.Busbar.GetTotalConnectedLoad | src/Busbar.cpp:16-24 | the summed demand of the connected loads |
| Busbars.Busbar.GetTotalAvailablePower | src/Busbar.cpp:26-34 | the summed available capacity of the online sources |
| Busbars.Busbar.ConnectLoad | src/Busbar.cpp:44-47 | the load is appended and marked connected |
| Busbars.Busbar.DisconnectLoad | src/Busbar.cpp:49-59 | the first load with the id is disconnected and leaves the list; an unknown id changes nothing |
| Busbars.Busbar.ConnectSource | src/Busbar.cpp:61-65 | the source is appended and the bus is energized |
| Busbars.Busbar.DisconnectSource | src/Busbar.cpp:67-78 | the first source with the id leaves; the bus stays energized only if a source is left |
| Busbars.Busbar.Distribute | src/Busbar.cpp:80-130 | distributeLoadsToPowerSources ends in Allocate's state and returns true exactly when the bus has a source and every connected load is served |
| Busbars.Busbar.PerformLoadShedding | src/Busbar.cpp:132-169 | performLoadShedding ends in Shed's state and reports the loads it sheds, in visiting order |
| GridStores.EraseAllSorted | src/Grid.cpp:22-30 | erasing a bus's entities keeps the key lists ascending |
| GridStores.AddBusKeeps | src/Grid.cpp:10-12 | adding an empty bus keeps buses and registries consistent |
| GridStores.AddLoadKeeps | src/Grid.cpp:45-53 | connecting and registering a new load keeps the store consistent |
| GridStores.AddSourceKeeps | src/Grid.cpp:73-81 | connecting and registering a new source keeps the store consistent |
| GridStores.FreshLoadNowhere | src/Grid.cpp:55-66 | an unregistered load is on no bus |
| GridStores.RemoveLoadKeeps | src/Grid.cpp:55-66 | disconnecting a load everywhere and erasing it keeps the store consistent |
| GridStores.RemoveSourceKeeps | src/Grid.cpp:83-94 | disconnecting a source everywhere and erasing it keeps the store consistent |
| GridStores.RemoveBusKeeps | src/Grid.cpp:14-34 | erasing a bus with all its entities keeps the store consistent |
| Grids.ReportsNext | src/Grid.cpp:113-118 | the report of one more bus extends the report by that bus's shed loads |
| Grids.Utilization | src/Grid.cpp:222-227 | with positive supply the percentage times the supply is 100 times the served demand; otherwise 0 |
| Grids.UtilizationBounds | src/Grid.cpp:222-227 | utilisation lies between 0 and 100 when served demand is within supply |
| Grids.BusReportNext | src/Grid.cpp:113-118 | a bus's report is the shedding pass after distribution, which keeps the distributed state; nothing is reported when every load is served |
| Grids.Grid.GetSupplyUtilizationPercent | src/Grid.cpp:222-227 | servedDemand as a percentage of totalSupply, 0 without supply |
| Grids.Grid.constructor | src/Grid.cpp:7-8 | a new grid is empty with zero statistics |
| Grids.Grid.AddBusbar | src/Grid.cpp:10-12 | the bus is appended; nothing else changes |
| Grids.Grid.GetBusbar | src/Grid.cpp:36-43 | the position of the first bus with the id, or the bus count when there is none |
| Grids.Grid.AddLoad | src/Grid.cpp:45-53 | an unknown bus changes nothing; otherwise the load is connected to that bus and registered under its id |
| Grids.Grid.AddSource | src/Grid.cpp:73-81 | an unknown bus changes nothing; otherwise the source is connected (energizing the bus) and registered |
| Grids.Grid.RemoveLoad | src/Grid.cpp:55-66 | an unknown id changes nothing; otherwise the load leaves every bus and the registry |
| Grids.Grid.RemoveSource | src/Grid.cpp:83-94 | an unknown id changes nothing; otherwise the source leaves every bus and the registry |
| Grids.Grid.RemoveBusbar | src/Grid.cpp:14-34 | an unknown id changes nothing; otherwise the bus and every entity it held are erased |
| Grids.Grid.UpdateStatistics | src/Grid.cpp:178-204 | the statistics are the connected demand, operational capacity, served demand and their difference; served lies within demand |
| Grids.Grid.DistributeLoadOptimally | src/Grid.cpp:101-122 | every bus ends in the Allocate state of its contents; the report joins the buses' shed loads in bus order; the statistics are tallied |
| Grids.Grid.PerformSystemWideLoadShedding | src/Grid.cpp:124-176 | the registries end in Allocate's state over all loads and sources in id order; the report lists the shed loads; draws fit capacities; offline sources are idle; utilisation is within 0..100 |
| Grids.ResetEach | src/Grid.cpp:103-105 | every listed source is reset |
| Grids.ClearEach | src/Grid.cpp:108-110 | every listed load is marked unserved |
| Grids.Offer | src/Grid.cpp:150-163 | one load offered to the sources in order: served exactly when one fits |
| Grids.ServeIn | src/Busbar.cpp:106-129 | the pass over registry entries is Run, returning whether every connected load is served |
| Grids.ShedIn | src/Grid.cpp:150-172 | the pass over registry entries is Run, reporting the loads left unserved |
| Grids.DistributeBus | src/Busbar.cpp:80-130 | one bus's distribution on the store is Allocate of its view |
| Grids.ShedBus | src/Busbar.cpp:132-169 | one bus's shedding on the store is Shed of its view |
| Grids.DistributeBuses | src/Grid.cpp:113-118 | every bus ends allocated; the report joins the buses' reports |
| Grids.TallyLoads | src/Grid.cpp:184-193 | the loop sums the connected demand and the served demand |
| Grids.TallySources | src/Grid.cpp:196-200 | the loop sums the operational capacity |
| Grids.DistributeStore | src/Grid.cpp:101-118 | the reset plus the bus loop keep the store consistent and allocate every bus |
| Grids.ShedStore | src/Grid.cpp:124-172 | the reset plus the system-wide pass keep the store consistent and allocate the whole registry |
| Scenarios.MainOrder | src/Simulator.cpp:30-37 | HOSP-1 is visited before FACT-1 |
| Scenarios.SecondaryOrder | src/Simulator.cpp:32-40 | COMM-1, then RES-1, then STLT-1 |
| Scenarios.MainBus | src/Simulator.cpp:21-37 | HOSP-1 takes 600 kW of GEN-1 and FACT-1 takes 800 kW of TR-1; nothing is shed |
| Scenarios.SecondaryBus | src/Simulator.cpp:22-40 | COMM-1 and STLT-1 take 400 kW of GEN-2; RES-1 is shed |
| Scenarios.DefaultFigures | src/Simulator.cpp:12-43 | 2200 kW demand, 3000 kW supply, 1800 kW served, 400 kW shed, 60 percent utilisation |

## Left out

- Console output is left out. The shedding messages become the returned
  report, and `printSystemReport` and the error lines for unknown ids are
  not modelled.
- The interactive simulator is left out: the menu, `std::cin`, the sleep
  and the run/pause flags of `Simulator` and `main`. Only the default
  scenario is modelled, as data.
- The plain getters are left out, except where a contract uses the field.
  These are `getId`, `getCapacity`, `getConnectedLoads`, `getLoad`,
  `getSource` and the like.
- `double` is modelled as `real`, so there is no rounding. Demands and
  capacities are assumed non-negative: a load's or source's `Valid`, and a
  precondition where needed.
- Grids.Grid.AddLoad and Grids.Grid.AddSource require an id that is not yet
  registered. The source would overwrite the map entry and leave the old
  object on its bus.
- Grids.Grid.AddBusbar takes the id of a new, empty bus. A bus that already
  holds entities, or a bus added twice, is not modelled.
- Busbars.Busbar.ConnectLoad and Busbars.Busbar.ConnectSource require that
  the object is not already on that bus.
- The grid stores each load and source once, in its registry, and a bus
  lists ids. The source shares objects through `std::shared_ptr`, so an
  object placed on two buses is not modelled. The `Busbar` class alone
  keeps object references.
- Allocation.RankOrder fixes the stable order for equal priorities.
  `std::sort` leaves that order open. The lemmas about a pass over a given
  order hold for any permutation. In the default scenario no bus holds two
  loads of the same priority, so the choice does not matter there.
- Grids.Grid.PerformSystemWideLoadShedding visits the disconnected loads
  too and skips them. The source first filters them out of its list. Both
  give the same order and outcome.
- The extra `isOperational()` test in the system-wide pass is the same as
  `canSupplyPower`'s own test, and it is not repeated.
- Registries.LexLess compares ids by character code. `std::string`
  compares the same way for the ASCII ids used here.
- Grids.Grid.UpdateStatistics sums into local variables and then assigns
  the four fields. The source accumulates in the fields; the result is the
  same.
- Scenarios.DefaultFigures is stated on the two buses' allocations, not on
  a Grid built through its methods. The construction through `addBusbar`,
  `addSource` and `addLoad` is not replayed.
- On the Secondary bus the loads are connected in the order RES-1, COMM-1,
  STLT-1, as the code does.
