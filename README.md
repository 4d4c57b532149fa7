# autofarm and workNow, modelled in Dafny

This project models two DFHack plugins and proves properties of the model.

**autofarm** (`plugins/autofarm.cpp`) keeps a fortress's farm plots planted with
crops that are running low. Every pass it does four things:

- it finds the plants that can be sown now: the plant has usable seeds, it is
  a seed plant, it is not a tree, and its season flags cover every season
  until the harvest;
- it counts the usable stock of each such plant;
- for each biome, it collects the plants whose stock is below their threshold;
- it groups the existing farm plots by biome and hands each group to
  `set_farms`.

`set_farms` re-plants as few farms as possible so that every wanted plant
gets floor(N/K) or floor(N/K)+1 of the N farms, where K is the number of
wanted plants. With no wanted plant, every farm goes fallow.

Thresholds are per-plant overrides over a default of 50. The
`autofarm threshold <n> <id>...` command sets them.

**workNow** (`plugins/workNow.cpp`) has a mode of 0, 1 or 2. In mode 1 or 2,
pausing the game wakes the job and dig schedulers. In mode 2, a job-completion
listener also wakes them after every finished job. The listener is meant to
be registered exactly while the mode is 2.

The modules follow the source:

- `FarmTypes` (`farm_types.dfy`): the records read from and written to the
  game world:
  - plant definitions;
  - items with their flags;
  - farm plots with four per-season plant ids;
  - change records.
- `Eligibility` (`eligibility.dfy`): `is_plantable`, a loop proved against a
  closed form.
- `Counting` (`counting.dfy`): counting and summation facts used by the
  balance proofs.
- `Rebalance` (`rebalance.dfy`): `set_farm` and `set_farms`. They work in
  place on an `array<FarmPlot>`. The first pass and the FIFO queue of excess
  farms are local state.
- `AutoFarmPlugin` (`autofarm.dfy`): class `AutoFarm` holds the fields
  `thresholds`, `defaultThreshold`, `lastCounts` and `plantablePlants`. It
  provides the threshold store, `find_plantable_plants`, and the demand and
  grouping part of `process`.
- `ThresholdCommand` (`thresholds.dfy`): the static `setThresholds`.
- `WorkNowPlugin` (`work_now.dfy`): each hook as a step function on the
  plugin state, class `WorkNow` whose methods are proved equal to those
  steps, and run-level lemmas.

Iteration over a `std::map` or `std::set` whose order does not affect the
result is modelled as picking elements from a shrinking set. `set_farms`
visits the wanted plants in ascending order, as `std::set<int>` does. That
order matters there, and the model keeps it.

`is_plantable` follows the code. Its loop stops at the first season whose
flag is missing, because the guard is `can_plant && harvest >= 10080`.

## Model

| member | source | states |
|---|---|---|
| AutoFarmPlugin.AutoFarm.constructor | plugins/autofarm.cpp:41-46 | a new instance has no overrides, no counts and the default threshold 50 |
| AutoFarmPlugin.AutoFarm.Initialize | plugins/autofarm.cpp:49-55 | overrides and counts are cleared, the default is back to 50, so every plant's threshold is 50 |
| AutoFarmPlugin.AutoFarm.SetThreshold | plugins/autofarm.cpp:57-60 | the plant's threshold becomes `val`; every other plant's threshold, the default and the counts are unchanged |
| AutoFarmPlugin.AutoFarm.GetThreshold | plugins/autofarm.cpp:62-65 | the override when one is set, otherwise the current default |
| AutoFarmPlugin.AutoFarm.SetDefault | plugins/autofarm.cpp:67-70 | plants with an override keep their threshold; every other plant's threshold becomes `val` |
| Eligibility.IsPlantable | plugins/autofarm.cpp:76-91 | the loop's answer equals the closed form. That is: seed flag, no tree flag, and the flag of the current season and of each season the harvest rolls into. The loop runs at most (tick + growdur*10) / 10080 times |
| Eligibility.SameSeasonHarvest | plugins/autofarm.cpp:82-84 | a crop ripening within the current season needs only seed, no tree and that season's flag |
| Eligibility.LongGrowthNeedsAllSeasons | plugins/autofarm.cpp:84-88 | a growth crossing three or more season boundaries needs all four season flags |
| Eligibility.ShorterGrowthStaysPlantable | plugins/autofarm.cpp:82-88 | with the same flags, a shorter growth duration never turns an eligible plant ineligible |
| AutoFarmPlugin.CountSeeds | plugins/autofarm.cpp:166-171 | the seed counts have exactly the plants with a usable seed as keys, and each count is that plant's usable seed stack total |
| AutoFarmPlugin.KindsSpec | plugins/autofarm.cpp:166-171 | a plant is counted exactly when some seed item without a bad flag names it |
| AutoFarmPlugin.AutoFarm.BiomesOf | plugins/autofarm.cpp:177-179 | the biomes collected for a plant are exactly the `biomeFlagMap` images of the flags it has |
| AutoFarmPlugin.AutoFarm.FindPlantablePlants | plugins/autofarm.cpp:152-181 | `plantable_plants` maps each plant with a usable seed that is plantable now and names a biome to exactly its biomes; nothing else changes |
| Rebalance.SetFarm | plugins/autofarm.cpp:189-199 | only `plant_id[season]` of that one farm is written. One change line is logged exactly when the plant id differs, none otherwise |
| Rebalance.Fallow | plugins/autofarm.cpp:208-217 | every farm of the group is fallow (-1) for the season, nothing outside the group changes, and one line is logged per farm that was not fallow |
| Rebalance.KeepPass | plugins/autofarm.cpp:219-236 | min = N/K. A farm is queued exactly when it is not kept. Queued farms are in farm order. The counters count the kept farms and stay at most min+1, and kept plus queued farms add up to N. Remainder credits spent equal the plants at min+1. A farm whose wanted plant has fewer than min earlier farms is never queued, and on a balanced input nothing is queued |
| Rebalance.Visit | plugins/autofarm.cpp:227-235 | visiting one farm (keeping it or queueing it) preserves the first-pass invariant |
| Rebalance.BalancedKeeps | plugins/autofarm.cpp:228-235 | on an input that is already balanced, every farm passes the keep test |
| Rebalance.Ascending | plugins/autofarm.cpp:238 | the wanted plants in strictly increasing order, each exactly once (the iteration order of `std::set<int>`) |
| Rebalance.GiveFarm | plugins/autofarm.cpp:242-248 | handing the oldest queued farm to plant n keeps the second-pass invariant: only that farm's season plant changes, and the log gains its change line. Plant n's tally rises by one and the queue shrinks |
| Rebalance.GiveTurn | plugins/autofarm.cpp:238-250 | one plant's turn keeps the second-pass invariant. Later plants keep their first-pass counters, and earlier plants are saturated while the queue is non-empty |
| Rebalance.Drained | plugins/autofarm.cpp:238-250 | after every plant's turn the queue is empty, all remainder credits are spent, and the outcome is balanced |
| Rebalance.FillPass | plugins/autofarm.cpp:238-250 | the second pass only changes the season plant of queued farms. The result is balanced, and the log is one line per changed farm in farm order |
| Rebalance.SetFarms | plugins/autofarm.cpp:201-251 | only `plant_id[season]` of the group's farms changes. Each part holds for every input: (1) no wanted plant: every farm fallow; (2) with no farms, nothing changes; (3) each wanted plant has N/K or N/K+1 farms, exactly N mod K of them N/K+1; (4) a farm whose wanted plant has fewer than N/K earlier farms keeps it; (5) a balanced input is left unchanged. The log is exactly the changed farms in group order |
| Rebalance.RerunIsStable | plugins/autofarm.cpp:203-204 | running `set_farms` again on its own output with the same wanted plants changes nothing and logs nothing |
| AutoFarmPlugin.AutoFarm.TallyItems | plugins/autofarm.cpp:272-284 | each plantable plant's count grows by the usable stack of its items in the list; other plants get no entry |
| AutoFarmPlugin.StockAppend | plugins/autofarm.cpp:281-284 | counting PLANT then PLANT_GROWTH items gives the sum of the two stocks |
| AutoFarmPlugin.AddWanted | plugins/autofarm.cpp:292-295 | the plant joins the wanted set of each of its biomes and of no other biome |
| AutoFarmPlugin.AutoFarm.Demand | plugins/autofarm.cpp:288-296 | the wanted set of every biome is exactly the plantable plants of that biome whose count is below their threshold. Reading a missing count adds a 0 entry without changing any value |
| AutoFarmPlugin.AutoFarm.WantedByBiome | plugins/autofarm.cpp:286-296 | as `Demand`, writing the read-created 0 entries into `lastCounts` |
| AutoFarmPlugin.WantedIff | plugins/autofarm.cpp:272-296 | a plant is wanted in biome b exactly when all of these hold: it has a usable seed, it is plantable now, one of its flags maps to b, and its usable PLANT plus PLANT_GROWTH stock is below its threshold |
| AutoFarmPlugin.AutoFarm.Survey | plugins/autofarm.cpp:258-296 | after the survey, `plantable_plants` is the plantable map and `lastCounts` is the stock of exactly the plantable plants. The wanted sets are those of `WantedIn` |
| AutoFarmPlugin.GroupSpec | plugins/autofarm.cpp:298-314 | a biome's group lists, in building order, exactly the existing farms whose biome is that one. Subterranean farms count as SUBTERRANEAN_WATER |
| AutoFarmPlugin.GroupFarms | plugins/autofarm.cpp:298-314 | the grouping loop yields, per biome, exactly that biome's group, and no biome gets an empty group |
| AutoFarmPlugin.ReplantBiome | plugins/autofarm.cpp:318 | `set_farms` on one biome rebalances that biome's farms, leaves every other biome's farms as they were, and appends that biome's lines to the log |
| AutoFarmPlugin.ReplantAll | plugins/autofarm.cpp:316-319 | every biome's farms end up as `set_farms` promises for that biome's wanted plants. A biome with no wanted plant goes fallow. The log is the biomes' lines in ascending biome order |
| AutoFarmPlugin.AutoFarm.Process | plugins/autofarm.cpp:253-322 | disabled: nothing changes. Enabled: the plantable map and the stock counts are recomputed, and each biome's farms are rebalanced for exactly the plants wanted there. Only season plants of existing farms change. The log is per biome in ascending order. Thresholds are untouched |
| ThresholdCommand.UpperChar | plugins/autofarm.cpp:402 | lower-case ASCII letters map to their upper-case letter; every other character is kept |
| ThresholdCommand.Upper | plugins/autofarm.cpp:402 | the upper-cased id has the same length, no lower-case letter, and every other character in place |
| ThresholdCommand.UpperIdempotent | plugins/autofarm.cpp:402 | upper-casing twice is upper-casing once |
| ThresholdCommand.FirstSeed | plugins/autofarm.cpp:405-413 | the first definition with the seed flag and the given id, or none exactly when no definition has both |
| ThresholdCommand.FindSeed | plugins/autofarm.cpp:405-413 | the inner search loop with its early exit finds exactly `FirstSeed` |
| ThresholdCommand.KnownPrefix | plugins/autofarm.cpp:399-419 | how many ids, from the first, name a seed plant; the id after them does not |
| ThresholdCommand.Picked | plugins/autofarm.cpp:399-419 | the plants overridden by the first n ids: each accepted id's first seed plant, and nothing else |
| ThresholdCommand.OverrideOne | plugins/autofarm.cpp:401-418 | an id naming a seed plant overrides that plant's threshold; an unknown id changes nothing and ends the accepted prefix |
| ThresholdCommand.SetThresholds | plugins/autofarm.cpp:396-421 | the result is OK exactly when every id names a seed plant, else wrong usage. The overrides are those of the accepted prefix; later ids have no effect. The default, counts and plantable map are unchanged |
| ThresholdCommand.CaseInsensitive | plugins/autofarm.cpp:401-407 | an id is accepted in any letter case exactly when it is accepted upper-cased, for the same plant |
| WorkNowPlugin.CommandStep | plugins/workNow.cpp:61-84 | no parameters reports the mode and changes nothing. More than one parameter, or a value outside 0..2, is wrong usage and changes nothing. A valid value becomes the mode. Registration follows the move into and out of mode 2 |
| WorkNowPlugin.StateChangeStep | plugins/workNow.cpp:45-59 | as written: in a non-zero mode, a world unload sets the mode to 0 and leaves the listener as it was; a pause sets both scheduler flags; anything else changes nothing |
| WorkNowPlugin.StateChangeStepFixed | plugins/workNow.cpp:45-59 | the same mode and flags as the hook as written, and it keeps the listener registered exactly in mode 2 |
| WorkNowPlugin.JobCompletedStep | plugins/workNow.cpp:86-92 | in mode 2 both scheduler flags are set; below 2 nothing changes |
| WorkNowPlugin.ShutdownStep | plugins/workNow.cpp:40-43 | the mode goes back to 0; nothing else changes |
| WorkNowPlugin.ModeStaysValid | plugins/workNow.cpp:45-92 | starting in a valid mode, any sequence of commands, state changes and job completions keeps the mode in 0..2 |
| WorkNowPlugin.CommandsKeepListener | plugins/workNow.cpp:74-78 | across commands and job completions alone, the listener stays registered exactly in mode 2 |
| WorkNowPlugin.FixedKeepsListener | plugins/workNow.cpp:45-59 | with the corrected hook, the listener stays registered exactly in mode 2 whatever happens |
| WorkNowPlugin.UnloadLeavesListener | plugins/workNow.cpp:46-50 | as written, a world unload in mode 2 leaves the listener registered in mode 0, and a later `workNow 2` registers it again |
| WorkNowPlugin.DoubleRegistration | plugins/workNow.cpp:46-50 | from the initial state, `workNow 2` then a world unload leaves a registered listener that the next `workNow 2` registers a second time |
| WorkNowPlugin.WorkNow.constructor | plugins/workNow.cpp:21 | the plugin starts in mode 0 with no listener |
| WorkNowPlugin.WorkNow.Command | plugins/workNow.cpp:61-84 | the command's result, report and new state are those of `CommandStep` |
| WorkNowPlugin.WorkNow.OnStateChange | plugins/workNow.cpp:45-59 | the new state is that of `StateChangeStep` |
| WorkNowPlugin.WorkNow.OnJobCompleted | plugins/workNow.cpp:86-92 | the new state is that of `JobCompletedStep` |
| WorkNowPlugin.WorkNow.Shutdown | plugins/workNow.cpp:40-43 | the new state is that of `ShutdownStep` |

## Left out

- Enumerating the world's item and building lists, and the `virtual_cast` calls: the model takes sequences of item and farm records as inputs.
- Biome lookup (`getTileDesignation`, `getTileBiomeRgn`, `GetBiomeType`): each farm carries its subterranean bit and region biome as inputs. Only the rule "subterranean means SUBTERRANEAN_WATER (48)" is modelled.
- The contents of the 51-entry `biomeFlagMap`: it is a constant field of arbitrary value.
- Console output, `get_plant_name` and `status`: `set_farm` returns change records instead of printing lines.
- Plugin lifecycle: `plugin_init`, `plugin_shutdown`, `plugin_onupdate` (frame and pause gating), `plugin_enable`, `CoreSuspender` and the `unique_ptr` instance. The `enabled` flag is a parameter of `Process`.
- The `autofarm` command dispatcher (`runonce`, `enable`, `disable`, `default`, `threshold`, `status`). Its calls into `process`, `setDefault` and `setThresholds` are modelled directly.
- `atoi`: the parsed value is an input of `SetThresholds` and `WorkNow.Command`. `::toupper` is modelled as the ASCII mapping of the "C" locale.
- 32-bit integer overflow of stack sums, thresholds and counters: integers are unbounded.
- A plant's `index` is taken to be its position in the list of all plant definitions. Every usable seed's material index is assumed to name a definition (`SeedsIndexed`).
- Iteration order of `counts`, `biomeFlagMap`, `plantable_plants` and the biome sets: those loops visit elements in an arbitrary order, and their results do not depend on it.
- EventManager: only whether the job-completion listener is registered is kept, as a ghost flag. Event delivery itself is not modelled.
- `plugin_init` of workNow, which fails when the scheduler globals are missing, is not modelled.
- WorkNowPlugin.ModeStaysValid: the run-level lemmas cover commands, state changes and job completions; shutdown is a separate step (`ShutdownStep`) and is not part of a run.

## Findings

| source | as written | input that shows it | evidently intended | confidence | as-written member | corrected member |
|---|---|---|---|---|---|---|
| plugins/workNow.cpp:46-50 | a world unload in a non-zero mode sets the mode to 0 and returns without unregistering the job-completion listener | `workNow 2`, then SC_WORLD_UNLOADED, then `workNow 2`: the listener stays registered in mode 0, and the second command registers it again | leaving mode 2 on an unload also unregisters the listener, so it is registered exactly while the mode is 2 | not executed | WorkNowPlugin.DoubleRegistration | WorkNowPlugin.FixedKeepsListener |
