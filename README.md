# Configurable Containers: tank bookkeeping

A Dafny model of the tank bookkeeping in the Kerbal Space Program mod
ConfigurableContainers.

- A part carries switchable tank modules. Each module holds at most one
  part resource. A resource may be switched only when the tank is empty;
  the editor empties it first.
- No two tanks of a part manage the same resource.
- A tank manager keeps a list of such tanks under a shared total `Volume`.
  It caches `TanksVolume`, `AvailableVolume` and `AvailableVolumePercent`,
  and hands out increasing tank ids.
- Tanks are added one by one or from a volume configuration, which is a
  tree of tank volumes and nested configurations. The configuration's
  volume is split proportionally over the tree.
- Tank types and configurations come from sorted name libraries. The
  configuration library supports unique-name insertion, add-or-replace,
  removal, and lookup with presets before user configurations.
- The module that hosts a manager (`ModuleTankManager`) prices and weighs
  its saved configuration until the manager exists. It never lets its
  volume drop below what the tanks use. It rescales tanks and volume
  together when the part is resized.
- The common module base (`AbstractResourceTank`) applies a one-shot cost
  patch and a one-shot mass patch.

Volumes, amounts, costs and masses are `real`s. Host objects become small
pieces of state:

- The part is a class whose `resources` map resource names to
  (definition, amount, maxAmount).
- The editor/flight scene flag, the `AddRemoveEnabled` capability, the
  validators of a new tank and the part's metric volume are parameters.
- The library members the core calls but does not define are fields or
  parameters:
  - a tank type's `UsefulVolume`, `Cost` and `AddMass` are function-valued
    fields of the type;
  - `GetEffectiveVolumeRatio` is a real field;
  - `FindTankType` is a function parameter.

Modules, one per source file:

- `Util`: Option, sums, ratios, min/max and numbered names.
- `SortedLists`: .NET `SortedList`, its keys kept in ordinal string order.
- `TankTypes`: SwitchableTankType.cs.
- `Volumes`: VolumeConfiguration.cs.
- `ConfigsLibrary`: VolumeConfigsLibrary.cs.
- `SwitchableTanks`: ModuleSwitchableTank.cs.
- `TankManagers`: SwitchableTankManager.cs.
- `ResourceTanks`: AbstractResourceTank.cs.
- `ModuleTankManagers`: ModuleTankManager.cs.

The form follows the source:

- Objects whose fields the source updates in place are classes with
  `modifies`/`reads` frames: the tank, the manager, the configuration
  library, the resource tank base and the manager module.
- The tank list is a `seq` field that the manager's methods reassign.
- Loops are methods with invariants. Examples: the library loading loops,
  `add_unique`'s name search, `FromResources`, `AllConfigNames`, the id
  loop of `Load` and `RescaleTanks`.
- Those methods are proved against specification functions: `FirstValid`,
  `ChosenName`, `FromResource`, `NamesWhere`, `LoadedIds`, `ScaledUpTo` and
  `RescaledFrom`.

## Model

| member | source | states |
|---|---|---|
| SortedLists.Get | VolumeConfigsLibrary.cs:168-171 | `TryGetValue` finds a value exactly when the key is present |
| SortedLists.Insert | VolumeConfigsLibrary.cs:104 | adding an absent key keeps the list sorted and adds one entry. The new key maps to the new value; every other lookup is unchanged |
| SortedLists.Put | VolumeConfigsLibrary.cs:125-128 | the indexer setter maps the key to the value and keeps the list sorted. It leaves other lookups alone, and grows the list only when the key was absent |
| SortedLists.Remove | VolumeConfigsLibrary.cs:134 | removal drops exactly the key's entry and keeps the list sorted. An absent key changes nothing |
| SortedLists.GetAt | SwitchableTankType.cs:88 | in a sorted list each key occurs once, so a lookup finds the pair at any index holding the key |
| SortedLists.FirstIsLeast | SwitchableTankType.cs:126 | the first key of a sorted list is below every other key |
| TankTypes.DefaultResource | SwitchableTankType.cs:126 | the default resource of a valid type is one of its resources and precedes every other one in sorted order |
| TankTypes.ResourceOf | SwitchableTankType.cs:128-135 | the indexer yields a resource exactly when the list is present and holds the name (null instead of an exception) |
| TankTypes.GetTankType | SwitchableTankType.cs:85-89 | a type is returned exactly when `HaveTankType` holds. From a loaded library it is valid, sorted and carries the requested name |
| TankTypes.LoadedGet | SwitchableTankType.cs:39-52 | every type of a loaded library is valid and listed under its own name |
| TankTypes.KeepIncluded | SwitchableTankType.cs:67 | keeps exactly the names that are also included, each taken from the list; an increasing list stays increasing |
| TankTypes.DropExcluded | SwitchableTankType.cs:69 | keeps exactly the names that are not excluded; an increasing list stays increasing |
| TankTypes.TankTypeNames | SwitchableTankType.cs:63-72 | a non-empty include list gives exactly the included known types. Otherwise a non-empty exclude list gives exactly the non-excluded ones. Otherwise all names are returned. For a sorted library the result is strictly increasing |
| TankTypes.FirstValidIsFirst | SwitchableTankType.cs:39-52 | the type kept for a name is the first valid node carrying it, and there is one iff some valid node carries it |
| TankTypes.LoadTankTypes | SwitchableTankType.cs:30-55 | the loading loop yields a loaded library. Every name maps to the first valid node of that name: invalid types are skipped and duplicates ignored |
| TankTypes.LoadStep | SwitchableTankType.cs:39-52 | one step of the loading loop keeps the loop invariant, whether it inserts, skips an invalid type or ignores a duplicate |
| TankTypes.LoadedInsert | SwitchableTankType.cs:47 | inserting a valid, new type keeps the library loaded |
| Volumes.TotalVolumeAppend | VolumeConfiguration.cs:172 | the total volume of children plus one more is the old total plus that child's volume |
| Volumes.ValidHasPositiveChild | VolumeConfiguration.cs:173 | a valid configuration (children present, total volume positive) has a child of positive volume |
| Volumes.ContainsTypeIffTypesOf | VolumeConfiguration.cs:245-248 | a tree contains a type iff the type is one of its tank volumes' types: never for a plain volume, name equality for a tank volume, some child for a configuration |
| Volumes.ContainsTypesIffTypesOf | VolumeConfiguration.cs:250-253 | a tree contains one of the listed types iff its types meet the list |
| Volumes.ChildConversionScale | VolumeConfiguration.cs:223 | the factor passed to the children, `Volume*conv/TotalVolume`, scales with `conv` |
| Volumes.ResourcesLinear | VolumeConfiguration.cs:233-243 | the resource cost, mass and amount aggregates of any tree are linear in the conversion factor |
| Volumes.TankPartialResources | VolumeConfiguration.cs:77-120 | a tank volume's partial resource aggregate is the full one times `InitialAmount`. Both are 0 when the type or the resource is missing |
| Volumes.ConfigurationVolumeScaling | VolumeConfiguration.cs:221-243 | scaling a configuration's `Volume` by k acts on every aggregate like scaling the conversion factor by k |
| Volumes.ConfigurationResourcesScale | VolumeConfiguration.cs:233-243 | scaling a configuration's `Volume` by k scales its resource aggregates by k |
| Volumes.ConfigurationAtTotalVolume | VolumeConfiguration.cs:221-231 | a configuration whose `Volume` is its (non-zero) total measures, for every measure but the amounts, the sum of its children at the same factor |
| Volumes.FromResource | VolumeConfiguration.cs:143-157 | none when no tank type holds the resource. Otherwise a tank of that type and resource whose volume holds exactly `maxAmount` (volume × useful ratio × units per liter × 1000), with `InitialAmount` = amount/maxAmount |
| Volumes.FromResourceRoundTrip | VolumeConfiguration.cs:143-157 | the tank volume built from a resource holds exactly the resource's capacity, and initially its amount |
| Volumes.TankAmounts | VolumeConfiguration.cs:107-120 | a tank volume sized to a resource's capacity has that capacity and that amount as its amount aggregates |
| Volumes.FromResources | VolumeConfiguration.cs:255-267 | none iff some resource is unknown. Otherwise one child per resource, in order, each the `FromResource` tank, and the configuration's `Volume` is its `TotalVolume` |
| Volumes.WithVolume | VolumeConfiguration.cs:192-193 | a clone with the new `Volume` and everything else kept |
| Volumes.LoadedChildren | VolumeConfiguration.cs:175-207 | every TANK and TANKCONF child node loads into exactly one child; other nodes are dropped |
| Volumes.LoadedPreset | VolumeConfiguration.cs:185-200 | a TANK node naming a preset loads as the preset's tree, with the node's volume, or 100 when the value does not parse. It contains the same types |
| Volumes.LoadConfiguration | VolumeConfiguration.cs:175-207 | the loading loop builds the configuration `LoadedVolume` describes |
| Util.NumberedNameInjective | VolumeConfigsLibrary.cs:103 | different numbers give different names "base i" |
| ConfigsLibrary.Renamed | VolumeConfigsLibrary.cs:103 | renaming a configuration keeps its volume, children and total volume |
| ConfigsLibrary.ChosenNameUnique | VolumeConfigsLibrary.cs:98-105 | the name `add_unique` settles on is determined by the list and the base name |
| ConfigsLibrary.FirstFreeIsLeast | VolumeConfigsLibrary.cs:100-103 | the numbered name the loop stops at is the least free one |
| ConfigsLibrary.ChosenNameExtends | VolumeConfigsLibrary.cs:103 | the chosen name starts with the base name |
| ConfigsLibrary.FreeName | VolumeConfigsLibrary.cs:100-103 | the search loop ends on the chosen name: the base name when free, else "base i" for the least free i ≥ 1 |
| ConfigsLibrary.TakenBound | VolumeConfigsLibrary.cs:102-103 | n taken numbered names plus the base need more than n entries, so the search ends |
| ConfigsLibrary.NamesWhereMembership | VolumeConfigsLibrary.cs:147-154 | a name is collected iff it keys a configuration that passes the type filter |
| ConfigsLibrary.CollectNames | VolumeConfigsLibrary.cs:147-150 | the collecting loop yields the filtered names in list order |
| ConfigsLibrary.FilterTypes | VolumeConfigsLibrary.cs:143-144 | a non-empty include list becomes exactly the known types not included; otherwise the exclude list is used |
| ConfigsLibrary.AvoidsFilterIffIncluded | VolumeConfigsLibrary.cs:143-144 | with an include list, a configuration of known types avoids the filter types iff all its types are included |
| ConfigsLibrary.LoadName | VolumeConfigsLibrary.cs:86-89 | " [cfg]" is appended on a clash with a tank type, then " [usr]" when that name clashes with a preset, so a name can get both; other names are kept |
| ConfigsLibrary.VolumeConfigsLibrary.LoadPresets | VolumeConfigsLibrary.cs:27-53 | each name maps to the first valid preset of that name: invalid ones are skipped and duplicates ignored |
| ConfigsLibrary.VolumeConfigsLibrary.AddUnique | VolumeConfigsLibrary.cs:98-105 | the configuration, renamed to the chosen free name, is inserted once; presets are untouched |
| ConfigsLibrary.VolumeConfigsLibrary.LoadUserConfigs | VolumeConfigsLibrary.cs:69-92 | the user list is the fold `LoadedUsers` of the nodes: invalid nodes are skipped, each valid one is added in order under its `LoadName`, made unique; the list has one entry per valid node |
| ConfigsLibrary.ChooseName | VolumeConfigsLibrary.cs:98-105 | the name `add_unique` settles on: the base when free, else the first free numbered name |
| ConfigsLibrary.ChosenNameExists | VolumeConfigsLibrary.cs:100-103 | the numbering loop of `add_unique` always reaches a free name |
| ConfigsLibrary.LoadedUsersEntries | VolumeConfigsLibrary.cs:76-90 | every loaded user entry is a valid node renamed to its key, the key starting with the node's `LoadName` |
| ConfigsLibrary.LoadedUsersComplete | VolumeConfigsLibrary.cs:76-90 | every valid node is among the loaded user entries, under a key starting with its `LoadName` |
| ConfigsLibrary.VolumeConfigsLibrary.AddConfig | VolumeConfigsLibrary.cs:117-121 | exactly one entry is added, under a previously absent chosen name; all other lookups are unchanged |
| ConfigsLibrary.VolumeConfigsLibrary.AddOrSave | VolumeConfigsLibrary.cs:123-130 | the name maps to the configuration, replacing or inserting; other lookups are unchanged |
| ConfigsLibrary.VolumeConfigsLibrary.RemoveConfig | VolumeConfigsLibrary.cs:132-138 | returns whether the name was present. An absent name changes nothing; otherwise exactly that entry leaves |
| ConfigsLibrary.VolumeConfigsLibrary.GetConfig | VolumeConfigsLibrary.cs:164-173 | nothing for an empty name. A preset takes precedence over a user configuration. Whatever is found carries the requested name |
| ConfigsLibrary.VolumeConfigsLibrary.HaveUserConfig | VolumeConfigsLibrary.cs:175-178 | a user configuration with a non-empty name is found by `GetConfig` unless a preset shadows it |
| ConfigsLibrary.VolumeConfigsLibrary.AllConfigNamesAsWritten | VolumeConfigsLibrary.cs:140-162 | with filter types, the names of presets and then user configurations that DO contain a filter type; without them, all preset keys then all user keys |
| ConfigsLibrary.VolumeConfigsLibrary.AllConfigNames | VolumeConfigsLibrary.cs:140-162 | the same, but with filter types the configurations that contain none of them |
| ConfigsLibrary.AllConfigNamesFiltered | VolumeConfigsLibrary.cs:145-155 | a name is listed iff it keys a preset or user configuration that avoids the filter types |
| ConfigsLibrary.AsWrittenListsExcludedConfig | VolumeConfigsLibrary.cs:147-154 | excluding type "A" still lists the preset "C" whose only tank is of type "A" under the written filter, and not under the corrected one |
| SwitchableTanks.WithAmount | ModuleSwitchableTank.cs:158-166 | the new amount is clamped to [0, maxAmount]; capacity unchanged |
| SwitchableTanks.WithMaxAmount | ModuleSwitchableTank.cs:559-570 | the capacity becomes the new one and an amount above it is cut to it. When asked and the old capacity was positive, the fill ratio is kept; otherwise the amount stands |
| SwitchableTanks.ScaledAmount | ModuleSwitchableTank.cs:568 | the rescaled amount has the old fill ratio and stays within the new capacity |
| SwitchableTanks.AmountInVolume | ModuleSwitchableTank.cs:180-183 | 0 without a tank type or resource |
| SwitchableTanks.VolumeForAmount | ModuleSwitchableTank.cs:185-193 | 0 without a type or resource, infinity iff the effective volume ratio is not positive |
| SwitchableTanks.VolumeForAmountRoundTrip | ModuleSwitchableTank.cs:180-193 | the volume for the amount a volume holds is that volume |
| SwitchableTanks.AmountForVolumeRoundTrip | ModuleSwitchableTank.cs:180-193 | the amount held by the volume for an amount is that amount |
| SwitchableTanks.ClampedVolume | SwitchableTankManager.cs:172-178 | a shrinking request stands. Growth is capped at old volume + available, is granted in full when it fits, and never shrinks the tank when the available volume is not negative |
| SwitchableTanks.NewTankVolume | ModuleSwitchableTank.cs:578-587 | a negative request becomes 0, then the manager, if any, clamps it. The result is not negative |
| SwitchableTanks.Acquired | ModuleSwitchableTank.cs:674-696 | a new part resource gets the capacity and, only when initializing, the initial fill. An existing one is resized in the editor or when empty, and otherwise left as it is |
| SwitchableTanks.UnpluggedValue | ModuleSwitchableTank.cs:228-237 | 0 when the type does not list the current resource |
| SwitchableTanks.UnpluggedAsTankVolume | ModuleSwitchableTank.cs:221-257 | the resource cost or mass of a tank without a part resource equals that of the tank volume with its type, resource, volume and initial fill |
| SwitchableTanks.SwitchableTank.SetAmount | ModuleSwitchableTank.cs:612-615 | only the managed resource's amount changes, and it is clamped; without a resource nothing changes |
| SwitchableTanks.SwitchableTank.UpdateMaxAmount | ModuleSwitchableTank.cs:559-570 | the managed resource's capacity becomes what the volume holds, by `WithMaxAmount`; nothing else changes |
| SwitchableTanks.SwitchableTank.SetVolume | ModuleSwitchableTank.cs:578-587 | the volume becomes `NewTankVolume` of the request and the capacity follows it |
| SwitchableTanks.SwitchableTank.TryRemoveResource | ModuleSwitchableTank.cs:389-407 | true iff there is no resource, or the editor, or an empty tank. On true the resource leaves the part. On false nothing changes except that the resource and type names are restored |
| SwitchableTanks.SwitchableTank.RegisterOtherTank | ModuleSwitchableTank.cs:366-370 | the tank is registered afterwards, and is appended only if it was not already there |
| SwitchableTanks.SwitchableTank.UnregisterOtherTank | ModuleSwitchableTank.cs:376-379 | drops the first registration and reports whether there was one |
| SwitchableTanks.SwitchableTank.InitResource | ModuleSwitchableTank.cs:650-702 | succeeds iff there was no resource, the type is known and no registered tank uses the current resource. Then the tank manages `Acquired` of it; on failure nothing changes |
| SwitchableTanks.SwitchableTank.SwitchResource | ModuleSwitchableTank.cs:704-707 | success leaves the current resource plugged in, unused by the others, with the old resource gone. A resource added to the part after an earlier switch starts empty. Every other part resource is kept and none but the current one is added (`OthersKept`). In flight a non-empty tank refuses, keeps its resource on the part unchanged and gets that resource's name back as its current resource |
| SwitchableTanks.SwitchableTank.InitTankType | ModuleSwitchableTank.cs:490-519 | a negative volume becomes the part's. An unresolved type is looked up, the first supported type being used when none is named. An unknown or empty current resource becomes the type's default |
| SwitchableTanks.SwitchableTank.ChangeTankType | ModuleSwitchableTank.cs:521-542 | in flight a non-empty tank refuses and restores the type name. On success the new type is resolved and its (or the default) resource is plugged in, the old resource is gone, and a resource added after an earlier switch starts empty. Every other part resource is kept (`OthersKept`) |
| SwitchableTanks.SwitchableTank.ResolveAndSwitch | ModuleSwitchableTank.cs:537-541 | the type is resolved anew from its name (the first supported one when there is none) and the resource switched. On success type and resource agree; only the old and the new resource of the part change |
| SwitchableTanks.SwitchableTank.ForceSwitchResource | ModuleSwitchableTank.cs:624-648 | true with no change when the resource is already current. False with no change when neither the type nor the library holds it. On success the tank manages the new resource and the old one is gone. When the old type did not hold the resource, the new type is the one `FindTankType` returns. A resource added to the part after an earlier switch starts empty. Every other part resource is kept (`OthersKept`) |
| SwitchableTanks.SwitchableTank.ChangeTankTypeTo | ModuleSwitchableTank.cs:643-647 | on success the new type and resource are the tank's and the old resource is gone. A resource added to the part after an earlier switch starts empty. Every other part resource is kept (`OthersKept`) |
| SwitchableTanks.SwitchableTank.OnTankTypeChange | ModuleSwitchableTank.cs:772-788 | in flight nothing changes but the restored type name. In the editor a different type is resolved anew. Either way every part resource but the old and the new one is kept (`OthersKept`) |
| SwitchableTanks.SwitchableTank.ResourcesValue | ModuleSwitchableTank.cs:221-257 | a plugged resource is valued from the part resource (`PluggedValue`). Otherwise the type's resource is valued in the tank's volume (`UnpluggedValue`), or 0 without a type |
| SwitchableTanks.SwitchableTank.ResourcesCost | ModuleSwitchableTank.cs:221-238 | `ResourcesValue` with unit cost |
| SwitchableTanks.SwitchableTank.ResourcesMass | ModuleSwitchableTank.cs:240-257 | `ResourcesValue` with density |
| SwitchableTanks.SwitchableTank.TankCost | ModuleSwitchableTank.cs:214-219 | the type's cost of the volume, 0 when no type resolves |
| SwitchableTanks.SwitchableTank.TankMass | ModuleSwitchableTank.cs:207-212 | the type's added mass of the volume, 0 when no type resolves |
| SwitchableTanks.SwitchableTank.OnStart | ModuleSwitchableTank.cs:271-290 | the other tanks are registered and the type resolved. A resource acquired is used by none of them, and every other part resource is unchanged |
| SwitchableTanks.SwitchableTank.AcquireAmong | ModuleSwitchableTank.cs:663-672 | a resource acquired is used by none of the given registered tanks |
| TankManagers.FreeFractionBounds | SwitchableTankManager.cs:104-112 | the free fraction of a positive volume the tanks fit is in [0, 1] |
| TankManagers.Shares | SwitchableTankManager.cs:366-382 | one share per child: the child's volume times the volume over the children's total |
| TankManagers.SharesSum | SwitchableTankManager.cs:366-382 | the shares `volume * v.Volume / V` of a configuration's children add up to the volume |
| TankManagers.ScaledAll | SwitchableTankManager.cs:473-476 | non-negative tank volumes rescaled one by one are all scaled, and so is their sum |
| TankManagers.RescaledWithinTotal | SwitchableTankManager.cs:471-477 | under the written loop the tanks never outgrow a volume they fit, whatever the factor |
| TankManagers.RescaleAsWrittenCounterexample | SwitchableTankManager.cs:475 | one tank filling volume 10, scaled by 2, stays at 10 under the written loop instead of 20 |
| TankManagers.AvailablePercentCounterexample | SwitchableTankManager.cs:104-112 | on a manager of volume 10 whose tanks use 5, the getter as written returns 5 and the corrected one the free fraction 0.5 |
| TankManagers.IdsOrdered | SwitchableTankManager.cs:315 | ids of the list are strictly increasing and bounded by `max_id` |
| TankManagers.IdsDistinct | SwitchableTankManager.cs:315 | increasing ids make the tanks distinct |
| TankManagers.AppendIds | SwitchableTankManager.cs:315-338 | a tank whose id exceeds the bound may be appended, its id becoming the new bound |
| TankManagers.RemoveAtIds | SwitchableTankManager.cs:421 | removing a tank keeps the ids increasing |
| TankManagers.RemoveAtRegistered | SwitchableTankManager.cs:421-422 | removing a tank keeps the others registered with each other |
| TankManagers.AppendRegistered | SwitchableTankManager.cs:329-338 | registering a newcomer with every tank and appending it keeps the registries complete and free of duplicates |
| TankManagers.UnregisteredAll | SwitchableTankManager.cs:422 | after unregistering, no registry holds the removed tank and the others stay complete |
| TankManagers.AppendResources | SwitchableTankManager.cs:338 | a tank whose resource no other tank manages keeps the resources distinct |
| TankManagers.RemoveAtResources | SwitchableTankManager.cs:421 | removing a tank keeps the resources distinct |
| TankManagers.SwitchableTankManager.GetTank | SwitchableTankManager.cs:152-155 | a tank found has the id and is in the list; none iff no tank has it |
| TankManagers.SwitchableTankManager.GetTankById | SwitchableTankManager.cs:152-155 | with increasing ids each tank is found by its own id |
| TankManagers.SwitchableTankManager.InvalidateCaches | SwitchableTankManager.cs:165-170 | all three caches become -1; tanks and the list invariant are kept |
| TankManagers.SwitchableTankManager.SetVolume | SwitchableTankManager.cs:78-86 | the volume is set and the caches are always invalidated |
| TankManagers.SwitchableTankManager.TanksVolume | SwitchableTankManager.cs:131-139 | the sum of the tanks' volumes; the caches stay consistent and the volumes unchanged |
| TankManagers.SwitchableTankManager.AvailableVolume | SwitchableTankManager.cs:94-102 | `Volume` less the tanks' volume, and the cache holds it |
| TankManagers.SwitchableTankManager.AvailableVolumePercentAsWritten | SwitchableTankManager.cs:104-112 | as written the getter returns the available volume, not the fraction |
| TankManagers.SwitchableTankManager.AvailableVolumePercent | SwitchableTankManager.cs:104-112 | the free fraction of the volume, in [0, 1] while the tanks fit a positive volume |
| TankManagers.SwitchableTankManager.ClampNewVolume | SwitchableTankManager.cs:172-178 | the request as `ClampedVolume` with the available volume |
| TankManagers.SwitchableTankManager.SetTankVolume | ModuleSwitchableTank.cs:578-587 | the tank at i gets `NewTankVolume` clamped by the available volume, with no other tank changing. A budget the tanks fit stays fitted. The tank's part resource gets the capacity of the new volume (`Refit`, by `WithMaxAmount`); the other part resources are untouched |
| TankManagers.SwitchableTankManager.RescaleTanksAsWritten | SwitchableTankManager.cs:471-477 | no change at all for a factor ≤ 0. Otherwise each tank asks for factor × volume through the clamp, in order (`RescaledFrom`), and the caches are dropped. Each tank's part resource is refitted to its new volume, in list order (`Refitted`) |
| TankManagers.SwitchableTankManager.RescaleTank | SwitchableTankManager.cs:475 | one loop step as intended: tank k gets its volume times the factor, floored at 0, and its part resource is refitted (`Refit`) |
| TankManagers.SwitchableTankManager.RescaleTanks | SwitchableTankManager.cs:471-477 | nothing changes for a factor ≤ 0. Otherwise every tank's volume is multiplied by the factor (floored at 0) and the caches are dropped. Each tank's part resource is refitted to its new volume (`Refitted`) |
| TankManagers.RefittedEach | ModuleSwitchableTank.cs:559-570 | after the refits, with distinct resources, the part resource of each tank has the capacity of that tank's volume, by `WithMaxAmount` from its old state |
| TankManagers.RefittedUnmanaged | ModuleSwitchableTank.cs:559-561 | a part resource that no tank manages is left as it was by the refits |
| TankManagers.SwitchableTankManager.NewTank | SwitchableTankManager.cs:308-328 | the new tank gets id `max_id+1`, which becomes `max_id`, with the type, volume (the part's when negative), filters and initial fill (editor only, clamped). It knows all tanks and its resource is used by none of them |
| TankManagers.SwitchableTankManager.AppendTank | SwitchableTankManager.cs:329-339 | the new tank is registered with all, appended and the caches dropped. The list invariant holds and the used volume grows by its volume |
| TankManagers.CheckValidators | SwitchableTankManager.cs:299-306 | true iff every validator returns an empty message for the type and volume |
| TankManagers.SwitchableTankManager.AddTank | SwitchableTankManager.cs:280-345 | succeeds iff the type is known and, unless forced, add/remove is enabled and every validator accepts. On failure nothing changes. On success one fresh tank with id `old max_id+1` is appended and the used volume grows by its volume. It has the requested type when one is named, and the initial fill (editor only, clamped) |
| TankManagers.SwitchableTankManager.AddConfiguration | SwitchableTankManager.cs:356-384 | succeeds iff (forced or enabled) and the configuration is valid. On failure nothing changes; otherwise only fresh tanks are appended, the old ones stay first |
| TankManagers.SwitchableTankManager.Release | SwitchableTankManager.cs:419-420 | the tank's resource goes back to the part iff `TryRemoveResource` succeeds, keeping the list invariant and used volume |
| TankManagers.SwitchableTankManager.DropTank | SwitchableTankManager.cs:421-424 | the tank leaves the list and every registry, the caches are dropped and the used volume shrinks by its volume |
| TankManagers.SwitchableTankManager.RemoveTank | SwitchableTankManager.cs:413-431 | succeeds iff enabled, the tank is listed and its resource can be removed. On failure nothing changes. On success the tank leaves the list and every registry, its resource leaves the part and the used volume shrinks by its volume |
| TankManagers.SwitchableTankManager.LoadConfiguration | SwitchableTankManager.cs:260-265 | the list is cleared and the configuration added, forced: succeeds iff it is valid, leaving only fresh tanks |
| TankManagers.SwitchableTankManager.LoadIdsAsWritten | SwitchableTankManager.cs:234-246 | the loop assigns the ids and the final `max_id` of `LoadedIds` from the old `max_id` |
| TankManagers.SwitchableTankManager.LoadIds | SwitchableTankManager.cs:234-246 | the same, with `max_id` first raised to the largest kept id |
| TankManagers.SwitchableTankManager.AddVolume | SwitchableTankManager.cs:393-401 | refused when add/remove is disabled. A configuration name adds the configuration (success iff valid); any other name, on success, appends one tank of that type after the old ones, at the requested volume (the part's when negative). Failure changes nothing |
| TankManagers.MaxReused | SwitchableTankManager.cs:239 | at least the old `max_id` and every kept id |
| TankManagers.LoadedIdsBounds | SwitchableTankManager.cs:236-246 | the final `max_id` bounds all ids, a kept id is the saved one, and a fresh id exceeds the starting `max_id` and every id handed out before it |
| TankManagers.LoadedIdsCollide | SwitchableTankManager.cs:236-246 | saved ids [7, 0] with only module 0 present give ids [0, 0] |
| TankManagers.LoadedIdsDistinct | SwitchableTankManager.cs:236-246 | with `max_id` raised first, distinct kept saved ids give distinct ids |
| ResourceTanks.Patch | AbstractResourceTank.cs:107 | the patched value `x + patch` is what `x` exceeds the default by, or 0 |
| ResourceTanks.ResourceTank.OnLoad | AbstractResourceTank.cs:85-89 | the save counts as the prefab's iff the game is loading |
| ResourceTanks.ResourceTank.GetModuleCost | AbstractResourceTank.cs:102-114 | a set flag computes the patch once from the current resources and clears the flag. The result is tank + (current for the prefab, else full) + patch; the first prefab call yields max(total − default, 0) |
| ResourceTanks.ResourceTank.GetModuleMass | AbstractResourceTank.cs:122-131 | the same one-shot patch from the tank's mass; the first call yields max(mass − default, 0) |
| ModuleTankManagers.ScaleFactor | ModuleTankManager.cs:177-181 | the relative factor unless it is 1 and the save came from the prefab, when the absolute factor is used. It is 1 iff no rescale is due |
| ModuleTankManagers.ModuleTankManager.SavedMeasure | ModuleTankManager.cs:30-60 | 0 without a save or once a manager exists, else the saved configuration's cost, mass or resources |
| ModuleTankManagers.ModuleTankManager.GetModuleCost | AbstractResourceTank.cs:102-114 | the module's cost is the saved configuration's cost, plus its resources' cost, plus the patch, taken from the saved cost and current resources once |
| ModuleTankManagers.ModuleTankManager.GetModuleMass | AbstractResourceTank.cs:122-131 | the module's mass is the saved configuration's added mass plus the one-shot patch |
| ModuleTankManagers.ModuleTankManager.OnLoad | ModuleTankManager.cs:111-118 | the node becomes the save, and the save counts as the prefab's iff loading or `MM_REINITIALIZE` |
| ModuleTankManagers.ModuleTankManager.InitFromPart | ModuleTankManager.cs:87-109 | an unknown resource disables the module and changes nothing else. Otherwise the save is the part's resources as tanks, the volume is their total, and only mass is patched |
| ModuleTankManagers.ModuleTankManager.InitTankManager | ModuleTankManager.cs:62-85 | no effect once a manager exists. Otherwise a fresh manager is loaded from the save at the module volume, and the volume becomes max(volume, used) on both. From then on the module adds no cost or mass |
| ModuleTankManagers.ModuleTankManager.OnStart | AbstractResourceTank.cs:91-97 | `init_from_part` runs only in flight with a prefab save; a manager exists afterwards |
| ModuleTankManagers.ModuleTankManager.SetVolume | ModuleTankManager.cs:150-159 | without a manager the volume is set. With one, both volumes become max(request, used) and the tanks are untouched |
| ModuleTankManagers.ModuleTankManager.Rescale | ModuleTankManager.cs:144-148 | the tanks are rescaled by the factor (not for a factor ≤ 0), then the volume becomes max(old × factor, used). With a positive factor each tank's part resource is refitted to its new volume (`Refitted`); otherwise the part's resources are unchanged |
| ModuleTankManagers.ModuleTankManager.OnPartVolumeChanged | ModuleTankManager.cs:164-170 | only "Tankage" acts. From a non-zero volume the module ends at the new volume, or at the used volume when that is more. A positive ratio refits the tanks' part resources, amounts following in the editor; otherwise the part's resources are unchanged |
| ModuleTankManagers.ModuleTankManager.OnPartScaleChanged | ModuleTankManager.cs:175-183 | a factor f ≠ 1 rescales the volume by f³, floored at the used volume, and refits the tanks' part resources without scaling amounts; f = 1 changes nothing |
| ModuleTankManagers.FloorVolume | ModuleTankManager.cs:152-156 | the manager's volume becomes max(request, used); the tanks are untouched |
| ModuleTankManagers.LoadManager | ModuleTankManager.cs:72-84 | the manager is loaded from the configuration and gets max(configured volume, used) |
| ModuleTankManagers.RescaleTanksOf | ModuleTankManager.cs:146 | every tank's volume is scaled by a positive factor and its part resource refitted (`Refitted`); other factors change nothing |
| ModuleTankManagers.RescaledFits | ModuleTankManager.cs:144-159 | when non-negative tanks fit the volume and the factor is positive, the floor does not bite: the volume is scaled exactly |
| ModuleTankManagers.RatioRestores | ModuleTankManager.cs:169 | a non-zero volume times newTotal/volume is newTotal |

## Left out

- Cryogenics (boiloff, active cooling), all UI code, info strings and
  formatting: thermal numerics, widgets and text. None of them touches the
  bookkeeping.
- `ConfigNode` parsing, saving and file persistence (`Save`, `OnSave`,
  `save_user_configs`), `FromConfig`, and the `name`/`Volume` values the
  module writes into its save. A save is modelled as the configuration it
  describes. `VolumeConfiguration.Load` gets its child nodes already
  parsed, with the preset lookup as a function.
- Symmetry counterparts (`update_symmetry_managers`), events
  (`onTankAdded`, `onTankRemoved`, `onTankFailedToAdd`, `SendEvent`),
  messages, logging, `UpdatePartMenu` and coroutines: host plumbing.
- `EnablePartControls`, `init_type_control` and the other control setup in
  the tanks' and the module's `OnStart`: UI state.
- `AddTankConfig` and `RemoveTankConfig` of the manager: they serialize the
  manager through `Save` and a `ConfigNode`, which is not part of this
  model. The library operations they call (`AddOrSave`, `RemoveConfig`)
  are modelled.
- `init_supported_types` as a stored list. The filtering it runs
  (`TankTypeNames`, `AllConfigNames`) is modelled.
- The tank's own `init_from_part`, `OnLoad`, and its `OnPartVolumeChanged`
  and `OnPartScaleChanged` for tanks without a manager: they are not part
  of this model.
- `part.AddModule` never fails here, and `OnStart` of a new tank never
  throws. The failure branches of `AddTank` on those host errors are
  therefore not modelled.
- Float rounding, `float.Parse` and the float/double conversions: all
  quantities are reals. A division by zero, which yields infinity or NaN
  in the source, is 0 here (`Ratio`); `VolumeForResourceAmount` keeps its
  explicit infinity.
- A tank's `manager` reference is not a field. `SetVolume` takes the
  manager's available volume as a parameter, and the manager invalidates
  its caches after it.
- The part's resource list and `FindTankType` are parameters of
  `init_from_part`; the scene flags are booleans.
- TankManagers.SwitchableTankManager.LoadConfiguration: only the
  non-MANAGED branch of `Load` rebuilds tanks. The MANAGED branch is
  modelled for its id assignment (`LoadIds`) only: reading tank modules
  from their saved nodes is `ConfigNode` work that is not part of this
  model. The manager's include/exclude filters are not read from the save
  either.
- TankManagers.SwitchableTankManager.AddConfiguration: states success,
  failure and that only fresh tanks are appended. The volume each child
  gets (`volume * v.Volume / V`) is computed in the body and proved to add
  up in `SharesSum`, but is not repeated in the contract.
- ModuleTankManagers.RescaleTanksOf: scales every tank by the corrected
  `RescaleTanks` (see Findings), not by the clamped loop as written that
  ModuleTankManager.cs:146 calls; `RescaleTanksAsWritten` models that loop.
  When the tanks fill the manager and the factor is above 1 the two
  differ; the contract states the corrected scaling.
- ModuleTankManagers.ModuleTankManager.Rescale: rescales the tanks with
  the corrected `RescaleTanks` through `RescaleTanksOf` (see Findings), and takes the target volume
  before the tanks change. The source reads `Volume` after the tank call,
  which leaves it unchanged, so this is the same value.
- ModuleTankManagers.ModuleTankManager.OnPartVolumeChanged: from a zero
  volume the ratio is 0 here (infinite in the source), so the contract
  says nothing about the resulting volume in that case.
- Key order: the sorted libraries order their keys ordinally here, while
  the source's `SortedList` uses the culture-sensitive default string
  comparer. Which entry is first (`DefaultResource`, `FirstSupported`) and
  the order of `TankTypeNames` and `AllConfigNames` may differ for names
  whose ordinal and culture orders disagree.
- SwitchableTanks.SwitchableTank.FirstSupported: an empty list of
  supported types gives the empty name here, after which the type lookup
  fails and the tank stays without a type; the source's `[0]` throws.
- Volumes.FromResource: a tank type that is found but does not hold the
  part's resource gives None here, so `FromResources` finds no
  configuration; the source's resource indexer throws
  `KeyNotFoundException`.
- SwitchableTanks.SwitchableTank.ForceSwitchResource: `FindTankType` is
  the parameter `find`, and the model requires that a type it returns is
  registered in the library under its own non-empty name and holds the
  resource. The source trusts the same of its global type registry.
- SwitchableTanks.SwitchableTank.ForceSwitchResource: "after the switch
  the tank remains empty" is promised only for a resource that is added
  to the part after an earlier switch. The code keeps the amount of a
  resource already on the part. On a tank's first resource (no previous
  one), `init_resource` gives it the initial fill.
- The part's switchable-tank modules are taken to be exactly the
  manager's tanks: `OnStart` of a tank gets the manager's list as the
  other tanks, where the source collects every `ModuleSwitchableTank` of
  the part. Distinct resources are therefore proved among the manager's
  tanks only.

## Findings

| source | as written | input that shows it | evidently intended | confidence | as-written member | corrected member |
|---|---|---|---|---|---|---|
| SwitchableTankManager.cs:104-112 | `AvailableVolumePercent` caches the fraction but returns `availableVolume` | volume 10 with 5 used: the getter returns 5 | the free fraction, 0.5 | not executed; high | TankManagers.SwitchableTankManager.AvailableVolumePercentAsWritten, TankManagers.AvailablePercentCounterexample | TankManagers.SwitchableTankManager.AvailableVolumePercent |
| VolumeConfigsLibrary.cs:140-162 | with filter types, lists the configurations that DO contain a filter (excluded) type | exclude ["A"], preset "C" holding one tank of type "A": "C" is listed | list the configurations that contain none of the excluded types | not executed; medium | ConfigsLibrary.VolumeConfigsLibrary.AllConfigNamesAsWritten, ConfigsLibrary.AsWrittenListsExcludedConfig | ConfigsLibrary.VolumeConfigsLibrary.AllConfigNames, ConfigsLibrary.AllConfigNamesFiltered |
| SwitchableTankManager.cs:471-477 | each tank's `SetVolume` is clamped by the manager's free volume, so tanks that fill the manager cannot grow | one tank of 10 in a volume of 10, scale 2: the tank stays at 10 | every tank scaled by the factor, as the doc comment says | not executed; medium | TankManagers.SwitchableTankManager.RescaleTanksAsWritten, TankManagers.RescaleAsWrittenCounterexample | TankManagers.SwitchableTankManager.RescaleTanks, TankManagers.ScaledAll |
| SwitchableTankManager.cs:236-246 | a node that creates a module takes `++max_id` before later nodes raise `max_id` to the ids they keep | saved ids [7, 0], existing module 0, `max_id` -1: both tanks get id 0 | new ids above every kept id, so ids stay distinct | not executed; medium | TankManagers.SwitchableTankManager.LoadIdsAsWritten, TankManagers.LoadedIdsCollide | TankManagers.SwitchableTankManager.LoadIds, TankManagers.LoadedIdsDistinct |
