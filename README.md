# GTFO overlay: quest markers and power switches

A Dafny model of the two parts of the GTFO overlay plugin that hold real
selection rules:

- **Quest marker collection** (`QuestDataService`). `ReloadQuestData` walks the
  player's quests. It keeps the started ones and reads only their
  available-for-finish conditions. For each condition kind it builds one
  `QuestData` marker per matching place-item trigger, experience trigger or
  quest loot item. The finished list then replaces `QuestMarkers`.
  `TraderIdToName` turns a trader id into a display name: a case-insensitive,
  first-match chain of ids with a localisation fallback.
- **Power-switch selection** (`PowerSwitchManager`). `Initialize` clears the
  switch list and refills it with the scanned switches that pass a six-part
  test. `Deinitialize` empties it. `currentlyTriggered` says whether a switch
  is open or being worked.

Modules:

- `Wrappers`: null-or-value (`Option`) and returned-or-threw (`Outcome`).
- `Seqs`: `Flatten` (the list a `foreach` of `Add`s builds) and `Filter`, with their lemmas.
- `Text`: ASCII case folding, ignore-case equality and substring search.
- `Traders`: `TraderIdToName` and its trader table.
- `Quests`: the quest records, the marker list as functions, one method per loop level of `ReloadQuestData`, and the `QuestDataService` class.
- `PowerSwitches`: the switch record, the selection test and the `PowerSwitchManager` class.

Each loop of `ReloadQuestData` is a method. Its loop invariant and its
postcondition tie the list built so far to the specification function of that
level (`ZoneMarkers`, `FindItemMarkers`, `ConditionMarkers`, `QuestMarkers`,
`CollectMarkers`). Lemmas then prove the properties of those functions.

Some inputs are parameters rather than part of the model:

- what the source reaches by reflection: the quest list, the loot list, and a counter's sub-condition list;
- the game's `Localized` extension and the `GetZoneTriggers<T>` zone search, as function-valued parameters. The model takes both to be total and deterministic; a throw from either is not modelled;
- the scene scan `GameObject.FindObjectsOfType<Switch>()`;
- the game world.

The code disagrees with itself on one point, and the model follows the code.
`ReloadQuestData` tests `questsList != null` at Quest/QuestDataService.cs:38.
Before that test, line 34 calls `Where` on the loot list and line 36 reads
`questsList.Count`. So a null loot list or a null quest list throws before the
test is reached, and `QuestMarkers` keeps its old value. It never becomes an
empty list. `ReloadQuestData` models both throws (`ReloadError`).

`TraderIdToName` tests id `54cb50c76803fa8b248b4571` twice: first for
"Prapor", and last for "Lighthouse Keeper ". Since the first match wins, the
last branch is dead (`Traders.LighthouseKeeperUnreachable`). The model keeps
the chain as written.

## Model

| member | source | states |
|---|---|---|
| `Quests.QuestDataService.constructor` | Quest/QuestDataService.cs:13 | `QuestMarkers` is empty before the first reload |
| `Quests.QuestDataService.ReloadQuestData` | Quest/QuestDataService.cs:16-315 | a null loot list or a null quest list throws and leaves `QuestMarkers` unchanged; otherwise `QuestMarkers` is replaced wholesale by the list built from the quests, whatever it held before |
| `Quests.BuildMarkers` | Quest/QuestDataService.cs:38-48 | the loop over quests skips those not started and yields exactly `CollectMarkers`, in quest order |
| `Quests.AppendQuestMarkers` | Quest/QuestDataService.cs:50-60 | for a started quest, appends the markers of its available-for-finish conditions, in condition order |
| `Quests.AppendConditionMarkers` | Quest/QuestDataService.cs:68-309 | the switch on the condition kind appends exactly that condition's markers; unhandled kinds and counters with a null list append nothing |
| `Quests.AppendZoneMarkers` | Quest/QuestDataService.cs:78-95 | the loop over the triggers of a zone appends one marker per trigger, none for a null result |
| `Quests.AppendFindItemMarkers` | Quest/QuestDataService.cs:144-163 | the loop over target ids appends the find-item markers of every target, in target order |
| `Quests.AppendTargetMarkers` | Quest/QuestDataService.cs:146-162 | the loop over quest items appends a marker for each item whose id equals the target ignoring case, in item order |
| `Quests.AppendCounterMarkers` | Quest/QuestDataService.cs:204-293 | the loop over a counter's sub-conditions appends the markers of each visit-place and in-zone sub-condition, in order |
| `Quests.AppendInZoneMarkers` | Quest/QuestDataService.cs:261-284 | the loop over the listed zone ids appends the markers of each zone's experience triggers, in zone order |
| `Quests.ToQuestLocation` | Quest/QuestDataService.cs:317-320 | the marker location reads back as the original vector: all three coordinates are copied |
| `Quests.ToQuestLocationInjective` | Quest/QuestDataService.cs:317-320 | the marker location copies all three coordinates: equal locations iff equal vectors |
| `Quests.ZoneMarkersOnePerTrigger` | Quest/QuestDataService.cs:78-95 | exactly one marker per trigger found, in trigger order, at that trigger's position; none for a null result |
| `Quests.ZoneMarkersMember` | Quest/QuestDataService.cs:78-95 | a marker of a zone is one stamped at a trigger found for that zone, and each such marker is there |
| `Quests.PlaceItemConditionMarkers` | Quest/QuestDataService.cs:70-135 | a leave-item or place-beacon condition gives one marker per place-item trigger of its zone; each has the condition's id, zone, necessity flag and localised id as description, the quest's name and trader, and the trigger's position; a null trigger set gives none |
| `Quests.FindItemMarkersMatchPairs` | Quest/QuestDataService.cs:144-162 | a find-item marker exists iff there is a (target id, item) pair whose ids agree ignoring case, placed at that item |
| `Quests.FindItemMarkerCount` | Quest/QuestDataService.cs:144-162 | the number of find-item markers is the number of matching (target id, item) pairs |
| `Quests.TargetMarkerCount` | Quest/QuestDataService.cs:146-162 | one target id yields as many markers as there are items matching it ignoring case |
| `Quests.QuestItems` | Quest/QuestDataService.cs:33-34 | the `questItems` array holds no more entries than the loot list, each a loot entry whose item is a quest item |
| `Quests.FindItemConditionMarkers` | Quest/QuestDataService.cs:33-34 | only loot whose item is a quest item is matched: a find-item condition's markers are exactly those for loot with `QuestItem` set and a template id equal to a target ignoring case, with no zone id |
| `Quests.InZoneMarkerCount` | Quest/QuestDataService.cs:261-284 | an in-zone sub-condition yields as many markers as the experience triggers found over all listed zones |
| `Quests.InZoneMarkers` | Quest/QuestDataService.cs:253-290 | an in-zone marker exists iff some listed zone has an experience trigger; it has the counter's id, that zone, the sub-condition's necessity flag and the counter's localised id as description; one per trigger per zone |
| `Quests.VisitPlaceMarkers` | Quest/QuestDataService.cs:218-252 | a visit-place sub-condition gives one marker per experience trigger of `place.target`, with `place.id` as id, the target as zone and the counter's localised id as description; none for a null result |
| `Quests.UnhandledConditionsAddNothing` | Quest/QuestDataService.cs:68-309 | dropping conditions of unhandled kinds, and counters whose sub-condition list is null, changes no marker |
| `Quests.UnhandledSubConditionsAddNothing` | Quest/QuestDataService.cs:216-292 | sub-conditions other than visit-place and in-zone add nothing |
| `Quests.NullSubConditionsSkipOnlyThatCondition` | Quest/QuestDataService.cs:195-199 | a counter with a null sub-condition list is skipped; the conditions before and after it contribute as they would without it |
| `Quests.OnlyStartedQuestsContribute` | Quest/QuestDataService.cs:45-48 | the markers of a quest list are those of its started quests alone |
| `Quests.OnlyAvailableForFinishConditionsRead` | Quest/QuestDataService.cs:50-60 | two quests that agree on status, name key, trader and available-for-finish conditions have the same markers, whatever their other conditions |
| `Quests.CollectMarkersInQuestOrder` | Quest/QuestDataService.cs:40-311 | markers come in quest order: the markers of `a + b` are those of `a` followed by those of `b` |
| `Quests.ConditionMarkersShareContext` | Quest/QuestDataService.cs:68-309 | every marker of a condition carries its quest's localised name and trader name |
| `Quests.SubConditionMarkersShareContext` | Quest/QuestDataService.cs:216-292 | every marker of a sub-condition carries its quest's localised name and trader name |
| `Quests.MarkersComeFromStartedQuests` | Quest/QuestDataService.cs:40-311 | every marker comes from a started quest, with that quest's localised name key as `NameText` and `TraderIdToName` of its trader id as `Trader` |
| `Traders.TraderIdToName` | Quest/QuestDataService.cs:322-375 | the name is one of the eight traders' names (never "Lighthouse Keeper ") unless it is the localisation of the id |
| `Traders.FirstMatch` | Quest/QuestDataService.cs:322-375 | the chosen entry equals the id ignoring case and no earlier entry does; no entry is chosen only if none equals it |
| `Traders.TraderIdToNameIsFirstMatch` | Quest/QuestDataService.cs:322-375 | the if-chain is the first-match lookup of the id in the trader table, with the localisation as fallback |
| `Traders.LookupLastFive` | Quest/QuestDataService.cs:349-374 | the last five tests of the chain are the lookup in the last five table entries |
| `Traders.ShadowedEntryNeverMatches` | Quest/QuestDataService.cs:369-372 | an entry whose id equals an earlier entry's id ignoring case is never the first match |
| `Traders.LighthouseKeeperUnreachable` | Quest/QuestDataService.cs:369-372 | the "Lighthouse Keeper " entry is never the first match, so that name comes back only if the localisation of the id yields it |
| `Traders.TraderIdsDistinct` | Quest/QuestDataService.cs:324-366 | the ids of the first nine tests differ pairwise ignoring case |
| `Traders.KnownTraderName` | Quest/QuestDataService.cs:324-367 | each of the first nine ids, in any letter case, gives the name paired with it |
| `Traders.PraporIds` | Quest/QuestDataService.cs:329-367 | both "54cb50c76803fa8b248b4571" and "638f541a29ffd1183d187f57", in any letter case, give "Prapor" |
| `Traders.UnknownTraderIsLocalized` | Quest/QuestDataService.cs:374 | an id that matches no entry gives its localisation |
| `Text.Lower` | PowerSwitches/PowerSwitchManager.cs:43-44 | `ToLower` keeps the length, leaves no capital letter, turns each capital into the same letter in small, and keeps every other character |
| `Text.EqualsIgnoreCase` | Quest/QuestDataService.cs:148 | two strings are equal ignoring case iff their lower-cased forms are equal |
| `Text.Contains` | PowerSwitches/PowerSwitchManager.cs:43-44 | the scan over start positions finds the substring iff it occurs at some index |
| `PowerSwitches.PowerSwitchManager.constructor` | PowerSwitches/PowerSwitchManager.cs:12 | the switch list starts empty |
| `PowerSwitches.PowerSwitchManager.Initialize` | PowerSwitches/PowerSwitchManager.cs:14-20 | a null game world throws before the list or the world is touched; otherwise the list is cleared and then holds exactly the selected scanned switches, so nothing from an earlier round survives |
| `PowerSwitches.PowerSwitchManager.Deinitialize` | PowerSwitches/PowerSwitchManager.cs:21-27 | the list is empty afterwards |
| `PowerSwitches.PowerSwitchManager.SetupInitialPowerSwitches` | PowerSwitches/PowerSwitchManager.cs:28-52 | appends to the list, in scan order, exactly the scanned switches that pass the six-part test |
| `PowerSwitches.IsInitialPowerSwitch` | PowerSwitches/PowerSwitchManager.cs:39-45 | a switch that passes the six-part test is not triggered, and neither "reset" nor "node" occurs anywhere in its lower-cased name |
| `PowerSwitches.InitialPowerSwitches` | PowerSwitches/PowerSwitchManager.cs:36-48 | the selection is no longer than the scan, and each switch in it is a scanned switch that passes the test |
| `PowerSwitches.InitialPowerSwitchesExactly` | PowerSwitches/PowerSwitchManager.cs:36-48 | a switch is kept exactly as often as the scan holds it when it has authority, is operatable, has no previous switch, is shut and has neither "reset" nor "node" in its lower-cased name; never otherwise |
| `PowerSwitches.InitialPowerSwitchesInScanOrder` | PowerSwitches/PowerSwitchManager.cs:36-48 | the selected list is a subsequence of the scan |
| `PowerSwitches.CurrentlyTriggered` | PowerSwitches/PowerSwitchManager.cs:54-62 | a switch is not triggered exactly when its door state is None, Locked, Shut or Breaching, so it is triggered iff it is Open or Interacting |
| `PowerSwitches.InitialPowerSwitchesNotTriggered` | PowerSwitches/PowerSwitchManager.cs:54-62 | no switch selected at initialisation is triggered at that moment, since each is shut |

## Left out

- Reflection (`Traverse.Create(...).Field(...)`, Quest/QuestDataService.cs:24-31 and 179-193): its results are parameters. A null quest controller or quest collection shows up as a null quest list.
- `Localized` and `GetZoneTriggers<T>` are not part of this model. They are function-valued parameters, so the model takes each to be total, deterministic and free of throws.
- `ContextOf`: the source calls `nameKey.Localized()` and `TraderIdToName(traderId)` once per marker; the model computes them once per quest, which agrees because `Localized` is taken to be deterministic.
- A throw from `GetZoneTriggers<T>` (Quest/QuestDataService.cs:73 and 106) or from `Localized` in the leave-item, place-beacon or find-item case is not modelled. It would escape `ReloadQuestData` and leave `QuestMarkers` unchanged. In the counter case the catch at line 300 would swallow it.
- Null strings and null list elements cannot be written in the model. As written, a null `traderId` throws at Quest/QuestDataService.cs:324, a null loot template id throws at line 148, and a null quest in the list throws at line 45. A null condition matches no case of the switch at line 68 and adds nothing. A null target id makes the `Equals` at line 148 false, so it gives no marker.
- Positions are single-precision floats; the model carries their bit patterns and only copies them.
- Logging and the `#if DEBUG` blocks.
- The `catch` at Quest/QuestDataService.cs:300-304, and null `target` and `zoneIds` arrays. The model takes those arrays as non-null. As written, a null `target` array throws out of `ReloadQuestData` and leaves `QuestMarkers` unchanged. A null `zoneIds` array is caught: the markers already appended remain, and the rest of that counter's sub-conditions are skipped.
- A null quest template, or a template without an available-for-finish entry: the per-status condition table is a total function.
- The scene scan `GameObject.FindObjectsOfType<Switch>()`: the scanned switches are a parameter.
- `PowerSwitchManager` is a static class; the model makes it one object with the same two fields. `QuestDataService`'s `gameWorld` and `player` fields only feed the reflection and are left out.
- Culture-sensitive `ToLower` and the invariant-culture and ordinal ignore-case comparisons are modelled as ASCII case folding.
- GUIHelper.cs, Component.cs, Plugin.cs, Quest/QuestManager.cs, Quest/TryNotifyConditionChangedPatch.cs and Quest/SpecialPlaceVisitedPatch.cs are not part of this model. They hold overlay drawing, Unity lifecycle, configuration, forwarding to `ReloadQuestData`, and hooks into private game methods.
