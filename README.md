# RPG Maker MZ region rules, text macros and extra windows

This project is a Dafny model of three RPG Maker MZ plugins, with proofs about it.

- **RegionBase.js** attaches rules to map regions and terrain tags. A rule can carry directional collision, a "through" flag, tile attributes (ladder, bush, counter, damage floor), common events and a switch. It can also carry traits taken from a database class.
  - `region_data.dfy` models the rule record and the two sparse tables built when the data loads.
  - `region_map.dfy` models the `Game_Map` queries: rule lookup per tile, region-then-terrain combination, the collision test, the passability policy and tile flags.
  - `region_player.dfy` models the `Game_Player` stop handling, which queues common events, toggles switches and remembers the previous rule. It also models the trait objects a tile adds to an actor.
- **TextScriptBase.js** keeps a database of texts.
  - `text_base.dfy` models the configured text list, looked up by identifier and then by 1-based index through `parseInt`. It also models the override store in `Game_System` and the lookup of `getTextBase`.
  - `text_escape.dfy` models the two-step backslash/ESC rewrite that `getTextBase` applies.
  - `text_macro.dfy` models the single-pass expansion of the `ESC TX[id]` control code.
- **ExtraWindow.js** adds configured windows to scenes. `extra_window.dfy` models choosing the windows for a scene and the automatic height, which is written back into the configuration entry. It also models the `Window_SceneExtra` openness rule, its switch-gated validity and its redraw cache.

`common.dfy` holds `Option`, `Result` and the switch store.

The host engine appears as parameters:
- the per-tile `regionId`/`terrainTag` functions, inside the `GameMap` datatype;
- the engine's own passability and tile-flag answers, as booleans;
- `$gameSwitches`, as a `map<int, bool>`;
- `$dataClasses`, as a map from class id to traits;
- `setupDynamicCommon`, as a queue of common-event ids held by the `Player` class;
- `windowPadding()`, `convertEscapeCharacters` and the inherited `lineHeight()`, as arguments.

In two places the plugin's own help text or a reader's expectation differs from what the code does; the model follows the code.
- The help text of RegionBase.js (lines 42-43) says that an entry with index [0] reads as undefined. But `setupRegionData` stores every record at `dataList[item.id]` (RegionBase.js:469-470), so a rule configured with id 0 is stored under key 0, and region 0 can carry a rule.
- `_prevRegion` and `_prevTerrainTags` are written only by `updateCurrentRegion` and `updateCurrentTerrainTags` (RegionBase.js:513-523). Nothing clears them on a map transfer, so the first stop on a new map is compared with the last rule of the previous map. The model keeps them across maps in the same way.

## Model

| member | source | states |
|---|---|---|
| RegionData.AttachTraits | Test/js/plugins/RegionBase.js:471-474 | traits are attached exactly when the class table has the record's `traitsId`; otherwise the record is unchanged, and no other field ever changes |
| RegionData.BuildTable | Test/js/plugins/RegionBase.js:469-475 | every key of the built table holds a record with that id, and the keys are exactly the configured ids |
| RegionData.BuildTableLastWins | Test/js/plugins/RegionBase.js:469-470 | the record stored under a configured id is the last list entry with that id (traits attached); no later entry has that id |
| RegionData.SetupRegionData | Test/js/plugins/RegionBase.js:463-477 | a parameter that is not an array gives an empty table; otherwise the loop builds exactly `BuildTable` of the list |
| RegionData.DataSystem.OnLoad | Test/js/plugins/RegionBase.js:454-461 | both tables are built on the first load at which the class data exists; once built, or while classes are missing, nothing changes |
| RegionMap.Lookup | Test/js/plugins/RegionBase.js:655-661 | an id with no table entry resolves to absent; a present id resolves to its stored record |
| RegionMap.FindCurrentRegion | Test/js/plugins/RegionBase.js:655-657 | a tile's region rule is present iff the region table has an entry for the tile's region id, and it is that entry |
| RegionMap.FindCurrentTerrainTag | Test/js/plugins/RegionBase.js:659-661 | a tile's terrain rule is present iff the terrain table has an entry for the tile's terrain tag, and it is that entry |
| RegionMap.FindArrayDataRegionAndTerrain | Test/js/plugins/RegionBase.js:635-641 | the result is the region's list followed by the terrain tag's list, an absent record giving `[]`; a value is in it iff it is in either present record's list |
| RegionMap.FindDataRegionAndTerrain | Test/js/plugins/RegionBase.js:643-653 | a truthy region value wins; otherwise a truthy terrain value; otherwise `null`; a returned value is always truthy |
| RegionMap.IsThroughByRegion | Test/js/plugins/RegionBase.js:611-613 | true iff the region or the terrain tag of the tile has `through` set |
| RegionMap.FindCollisionData | Test/js/plugins/RegionBase.js:492-498 | a flag is in the subject's list iff it is in the subject's own list (`collisionForPlayer` or `collisionForEvent`) of the tile's region rule or of its terrain rule |
| RegionMap.IsCollidedByRegion | Test/js/plugins/RegionBase.js:599-609 | for the subject's own list (player: `collisionForPlayer`, event: `collisionForEvent`), true iff some flag blocks direction `d` (all; up 8; right 6; left 4; down 2); an empty list never collides |
| RegionMap.IsPassable | Test/js/plugins/RegionBase.js:587-597 | passable iff not collided and (through or the engine's answer) |
| RegionMap.CollisionAllBeatsThrough | Test/js/plugins/RegionBase.js:587-609 | a region whose subject list holds `collision_all` is impassable in every direction, whatever `through` and the engine say |
| RegionMap.FlagAttribute | Test/js/plugins/RegionBase.js:622-631 | exactly the bits 0x20, 0x40, 0x80 and 0x100 name a tile attribute |
| RegionMap.CheckLayeredTilesFlags | Test/js/plugins/RegionBase.js:615-633 | true when the engine says so; otherwise true iff the bit names an attribute present in the combined `tileAttribute` list; other bits give false |
| RegionPlayer.ArrivalEventsMembership | Test/js/plugins/RegionBase.js:531-537 | an id is queued from the current record iff one of its events has that id and trigger 0 with a changed id, or trigger 1 |
| RegionPlayer.DepartureEventsMembership | Test/js/plugins/RegionBase.js:538-542 | an id is queued from the previous record iff one of its events has that id, trigger 2, and the id changed |
| RegionPlayer.UnchangedIdRunsOnlyWhileInside | Test/js/plugins/RegionBase.js:530-543 | with no id change the current record queues exactly its trigger-1 events, in order, and the previous record queues nothing |
| RegionPlayer.ChangedIdRunsLeaveEvents | Test/js/plugins/RegionBase.js:538-542 | with an id change the previous record queues exactly its trigger-2 events, in order |
| RegionPlayer.SwitchesAfterStop | Test/js/plugins/RegionBase.js:545-554 | with no id change the switches are unchanged; otherwise the previous record's switch (> 0) ends OFF, and the current one's ends ON unless it is the same switch; no other switch changes |
| RegionPlayer.StopWithoutIdChange | Test/js/plugins/RegionBase.js:525-554 | a stop on the same rule queues only the while-inside events and changes no switch |
| RegionPlayer.StopWithIdChange | Test/js/plugins/RegionBase.js:525-543 | a stop on a new rule queues an id iff it is an enter or while-inside event of the new rule or a leave event of the old one |
| RegionPlayer.TileTraitObjects | Test/js/plugins/RegionBase.js:560-567 | one entry for the region rule iff it exists and has traits, one for the terrain rule iff it exists and has traits; the region's first and the terrain's last |
| RegionPlayer.AppendRegionTraits | Test/js/plugins/RegionBase.js:556-569 | with no active map the list is returned untouched; on an active map it is the list followed by exactly `TileTraitObjects` of the tile: its length grows by the number of rules with traits, the region's rule right after the old list and the terrain's rule last |
| RegionPlayer.Player.QueueArrivalEvents | Test/js/plugins/RegionBase.js:531-537 | the loop appends to the queue exactly the arrival events, in list order |
| RegionPlayer.Player.QueueDepartureEvents | Test/js/plugins/RegionBase.js:538-542 | the loop appends to the queue exactly the departure events, in list order |
| RegionPlayer.Player.CheckRegionCommonTrigger | Test/js/plugins/RegionBase.js:530-543 | the queue grows by the current record's events and then the previous record's |
| RegionPlayer.Player.CheckRegionSwitch | Test/js/plugins/RegionBase.js:545-554 | the switch store becomes `SwitchesAfterStop` of the old store |
| RegionPlayer.Player.UpdateCurrentRegionAndTerrain | Test/js/plugins/RegionBase.js:525-528 | events are queued, then switches set, each absent record read as `{}` |
| RegionPlayer.Player.UpdateCurrentRegion | Test/js/plugins/RegionBase.js:513-517 | the region becomes the tile's rule and also the remembered one, after events and switches were processed against the old remembered rule |
| RegionPlayer.Player.UpdateCurrentTerrainTags | Test/js/plugins/RegionBase.js:519-523 | the same for the terrain-tag axis |
| RegionPlayer.Player.Update | Test/js/plugins/RegionBase.js:503-511 | only a moving-to-stopped transition changes anything; then the region axis and then the terrain axis are processed |
| TextEscape.EscapeBackslashes | Test/js/plugins/TextScriptBase.js:270 | every backslash becomes ESC and every other character is kept, at the same position |
| TextEscape.RewriteEscapes | Test/js/plugins/TextScriptBase.js:270-271 | the rewritten text is never longer than the input |
| TextEscape.CollapseEscPairs | Test/js/plugins/TextScriptBase.js:271 | replacing each ESC ESC pair by a backslash never lengthens the text |
| TextEscape.CollapseLeavesNoEscPair | Test/js/plugins/TextScriptBase.js:271 | after the pair collapse no two ESC are adjacent, and an ESC at the front comes from a lone ESC |
| TextEscape.RewriteLeavesNoEscPair | Test/js/plugins/TextScriptBase.js:270-271 | the rewritten text never holds two adjacent ESC |
| TextEscape.CollapseEscRun | Test/js/plugins/TextScriptBase.js:271 | a run of k ESC collapses, left to right, to ⌊k/2⌋ backslashes plus one ESC when k is odd |
| TextEscape.BackslashRun | Test/js/plugins/TextScriptBase.js:270-271 | a run of k backslashes becomes ⌊k/2⌋ backslashes plus one ESC when k is odd, and the rest is rewritten independently |
| TextEscape.RewriteLeavesPlainText | Test/js/plugins/TextScriptBase.js:270-271 | text with neither backslash nor ESC is returned unchanged |
| TextEscape.RewriteUndoesDoubling | Test/js/plugins/TextScriptBase.js:270-271 | a text written with every backslash doubled reads back as the text itself: `\\` is one literal backslash |
| TextBase.FirstWithId | Test/js/plugins/TextScriptBase.js:276 | the index returned holds the identifier and no earlier item does; absent iff no item holds it |
| TextBase.ParseUnsigned | Test/js/plugins/TextScriptBase.js:278 | a number is read iff a digit follows the optional `0x`/`0X` prefix (a hexadecimal one after the prefix, a decimal one otherwise) |
| TextBase.ParseInt | Test/js/plugins/TextScriptBase.js:278 | a number needs something after the leading white space; a negative number needs `-` as the first character after it; text whose first non-blank character is a digit is read unsigned (`ParseUnsigned`). The digit and round-trip properties are the lemmas `ParseIntNeedsDigit` and `ParseIntDecimalString` |
| TextBase.ParseIntNeedsDigit | Test/js/plugins/TextScriptBase.js:278 | a number is read only from text holding a decimal digit, and a negative one only from text holding `-` |
| TextBase.ParseIntDecimalString | Test/js/plugins/TextScriptBase.js:278 | `parseInt` of the decimal numeral of n is n |
| TextBase.FindTextParam | Test/js/plugins/TextScriptBase.js:275-284 | the first item with the identifier wins; if none, the item at 1-based position `parseInt(id)` when in range; otherwise the not-found error; a missing `Text` gives `''` |
| TextBase.FindTextParamByIndex | Test/js/plugins/TextScriptBase.js:277-279 | an unused identifier written as the numeral k (1 ≤ k ≤ length) selects the k-th item |
| TextBase.FindTextParamMissing | Test/js/plugins/TextScriptBase.js:280-282 | an unused identifier that `parseInt` reads as NaN raises the not-found error |
| TextBase.TextBaseLookup | Test/js/plugins/TextScriptBase.js:265-273 | a non-empty override is used, otherwise the configured list; a found text is returned rewritten, an error passes through |
| TextBase.SetThenGet | Test/js/plugins/TextScriptBase.js:258-273 | after storing a non-empty text under an id, looking that id up returns the text, rewritten |
| TextBase.SetEmptyFallsBack | Test/js/plugins/TextScriptBase.js:269 | an empty override falls back to the configured list |
| TextBase.SetLeavesOthers | Test/js/plugins/TextScriptBase.js:258-263 | storing under one id leaves every other id's lookup unchanged |
| TextBase.GameSystem.SetTextBase | Test/js/plugins/TextScriptBase.js:258-263 | the store exists afterwards and maps the id to the text, all other entries kept |
| TextBase.GameSystem.GetTextBase | Test/js/plugins/TextScriptBase.js:265-273 | the store exists afterwards with its contents unchanged, and the result is `TextBaseLookup` of the old store |
| TextMacro.LookupWithoutSystemSkipsRewrite | Test/js/plugins/TextScriptBase.js:240-242 | without a game system a configured text is used as written; through the game system the same text has its doubled backslashes undone |
| TextMacro.LookupTx | Test/js/plugins/TextScriptBase.js:241 | the lookup fails iff no non-empty override exists and the configured list has no such text, and then with the not-found error for that id; without a game system a found text is the configured one, not rewritten |
| TextMacro.ExpandTx | Test/js/plugins/TextScriptBase.js:240-242 | the conversion fails only when a TX code begins somewhere in the text, and then with the not-found error of an id whose lookup fails |
| TextMacro.FindCloseFrom | Test/js/plugins/TextScriptBase.js:240 | the lazy capture ends at the first `]` reached before any line terminator, and there is none exactly when every `]` has a line terminator before it |
| TextMacro.TxCodeAt | Test/js/plugins/TextScriptBase.js:240 | a match starts with ESC, `T`/`t`, `X`/`x`, `[`, captures at least one character, contains no line terminator, and ends at the first later `]` |
| TextMacro.ExpandWithoutCode | Test/js/plugins/TextScriptBase.js:240-242 | text in which no TX code begins comes back unchanged |
| TextMacro.ExpandWithoutEsc | Test/js/plugins/TextScriptBase.js:240-242 | text holding no ESC at all comes back unchanged |
| TextMacro.ExpandPlainPrefix | Test/js/plugins/TextScriptBase.js:240-242 | a prefix in which no TX code begins, whatever other control codes it holds, is copied through, and expansion continues after it |
| TextMacro.CodeCloses | Test/js/plugins/TextScriptBase.js:240 | a code whose id has no line terminator and no `]` after its first character is matched up to its own `]` |
| TextMacro.ExpandAtCode | Test/js/plugins/TextScriptBase.js:240-242 | a code at the front is replaced by its lookup, and the scan resumes right after its `]` |
| TextMacro.ExpandSingleCode | Test/js/plugins/TextScriptBase.js:240-242 | one code between texts in which no other TX code begins (other control codes allowed) is replaced by its lookup, whatever that text holds, and the texts around it are copied through; a failed lookup fails the conversion |
| TextMacro.ExpandAfterColourCode | Test/js/plugins/TextScriptBase.js:240-242 | a colour code `ESC C[2]` before a TX code is copied through unchanged, and the TX code is still replaced by its lookup |
| TextMacro.ExpansionIsNotRescanned | Test/js/plugins/TextScriptBase.js:240-242 | a lookup that returns another TX code leaves that code in the output, unexpanded |
| ExtraWindow.FilterScene | Test/js/plugins/ExtraWindow.js:417-419 | every kept entry is configured and has the scene's name, and every configured entry with that name is kept |
| ExtraWindow.FilterSceneAppend | Test/js/plugins/ExtraWindow.js:417-419 | selection distributes over concatenation, so the configured order is kept |
| ExtraWindow.FilterSceneSingle | Test/js/plugins/ExtraWindow.js:417-419 | a single entry is kept iff its scene name matches |
| ExtraWindow.FindExtraWindowList | Test/js/plugins/ExtraWindow.js:415-420 | a missing list selects nothing; the selection holds exactly the configured entries of the scene |
| ExtraWindow.SplitLines | Test/js/plugins/ExtraWindow.js:396 | `split('\n')` gives at least one piece, and no piece contains a newline |
| ExtraWindow.SplitJoin | Test/js/plugins/ExtraWindow.js:396 | joining the pieces with newlines gives the text back |
| ExtraWindow.SplitLinesCount | Test/js/plugins/ExtraWindow.js:396 | there is one more piece than there are newlines |
| ExtraWindow.AutoHeight | Test/js/plugins/ExtraWindow.js:396-397 | the automatic height is (newlines + 1) × (`LineHeight` or 36) + 2 × padding |
| ExtraWindow.AutoHeightPositive | Test/js/plugins/ExtraWindow.js:397 | with non-negative line height and padding the automatic height is at least one line |
| ExtraWindow.HeightAfterCreate | Test/js/plugins/ExtraWindow.js:395-398 | a nonzero configured height is kept; a zero height becomes `AutoHeight` of the entry |
| ExtraWindow.HeightSettles | Test/js/plugins/ExtraWindow.js:395-397 | because the height is written back, a second creation of the scene leaves it as the first one set it |
| ExtraWindow.InitialOpenness | Test/js/plugins/ExtraWindow.js:426-428 | a new window starts either closed (0) or fully open (255), and fully open exactly when it does not animate its opening and its switch is 0 or ON |
| ExtraWindow.CreateExtraWindow | Test/js/plugins/ExtraWindow.js:394-399 | an entry with a zero height gets the automatic height written into it, a nonzero one is kept; a fresh window over the entry starts with `InitialOpenness`, no open or close request, and the converted text drawn exactly once and cached |
| ExtraWindow.CreateExtraWindows | Test/js/plugins/ExtraWindow.js:391-400 | every selected entry gets its height filled in, in place, and a fresh window over that entry, in order; each window starts with `InitialOpenness`, no request, and its converted text drawn exactly once and cached |
| ExtraWindow.WindowSceneExtra.LineHeight | Test/js/plugins/ExtraWindow.js:443-445 | `LineHeight` when nonzero, else the inherited line height |
| ExtraWindow.WindowSceneExtra.IsValid | Test/js/plugins/ExtraWindow.js:481-483 | a window with no switch (id 0) is always valid; otherwise it is valid iff its switch is set and ON |
| ExtraWindow.WindowSceneExtra.constructor | Test/js/plugins/ExtraWindow.js:424-430 | openness starts at 0 when the window animates its opening or is not valid, at 255 otherwise; the text is drawn once and cached |
| ExtraWindow.WindowSceneExtra.DrawAllText | Test/js/plugins/ExtraWindow.js:454-461 | a text equal to the cached one draws nothing; a different one is drawn and cached; the cache always equals the last text drawn |
| ExtraWindow.WindowSceneExtra.Update | Test/js/plugins/ExtraWindow.js:463-483 | without animation openness becomes 255 when valid (switch 0 or on) and 0 otherwise; with animation an open or close is requested instead; then the text is redrawn only if changed |

## Left out

- UniqueDataLoader.js is not part of this model. It only fetches files over the network, parses JSON and waits for completion.
- The `\x1bJS[...]` and `\x1bJS<...>` expansions of TextScriptBase.js are not modelled, because they evaluate scripts with `eval`. The same holds for the helpers `convertVariables` and `escapeXmlTag`.
- The base `convertEscapeCharactersEx` of PluginCommonBase.js is not part of this model. `ExpandTx` takes the text that conversion produced.
- The `CHANGE_TEXT` plugin-command registration is only the call to `SetTextBase`.
- Prototype patching and the `_passableSubject` side channel are not modelled. The subject (player or event) is passed explicitly. `Game_Actor.traitObjects` is `AppendRegionTraits` applied to the engine's list.
- `DataManager.extractArrayMetadata` is not modelled, because it parses note tags into `meta`. Plugin-parameter parsing is also left out. Record fields arrive already typed, and unset lists are `[]`.
- A record whose list field is missing altogether is not modelled. In `findArrayDataRegionAndTerrain` (RegionBase.js:635-641), a missing list on the region rule makes `concat` throw. A missing list on the terrain rule is appended as one `undefined` element, which no `includes` test matches.
- RegionData.SetupRegionData builds the table as a value. The source instead stores the parameter objects themselves and writes `traits` into them. That aliasing, and the sparse-array holes, are not modelled. Absent keys stand for the holes.
- `$gameSwitches.setValue` is a map update. Its range check against the number of switches and its map refresh request are not modelled.
- `getTextBase` lazily creates its store even when called from a TX expansion. `ExpandTx` reads the store as a value, and the creation does not change any lookup.
- TextBase.ParseInt covers integers only. The precision loss of JavaScript numbers above 2^53 is not modelled. Override keys that collide with `Object.prototype` property names are not modelled.
- Strings are sequences of Unicode scalar values rather than UTF-16 code units. For the characters these rules test (ASCII, ESC and line terminators) the two agree.
- The rendering in ExtraWindow.js is not modelled. That covers `drawTextEx`, contents clearing, font size, windowskin loading and `addWindow`/`addChild`. `DrawAllText` records the drawn texts in `drawn` instead.
- The frame-by-frame open and close animation of `Window_Base` is not modelled. ExtraWindow.WindowSceneExtra.Update records `open()`/`close()` as a request, and leaves openness to that animation.
- `PluginManagerEx.findClassName` (the scene's class name) and `$gameSystem.windowPadding()` are arguments.
