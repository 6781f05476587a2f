# Soundux remote: a Dafny model of its core

Soundux is a soundboard. This fork adds a remote control: a small web server inside the
desktop application and a browser client. This project models the parts of the program
that are pure state logic, and proves properties of them:

- **PipeWire** (`pipewire.dfy`). The PipeWire backend's registry and routing logic.
  - The graph the backend tracks: nodes, free ports, and two lists of session link ids.
  - The registry events (global added, node info, port info, global removed).
  - The application queries (recording and playback applications, lookup by name).
  - The routing of the soundboard's output into an application (`inputSoundTo`), and of
    an application's output into the soundboard (`passthroughFrom`).
  - The two stop operations.
  - Creating a link is an oracle: a function from the two port ids to an optional link id.
    Deleting a link always succeeds.
- **Settings and Bindings** (`settings.dfy`, `bindings.dfy`). The default values of the
  settings, and the JSON conversions of the configuration.
  - Sound, AudioDevice, Settings, Tab, Data, Config and VersionStatus.
  - The tolerant per-key reader of the settings (`get_to_safe`).
  - JSON is a small datatype (`json.dfy`).
- **Persistence** (`persistence.dfy`). The browser's settings store: loading, saving,
  the per-sound and per-tab setters, export, import with its version migration, and reset.
  - localStorage is a plain value: the stored object, or none.
- **SoundOrder and StableSort** (`soundorder.dfy`, `sorting.dfy`). The custom sound order
  of the client.
  - The sort comparator's order is proved to be a stable sort by rank.
  - A stable sort is proved to be unique.
- **Progress** (`progress.dfy`). How the client reconciles the sounds it believes are
  playing with each progress poll, and how it stops all sounds.
- **DragDrop, Layout, Tabs, ScreenWake** (`dragdrop.dfy`, `layout.dfy`, `tabs.dfy`,
  `screenwake.dfy`). Small transitions of the client:
  - the drag-and-drop swap of the saved order;
  - the three-way layout cycle;
  - tab swiping;
  - the screen wake-lock state machine.
- **WebServer** (`webserver.dfy`). The web server's routes, reduced to what they compute:
  - the hand-built tab and favourite listings;
  - a tab's sound listing;
  - a sound's details with its slider position;
  - the volume route's clamp, reset and scaling.
  - The listing text format and a reader for it are in `jsontext.dfy`.

`wrappers.dfy`, `strings.dfy`, `keys.dfy` and `json.dfy` hold shared definitions:
- `Option`, `Result` and fixed-width integer ranges;
- substring search and decimal text;
- key enumeration of finite maps;
- the JSON datatype.

The registry's node map is taken to iterate in ascending key order.

## Model

| member | source | states |
|---|---|---|
| PipeWire.OnNodeInfo | src/helper/audio/linux/pipewire/pipewire.cpp:42-61 | A node-info event for an untracked id changes nothing. For a tracked node, it overwrites pid, name and binary only where the event carries the property. Every other node, every port and both link lists are unchanged. |
| PipeWire.OnPortInfo | src/helper/audio/linux/pipewire/pipewire.cpp:63-83 | A port-info event for an untracked id changes nothing. For a tracked free port, it always overwrites the direction. It overwrites the parent node and alias only when present. It sets the side to the last character of `port.name`. Nothing else changes. |
| PipeWire.InfoIdempotent | src/helper/audio/linux/pipewire/pipewire.cpp:42-83 | Delivering the same node-info or port-info event twice has the same effect as delivering it once. |
| PipeWire.ApplyNodeInfos | src/helper/audio/linux/pipewire/pipewire.cpp:104-123 | The info events delivered while binding a node never add or remove a node. They never change a node's id or ports. A node no event names is unchanged. |
| PipeWire.ApplyPortInfos | src/helper/audio/linux/pipewire/pipewire.cpp:134-157 | The info events delivered while binding a port never add or remove a port, and never change its id. A port no event names is unchanged. The last event for a port fixes its direction. |
| PipeWire.NodeAdded | src/helper/audio/linux/pipewire/pipewire.cpp:91-120 | A node whose name contains "soundux" is skipped, and so is a node that cannot be bound. Otherwise the node is tracked under its id, with empty pid, name and binary unless its info events supply them. Free ports and links do not change. |
| PipeWire.PortAdded | src/helper/audio/linux/pipewire/pipewire.cpp:128-171 | After a port is added, it is either free or attached, never both. If its parent node is positive and tracked, the port sits in that node's ports and not in the free map. When it attaches, the parent node keeps its pid, name, binary and every other port unchanged, and its ports gain exactly this id. Otherwise it stays free. The node set and the links are unchanged. |
| PipeWire.GlobalAdded | src/helper/audio/linux/pipewire/pipewire.cpp:85-173 | An object without properties, or of a kind other than node or port, changes nothing. With properties, a node object is handled exactly as NodeAdded and a port object exactly as PortAdded. A node never touches the free ports. A port never adds or removes a node. No link list changes. |
| PipeWire.GlobalRemoved | src/helper/audio/linux/pipewire/pipewire.cpp:176-193 | After removal the id is neither a tracked node nor a free port. Every other entry of both maps, and both link lists, are unchanged. |
| PipeWire.RemoveUndoesNodeAdded | src/helper/audio/linux/pipewire/pipewire.cpp:176-193 | Removing a freshly added node restores the graph exactly. |
| PipeWire.RemoveUndoesFreePortAdded | src/helper/audio/linux/pipewire/pipewire.cpp:176-193 | Removing a freshly added port that stayed free restores the graph exactly. |
| PipeWire.RemovalKeepsAttachedPort | src/helper/audio/linux/pipewire/pipewire.cpp:176-193 | Removal only prunes the two top-level maps. A port already attached to its node stays in that node's ports. |
| PipeWire.RemoveUndoesGlobalAdded | src/helper/audio/linux/pipewire/pipewire.cpp:85-193 | Whatever object the registry announces under a fresh id, removing that id again restores the graph, unless a port moved into a node. |
| PipeWire.ListApps | src/helper/audio/linux/pipewire/pipewire.cpp:322-390 | The recording or playback listing holds exactly the nodes that have a non-empty binary and a port of the asked direction. Each is listed once, as a PipeWire application copying pid, node id, name and binary. |
| PipeWire.FindApp | src/helper/audio/linux/pipewire/pipewire.cpp:392-428 | The lookup by name fails exactly when no node has that name. Otherwise it returns the node with the smallest id among those with that name. |
| PipeWire.SessionLinks | src/helper/audio/linux/pipewire/pipewire.cpp:476-508 | Routing links exactly the (free port, node port) pairs that qualify. The free port is the soundboard's own, with "soundux" in its alias and the right direction. The node port has the opposite direction. Both sides are R/2 or both are L/1. A pair is kept only when the oracle gives it a link id, and no pair appears twice. |
| PipeWire.SessionLinksAreSession | src/helper/audio/linux/pipewire/pipewire.cpp:476-508 | The link ids routing records are exactly the oracle's ids for the qualifying pairs, with one entry per pair. |
| PipeWire.StopSoundInput | src/helper/audio/linux/pipewire/pipewire.cpp:511-520 | Deletes every sound-input link, leaves that list empty, returns true and changes nothing else. |
| PipeWire.StopPassthrough | src/helper/audio/linux/pipewire/pipewire.cpp:585-594 | Deletes every passthrough link, leaves that list empty, returns true and changes nothing else. |
| PipeWire.StopIdempotent | src/helper/audio/linux/pipewire/pipewire.cpp:580-594 | A second stop deletes nothing and returns true. After stopping passthrough, the graph is not passing through. |
| PipeWire.InputSoundTo | src/helper/audio/linux/pipewire/pipewire.cpp:453-508 | Returns false for no application or a non-PipeWire one. Otherwise the old sound-input links are deleted first. An untracked node returns false. A tracked node appends the new session links and returns true exactly when some link was made. |
| PipeWire.InputSoundKeepsPassthrough | src/helper/audio/linux/pipewire/pipewire.cpp:453-508 | Routing sound into an application does not change whether the graph is passing through. |
| PipeWire.PassthroughFromAsWritten | src/helper/audio/linux/pipewire/pipewire.cpp:522-577 | As written: before linking, the sound-input links are cleared and the passthrough list is left alone. The new links are appended to the passthrough list. |
| PipeWire.PassthroughFrom | src/helper/audio/linux/pipewire/pipewire.cpp:522-577 | Corrected: the old passthrough links are cleared first and the sound-input links are untouched. The new links are appended to the passthrough list, and the result is true exactly when some link was made. |
| PipeWire.PassthroughFromReportsState | src/helper/audio/linux/pipewire/pipewire.cpp:580-583 | With the correction, the graph is passing through afterwards exactly when the call returned true. |
| PipeWire.PassthroughKeepsStaleLinks | src/helper/audio/linux/pipewire/pipewire.cpp:534-540 | As written, passthrough from a node that has gone away returns false. It still leaves the old passthrough link recorded, so the graph reports passing through. |
| Settings.Defaults | src/core/objects/settings.hpp:10-45 | Default settings:<br>• PulseAudio backend, list view, system theme, tab 0;<br>• remote volume 100 and local volume 50, not synced;<br>• of the behaviour flags, only allowOverlapping and deleteToTrash are on;<br>• web server enabled on 0.0.0.0:8080 with an empty root;<br>• PIN required, empty PIN, no tokens. |
| Bindings.GetSafe | src/helper/json/bindings.hpp:149-198 | For a scalar setting: an absent key keeps the prior value, and a convertible value replaces it. A value that does not convert, null included, keeps the prior value. |
| Bindings.GetStringsSafe | src/helper/json/bindings.hpp:149-198 | For a list-of-strings setting: an absent key keeps the prior value, and an array of strings replaces it. Null, a non-array, or an array with a non-string element clears it. |
| Bindings.SettingsFromJson | src/helper/json/bindings.hpp:201-228 | A non-object leaves the settings as they were. Each of the 24 members is read on its own and tolerantly (GetSafe, GetStringsSafe): a missing or non-converting value keeps the prior member. The enumerations audioBackend, viewMode and theme change only for a JSON number, to its 8-bit code, so a boolean keeps the prior value. |
| Bindings.EnumRejectsBoolean | src/helper/json/bindings.hpp:201-254 | A boolean theme leaves the prior theme in place, and a tab whose sortMode is a boolean fails to read. |
| Bindings.ReadsBack | src/helper/json/bindings.hpp:201-228 | A JSON object carrying all 24 keys, each holding the encoding of a setting, reads back as exactly those settings, whatever the prior values. |
| Bindings.SettingsRoundTrip | src/helper/json/bindings.hpp:117-228 | Reading what the settings writer (SettingsToJson, the to_json at bindings.hpp:117-200) wrote gives back the same settings. |
| Bindings.MissingKeysKeepPrior | src/helper/json/bindings.hpp:149-198 | Reading an empty object changes no setting. The defaults read as the defaults. |
| Bindings.AudioDeviceFromJson | src/helper/json/bindings.hpp:82-87 | Reading an audio device succeeds exactly when the object has a string "name" and a boolean "isDefault". |
| Bindings.AudioDeviceRoundTrip | src/helper/json/bindings.hpp:77-88 | An audio device written by AudioDeviceToJson (the to_json at bindings.hpp:79-82) reads back as that device. |
| Bindings.VersionStatusFromJson | src/helper/json/bindings.hpp:291-296 | Reading a version status succeeds exactly when the object has strings "latest" and "current" and a boolean "outdated". |
| Bindings.VersionStatusRoundTrip | src/helper/json/bindings.hpp:285-297 | A version status written by VersionStatusToJson (the to_json at bindings.hpp:287-290) reads back as that status. |
| Bindings.VolumeToJson | src/helper/json/bindings.hpp:33-48 | An absent volume is written as null and a present one as its number. |
| Bindings.ReadVolume | src/helper/json/bindings.hpp:61-74 | A volume is set only when its key holds a number. Null or absence leaves the prior value. |
| Bindings.SoundFromJson | src/helper/json/bindings.hpp:50-75 | Reading a sound succeeds exactly when the required keys are present and well typed: name, hotkeys, id, path, modifiedDate. isFavorite, when present, must be a boolean. The name, path, hotkeys, id and modifiedDate are the converted values read. A numeric localVolume or remoteVolume becomes that volume (as an int). Any other volume value, or an absent one, keeps the prior volume. |
| Bindings.SoundRoundTrip | src/helper/json/bindings.hpp:18-75 | A sound written by SoundToJson (the to_json at bindings.hpp:20-49) and read back into any prior sound gives the same sound, except that a volume written as null leaves the prior sound's volume in place. |
| Bindings.SoundRoundTripFresh | src/helper/json/bindings.hpp:61-74 | A written sound reads back into a fresh sound as exactly the same sound, both optional volumes included. |
| Bindings.SoundsFromJson | src/helper/json/bindings.hpp:239-247 | A list of sounds reads successfully exactly when every element reads as a sound, element by element in order. |
| Bindings.SoundsRoundTrip | src/helper/json/bindings.hpp:233-255 | A written list of sounds reads back as the same list. |
| Bindings.TabFromJson | src/helper/json/bindings.hpp:243-254 | A tab reads exactly when the object has an arithmetic id, a string name and path, an array of sounds that all read, and, if present, a numeric sortMode. The tab then holds that id (narrowed to 32 bits), name, path, those sounds, and the sortMode code. An absent sortMode keeps the prior value. |
| Bindings.TabRoundTrip | src/helper/json/bindings.hpp:233-255 | A tab written by TabToJson (the to_json at bindings.hpp:235-242) reads back as the same tab. |
| Bindings.TabsFromJson | src/helper/json/bindings.hpp:265-270 | A list of tabs reads successfully exactly when every element reads as a tab, in order. |
| Bindings.TabsRoundTrip | src/helper/json/bindings.hpp:256-272 | A written list of tabs reads back as the same list. |
| Bindings.DataFromJson | src/helper/json/bindings.hpp:265-271 | The library data reads exactly when the object has arithmetic soundIdCounter, height and width and an array of tabs that all read. The data then holds those converted values and those tabs. |
| Bindings.DataRoundTrip | src/helper/json/bindings.hpp:256-272 | Library data written by DataToJson (the to_json at bindings.hpp:258-264) reads back as the same data. |
| Bindings.ConfigFromJson | src/helper/json/bindings.hpp:279-283 | A configuration reads exactly when "data" reads as library data and "settings" is present. Its data is what "data" reads as. Its settings are read tolerantly over the prior ones, so a non-object "settings" keeps the prior settings. |
| Bindings.ConfigRoundTrip | src/helper/json/bindings.hpp:273-284 | A configuration written by ConfigToJson (the to_json at bindings.hpp:275-278) reads back as the same configuration. |
| Persistence.Defaults | src/helper/webserver/html/js/persistence.js:7-14 | The default store has six keys:<br>• version 2;<br>• empty soundSettings, tabLayouts and layoutOrders;<br>• lastTabId "favorites";<br>• autoFullscreenEnabled true. |
| Persistence.Load | src/helper/webserver/html/js/persistence.js:17-47 | A stored value that is not an object with version 2 loads as the defaults. A current one keeps every stored key other than the filled ones. A truthy soundSettings, tabLayouts, layoutOrders or lastTabId is kept. A falsy or missing map becomes `{}` and a falsy or missing lastTabId becomes "favorites". A missing autoFullscreenEnabled becomes true, and a present one, even null or false, is kept. |
| Persistence.LoadKeepsNormalised | src/helper/webserver/html/js/persistence.js:23-33 | Loading an already complete store returns it unchanged. |
| Persistence.LoadIdempotent | src/helper/webserver/html/js/persistence.js:17-47 | Storing what was loaded and loading again gives the same settings. |
| Persistence.Save | src/helper/webserver/html/js/persistence.js:50-66 | Saving ignores a value that is neither an object nor an array. An object is stored with version set to 2. |
| Persistence.SaveThenLoad | src/helper/webserver/html/js/persistence.js:17-66 | Saving complete settings and loading them back gives the same settings. |
| Persistence.GetSoundSettings | src/helper/webserver/html/js/persistence.js:85-90 | A sound's settings are the entry stored under soundSettings and the path when it is truthy, and an empty object otherwise. The result is never falsy. |
| Persistence.GetCurrentLayoutMode | src/helper/webserver/html/js/persistence.js:93-97 | A tab's layout mode is the currentLayoutMode stored for the tab when it is truthy, and "grid-3" otherwise. |
| Persistence.GetLayoutOrder | src/helper/webserver/html/js/persistence.js:100-105 | A saved order is the entry stored under `tabId-layoutMode` when it is truthy, and null otherwise. |
| Persistence.SetSoundSetting | src/helper/webserver/html/js/persistence.js:109-114 | When the store can be written, the sound's key reads back as the value just set. Otherwise nothing changes. |
| Persistence.SetSoundSettingKeepsOthers | src/helper/webserver/html/js/persistence.js:109-114 | Setting one key of one sound changes no other key of that sound and no other sound. |
| Persistence.RemoveSoundSetting | src/helper/webserver/html/js/persistence.js:116-128 | Afterwards the key is absent. Without an entry for the sound, nothing changes. |
| Persistence.RemoveSoundSettingKeepsOthers | src/helper/webserver/html/js/persistence.js:116-128 | Removing a key leaves every other sound's settings as they were. |
| Persistence.RemoveSoundSettingCleansUp | src/helper/webserver/html/js/persistence.js:121-125 | The sound's entry is dropped exactly when removing the key left it empty. Otherwise it keeps its other keys. |
| Persistence.SetSoundColor | src/helper/webserver/html/js/persistence.js:131-137 | The color "default" removes the key. Any other color is stored. |
| Persistence.SetSoundEmoji | src/helper/webserver/html/js/persistence.js:139-145 | A falsy emoji removes the key. A truthy one is stored. |
| Persistence.SetSoundFavorite | src/helper/webserver/html/js/persistence.js:147-149 | The favourite flag is always stored as a boolean, the truthiness of the argument. |
| Persistence.SetSoundCustomVolume | src/helper/webserver/html/js/persistence.js:151-162 | Without a custom volume, hasCustomVolume and both volumes are removed. With one, hasCustomVolume is set and each volume is stored, or removed when it is null. |
| Persistence.CustomVolumeStored | src/helper/webserver/html/js/persistence.js:151-162 | After enabling a custom volume, the sound's entry holds hasCustomVolume true. Each non-null volume is stored as given, and each null one is absent. |
| Persistence.SetCurrentLayoutMode | src/helper/webserver/html/js/persistence.js:166-171 | A stored layout mode reads back through the layout-mode getter. |
| Persistence.SetCurrentLayoutModeKeepsOthers | src/helper/webserver/html/js/persistence.js:166-171 | Setting one tab's layout mode changes no other tab's mode. |
| Persistence.SetLayoutOrder | src/helper/webserver/html/js/persistence.js:173-180 | A non-array order is rejected and nothing changes. An array is stored under `tabId-layoutMode` and reads back through getLayoutOrder. |
| Persistence.ClearLayoutOrder | src/helper/webserver/html/js/persistence.js:184-193 | Afterwards the order reads as null. An unset order is left as it was. |
| Persistence.LayoutOrderKeepsOthers | src/helper/webserver/html/js/persistence.js:173-193 | Setting or clearing one order changes no order under another key. |
| Persistence.Export | src/helper/webserver/html/js/persistence.js:201-205 | The exported object carries every settings key plus version 2. |
| Persistence.Migrate | src/helper/webserver/html/js/persistence.js:241-266 | A version above 2 is rejected. Anything else ends at version 2. An older numeric version is always accepted and filled in as loading does: every other key is kept, truthy maps and lastTabId are kept, falsy or missing ones become `{}` or "favorites", and a missing autoFullscreenEnabled becomes true. Any other object is kept as it is apart from the version. |
| Persistence.ImportAsWritten | src/helper/webserver/html/js/persistence.js:226-278 | As written, import fails without a file. It succeeds only for a JSON file that parses to a value of type "object", which includes an array. |
| Persistence.ImportAcceptsArray | src/helper/webserver/html/js/persistence.js:236-239 | As written, a file holding `[]` is accepted as settings. |
| Persistence.Import | src/helper/webserver/html/js/persistence.js:226-278 | Corrected: import succeeds exactly for a JSON file holding a plain object whose version is not above 2. The result is the migrated object at version 2. |
| Persistence.ImportAgreesOnObjects | src/helper/webserver/html/js/persistence.js:236-239 | On every file that is not an array, the corrected import and the import as written agree. |
| Persistence.ImportInto | src/helper/webserver/html/js/persistence.js:268-274 | A failed import leaves the store as it was. A successful one replaces both the settings and the stored value. |
| Persistence.ImportOfExport | src/helper/webserver/html/js/persistence.js:201-278 | Importing an export of current settings gives back those settings. |
| Persistence.Reset | src/helper/webserver/html/js/persistence.js:290-297 | Reset empties storage and installs the defaults, which are exactly what the next load would produce. |
| SoundOrder.PathIndex | src/helper/webserver/html/js/app.js:333-334 | A sound's index is non-negative exactly when it has a path and that path is in the saved order. |
| SoundOrder.CompareIsRankOrder | src/helper/webserver/html/js/app.js:331-338 | The comparator orders two sounds exactly as their ranks do. An unlisted sound ranks after every listed one, and two unlisted sounds compare equal. |
| SoundOrder.ApplyCustomOrder | src/helper/webserver/html/js/app.js:329-340 | Only a saved order that is an array reorders the sounds. The result is a permutation, sorted by rank. |
| SoundOrder.CustomOrderStable | src/helper/webserver/html/js/app.js:329-340 | Sounds of equal rank, in particular all unlisted ones, keep their fetched relative order. |
| SoundOrder.ListedFirst | src/helper/webserver/html/js/app.js:331-338 | In the result no unlisted sound precedes a listed one, and listed sounds follow the saved order. |
| StableSort.Sort | src/helper/webserver/html/js/app.js:331-338 | The reference sort is a permutation of its input and is sorted by rank. |
| StableSort.SortStable | src/helper/webserver/html/js/app.js:331-338 | The reference sort keeps the input order within each rank. |
| StableSort.AnyStableSortIsSort | src/helper/webserver/html/js/app.js:331-338 | Any permutation that is sorted by rank and stable equals the reference sort. So JavaScript's stable `sort` with this comparator has exactly one possible result. |
| Progress.ApplyUpdate | src/helper/webserver/html/js/app.js:603-632 | An entry without a valid id changes nothing. A tracked id gets its position and pause state, and its length only when the new length is positive. An untracked id is added with its sound marked as playing. |
| Progress.ApplyUpdates | src/helper/webserver/html/js/app.js:590-632 | After a poll's updates, the tracked ids are the old ones plus every valid reported id. Untouched entries are unchanged, and no entry changes its sound. |
| Progress.ApplyUpdatesKeepsMarks | src/helper/webserver/html/js/app.js:603-632 | Updates only add "currently playing" marks, and each mark they add points at a reported id. |
| Progress.ApplyUpdatesConsistent | src/helper/webserver/html/js/app.js:603-632 | Updates keep every "currently playing" mark pointing at a tracked instance of that sound. |
| Progress.RemoveFinishedAsWritten | src/helper/webserver/html/js/app.js:644-658 | As written, every tracked id the server did not report is dropped, and its sound's mark is deleted whatever instance the mark points at. A sound that no finished instance belongs to keeps its mark, unchanged, and those are the only marks left. |
| Progress.RemoveFinished | src/helper/webserver/html/js/app.js:644-658 | Corrected: finished ids are dropped, and a mark is deleted exactly when it points at a finished instance. This keeps marks consistent. |
| Progress.PollWith | src/helper/webserver/html/js/app.js:570-680 | With nothing tracked, polling stops. A failed request or a null entry clears everything. Afterwards, polling continues exactly when something is still tracked. |
| Progress.PollAsWritten | src/helper/webserver/html/js/app.js:570-680 | As written: the same idle and failure cases, polling exactly while something is tracked, and after a successful answer the same tracked instances as the corrected poll. Only the marks differ (OverlapLosesMark). |
| Progress.Poll | src/helper/webserver/html/js/app.js:570-680 | The corrected poll: the same failure and idle cases. A successful poll applies the updates and removes the finished ids, and it keeps marks consistent. |
| Progress.PollRemovesFinished | src/helper/webserver/html/js/app.js:644-658 | After a successful poll, a tracked id the server did not report is no longer tracked. As written, its sound is also unmarked. |
| Progress.OverlapLosesMark | src/helper/webserver/html/js/app.js:652-655 | Take two overlapping instances of one sound where only the newer is still playing. As written, the poll unmarks the sound while its newer instance is tracked; the corrected poll keeps the mark. |
| Progress.StartPolling | src/helper/webserver/html/js/app.js:553-559 | Starting while already polling does nothing. Otherwise, after the first poll, polling continues exactly when something is still tracked. With nothing tracked the state is unchanged, and a failed answer or a null entry clears everything. A successful answer leaves tracked exactly the still-reported and newly reported instances. Marks stay consistent. |
| Progress.StopAll | src/helper/webserver/html/js/app.js:532-544 | An accepted stop-all clears both maps and stops polling. A rejected one changes nothing. |
| Progress.ClampPercentage | src/helper/webserver/html/js/app.js:30-35 | The top-bar width is limited to [0, 100], and a value already inside is kept. |
| DragDrop.Swap | src/helper/webserver/html/js/dragDrop.js:99-101 | The swap exchanges exactly the two positions and keeps length and multiset. |
| DragDrop.SwapTwice | src/helper/webserver/html/js/dragDrop.js:99-101 | Swapping the same pair twice restores the order. |
| DragDrop.CardPaths | src/helper/webserver/html/js/dragDrop.js:63-66 | The initial order holds exactly the non-empty card paths. When every card has a path, entry k is the path of the k-th card on screen, so the swap's positions are screen positions. |
| DragDrop.CardPathsAppend | src/helper/webserver/html/js/dragDrop.js:63-66 | The paths of two stretches of cards are the first stretch's paths followed by the second's, so order and repeats are kept. |
| DragDrop.OnEnd | src/helper/webserver/html/js/dragDrop.js:40-43 | A drop onto the same position, or without a current tab, changes nothing. |
| DragDrop.OnEndSwapsSaved | src/helper/webserver/html/js/dragDrop.js:85-107 | With a saved order and both positions inside it, the saved order becomes the old one with those two entries exchanged. With a position outside it, nothing is saved. |
| DragDrop.OnEndInitialises | src/helper/webserver/html/js/dragDrop.js:60-80 | Without a saved order, the non-empty card paths are saved, swapped when both positions are inside them. With no card path nothing is saved. |
| DragDrop.OnEndTwiceRestores | src/helper/webserver/html/js/dragDrop.js:85-107 | Repeating an in-range drop restores the saved order. |
| DragDrop.OnEndKeepsOtherOrders | src/helper/webserver/html/js/dragDrop.js:47-107 | A drop changes no saved order other than the current tab and layout's. |
| Layout.Next | src/helper/webserver/html/js/layout.js:49-53 | The cycle is grid-3, grid-2, list, grid-3. An unknown mode goes to grid-3. |
| Layout.CycleReturns | src/helper/webserver/html/js/layout.js:5 | Three steps of the cycle return to a known mode, through three distinct modes. |
| Layout.IconFor | src/helper/webserver/html/js/layout.js:32-37 | The button shows the icon of the mode it will switch to. |
| Layout.ApplyLayoutMode | src/helper/webserver/html/js/layout.js:13-40 | Exactly one layout class is on, the mode's, and other classes are untouched. The icon shows the following mode. |
| Layout.Cycle | src/helper/webserver/html/js/layout.js:42-69 | Without a current tab nothing changes. Otherwise the tab's next mode is stored and applied to the view. |
| Layout.CycleKeepsOtherTabs | src/helper/webserver/html/js/layout.js:55-58 | Cycling one tab changes no other tab's layout mode. |
| Layout.ThreeCyclesReturn | src/helper/webserver/html/js/layout.js:49-58 | Three cycles on a tab return to the stored starting mode. |
| Tabs.FirstActive | src/helper/webserver/html/js/tabs.js:19 | The first active tab's index, or -1 exactly when no tab is active. |
| Tabs.CurrentIndex | src/helper/webserver/html/js/tabs.js:17-24 | The current tab is the first active one. When there is none it is 0. |
| Tabs.Target | src/helper/webserver/html/js/tabs.js:91-96 | The next tab is always a valid index, and a different one when there are two or more tabs. Swiping right from the first tab wraps to the last, and swiping left from the last wraps to the first. |
| Tabs.TargetIsCyclic | src/helper/webserver/html/js/tabs.js:92-96 | A right swipe goes to (current - 1) mod n, a left swipe to (current + 1) mod n. |
| Tabs.HandleSwipe | src/helper/webserver/html/js/tabs.js:84-107 | With at most one tab there is no switch. Otherwise the swipe selects a valid tab other than the current one. |
| Tabs.SwipeBack | src/helper/webserver/html/js/tabs.js:92-96 | A swipe followed by the opposite swipe returns to the starting tab. |
| Tabs.SwipeThereAndBack | src/helper/webserver/html/js/tabs.js:84-107 | With two or more tabs, swiping one way and then the other returns to the starting tab. |
| Tabs.TouchStart | src/helper/webserver/html/js/tabs.js:27-36 | In edit mode a touch is ignored. Otherwise it records the start point and is not a swipe yet. |
| Tabs.TouchMove | src/helper/webserver/html/js/tabs.js:38-58 | A gesture becomes a swipe once \|dx\| > 10 and \|dx\| > 1.5·\|dy\|. Once swiping, only the current x moves. In edit mode nothing changes. |
| Tabs.TouchEnd | src/helper/webserver/html/js/tabs.js:60-82 | A swipe ends and switches tab exactly when it moved more than 80 pixels, in the direction of the movement. |
| ScreenWake.IsActive | src/helper/webserver/html/js/screen-wake.js:191 | The lock is active exactly when it is available, enabled and not failed. |
| ScreenWake.TryEnable | src/helper/webserver/html/js/screen-wake.js:40-56 | Enabling does nothing when the lock is failed or already enabled. Success enables it, and failure marks it failed and disabled. |
| ScreenWake.Disable | src/helper/webserver/html/js/screen-wake.js:59-79 | Disabling does nothing when failed or already off. Otherwise the lock always ends disabled, even when the library throws, and the failure flag is kept. |
| ScreenWake.OnVisible | src/helper/webserver/html/js/screen-wake.js:138-155 | On becoming visible while expected to be enabled, the lock is marked disabled if the library reports it off. |
| ScreenWake.Step | src/helper/webserver/html/js/screen-wake.js:157-183 | Without the library, no event changes anything. Once enabling has failed, the indicator and the switch do nothing. A click on the indicator disables an enabled lock, and enables a disabled one or marks it failed. The switch disables the lock when unchecked. When checked, it leaves the lock enabled, or marks it failed when enabling fails. |
| ScreenWake.StepKeepsFailure | src/helper/webserver/html/js/screen-wake.js:157-183 | Every event keeps "failed implies disabled". A failed lock is never changed again. |
| ScreenWake.RunKeepsFailure | src/helper/webserver/html/js/screen-wake.js:40-79 | Over any sequence of events, failure is sticky and a failed lock stays disabled. |
| ScreenWake.ActiveIffEnabled | src/helper/webserver/html/js/screen-wake.js:187-192 | From the initial state, after any events, the lock is active exactly when it is enabled. |
| ScreenWake.Indicator | src/helper/webserver/html/js/screen-wake.js:84-103 | The indicator shows "active" exactly when the lock is active, and "visibility_off" when it is simply off. |
| JsonText.DecodeEncode | src/helper/webserver/webserver.cpp:154-170 | The listing text format with escaped strings reads back as the objects it was built from. |
| JsonText.PlainNeedsNoEscaping | src/helper/webserver/webserver.cpp:161-166 | For objects whose keys and strings need no escaping, the unescaped text the routes build equals the escaped one. |
| WebServer.TabsListing | src/helper/webserver/webserver.cpp:150-171 | Corrected: the tabs listing decodes to one object per tab, in order, with id, name, path and sortMode. |
| WebServer.TabsListingPlain | src/helper/webserver/webserver.cpp:154-170 | When no name or path needs escaping, the listing as written (TabsListingAsWritten) equals the corrected one and decodes to the tabs. |
| WebServer.QuoteInNameBreaksListing | src/helper/webserver/webserver.cpp:163-164 | As written, a tab named with a single `"` produces a listing that does not decode. |
| WebServer.FavoritesListing | src/helper/webserver/webserver.cpp:215-236 | Corrected: with names and paths escaped, the favourites listing decodes to one object per favourite, in order, and every entry says isFavorite true. |
| WebServer.TabSounds | src/helper/webserver/webserver.cpp:174-212 | Corrected: a tab id beyond unsigned long is invalid, and an unknown tab is not found. Otherwise the listing, with names and paths escaped, decodes to the tab's sounds in order. |
| WebServer.TabSoundsAsWritten | src/helper/webserver/webserver.cpp:174-212 | As written: the same invalid and not-found cases as the corrected route, and a listing exactly when it gives one. |
| WebServer.TabSoundsPlain | src/helper/webserver/webserver.cpp:185-197 | When no name or path of the tab's sounds needs escaping, the route as written equals the corrected one and its listing decodes to the sounds. |
| WebServer.SoundsStatus | src/helper/webserver/webserver.cpp:174-212 | The sounds route answers 200 exactly with a listing, 400 exactly for an invalid id and 404 exactly for an unknown tab. |
| WebServer.FavoritesListingAsWritten | src/helper/webserver/webserver.cpp:215-236 | As written, the favourites listing is bracketed as an array. Its content is covered by FavoritesListingPlain and QuoteInSoundNameBreaksListings. |
| WebServer.FavoritesListingPlain | src/helper/webserver/webserver.cpp:220-232 | When no name or path needs escaping, the favourites listing as written equals the corrected one and decodes to the favourites. |
| WebServer.QuoteInSoundNameBreaksListings | src/helper/webserver/webserver.cpp:192-193 | As written, a sound named with a single `"` makes both the tab's sound listing and the favourites listing fail to decode. The corrected listings decode. |
| WebServer.Ratio | src/helper/webserver/webserver.cpp:386 | The volume ratio is exact for a non-zero default. A zero default gives an infinity of the volume's sign, or NaN. |
| WebServer.Slider | src/helper/webserver/webserver.cpp:388-400 | Corrected: the reported position is in [-50, 50]. It is 0 at ratio 1 or NaN, non-negative above 1 and non-positive below. An infinite ratio maps to the matching end. |
| WebServer.SliderAgrees | src/helper/webserver/webserver.cpp:388-400 | Whenever the scaled ratio fits an int, the position as written equals the corrected one. |
| WebServer.SliderAsWritten | src/helper/webserver/webserver.cpp:383-400 | As written, the position is INT_MIN exactly when the scaled ratio overflows an int, and lies in [-50, 50] otherwise. NaN and a ratio of 1 give 0. |
| WebServer.SliderPositionAsWritten | src/helper/webserver/webserver.cpp:380-400 | As written, a sound without a custom volume is at 0. The position is INT_MIN exactly when it has a custom volume and the ratio overflows. Otherwise it equals the corrected details' position. |
| WebServer.ZeroDefaultVolumeOffSlider | src/helper/webserver/webserver.cpp:383-400 | As written, a default local volume of 0 with a custom volume of 1 gives position INT_MIN. The corrected position is 50. |
| WebServer.TabName | src/helper/webserver/webserver.cpp:346-355 | The reported tab name is the name of the first tab that holds the sound and has a non-empty name. It is "" exactly when no tab holding the sound has a name. |
| WebServer.SoundDetails | src/helper/webserver/webserver.cpp:357-407 | The details copy id, name, path and favourite. The effective volume is the custom one if set, otherwise the default. Without a custom volume the slider is at 0. The slider always lies in [-50, 50] and follows the ratio's direction. |
| WebServer.DetailsOffSlider | src/helper/webserver/webserver.cpp:383-400 | The same sound reported as written at INT_MIN is reported by the corrected details at 50. |
| WebServer.GetSound | src/helper/webserver/webserver.cpp:338-418 | An id beyond unsigned long is invalid, and an unknown sound is not found. A found sound's details carry its id and a slider in [-50, 50]. |
| WebServer.ClampSlider | src/helper/webserver/webserver.cpp:519-520 | The requested position is limited to [-50, 50], and a position inside is kept. |
| WebServer.Scaled | src/helper/webserver/webserver.cpp:559-573 | A scaled volume is never below 1. |
| WebServer.ScaledDirection | src/helper/webserver/webserver.cpp:559-569 | A positive slider never lowers the volume and at most doubles it. A negative slider never raises it. |
| WebServer.SetThenGet | src/helper/webserver/webserver.cpp:559-573 | In the exact-arithmetic model only: for a default volume that is a multiple of 50, the position reported after setting a position is that position. The program's single-precision arithmetic does not keep this (see Left out). |
| WebServer.SliderField | src/helper/webserver/webserver.cpp:516-517 | The position is read only from an object's "sliderPosition" that converts to an int. |
| WebServer.SetVolume | src/helper/webserver/webserver.cpp:504-599 | The volume route:<br>• an id beyond unsigned long gives 400 and an unknown sound 404, with no request to the desktop;<br>• for a known sound, a body that is not JSON or has no int sliderPosition gives 400, with no request;<br>• a request is made only for a known sound with the interface present;<br>• the centre position resets both volumes;<br>• any other position sets both volumes to at least 1 and reports a position in [-50, 50];<br>• a refused call reports a failure. |
| WebServer.SetVolumeFollowsSlider | src/helper/webserver/webserver.cpp:519-573 | The applied position is the clamped request. The centre resets and any other position sets the scaled volumes. |
| WebServer.UnknownSoundIgnoresBody | src/helper/webserver/webserver.cpp:508-514 | An unknown sound gives the same answer whatever the body. |
| WebServer.VolumeStatus | src/helper/webserver/webserver.cpp:504-599 | The route answers 200 exactly when a volume was set or reset. |

## Left out

- The PipeWire C API plumbing is not modelled:
  - the `sync` event pump (pipewire.cpp:11-40), registry binding and proxy destruction;
  - `createNullSink`, `setup`, `destroy`;
  - the listener hooks.

  The info callbacks that fire during `sync` are folded into the node-added and port-added transitions as given sequences of info events.
- Locking (`nodeLock`, `portLock`) and concurrency: the model is sequential.
- `linkPorts` is an oracle parameter and `deleteLink` always succeeds. Neither is modelled further.
- `useAsDefault`, `revertDefault` and `muteInput` (pipewire.cpp:430-451) are the constants false, true and false (`PipeWire.UseAsDefault`, `PipeWire.RevertDefault`, `PipeWire.MuteInput`). There is nothing to state about them.
- PipeWire.OnNodeInfo, PipeWire.OnPortInfo: "application.process.id" and "node.id" arrive already parsed. `std::stol` throws on non-numeric or out-of-range text (pipewire.cpp:50, 72), and that exception is not modelled.
- PipeWire.OnPortInfo: an empty `port.name`, where the source's `back()` is undefined, keeps the previous side.
- The registry's key type is not visible. The map is taken to iterate in ascending key order, as `std::map` does, so FindApp returns the lowest id.
- The `hotkeySequence` text of a Sound depends on the global hotkey handler. It is a function parameter.
- The enum serialisers are not visible. Enums are written as their underlying 8-bit codes and read from a JSON number only, as nlohmann's default enum conversion does. The Tab declaration is not visible either: a default-constructed Tab's sort mode is taken to be code 1 (modification date, newest first).
- The PlayingSound, IconApp and RecordingDevice serialisers are not part of this model.
- Floating-point arithmetic is modelled exactly:
  - the volume ratio is a real or an infinity or NaN;
  - the scaling of the volume route is integer arithmetic (`defaultVolume * (50 + p) / 50`, truncated).

  Single-precision rounding is not modelled. Neither is the reported `volumeRatio` field.
- WebServer.Scaled: states only the floor of 1 and the direction of the change (ScaledDirection). The float product is not reproduced bit for bit.
- WebServer.SetThenGet: a fact about the exact-arithmetic model only, not about the program. In single precision, defaults of 50 and 100 already lose a step at some positions. At default 50 and position 1, for example, the volume is set to 51, but (51/50 - 1)·50 evaluates just below 1 and is reported as 0.
- The float-to-int conversion of an out-of-range value is undefined in C++. It is modelled as the x86-64 result, INT_MIN.
- WebServer.TabSounds, WebServer.GetSound, WebServer.SetVolume: `std::stoul` is taken to range over a 64-bit `unsigned long` (LP64, as on Linux). A Windows build has a 32-bit `unsigned long`, and there ids above 2^32 - 1 would also answer 400.
- HTTP plumbing is not modelled: routing, threads, CORS, static files, and the authentication declared in webserver.hpp. `getTabs`, `getTab`, `getSound` and `getFavorites` are parameters.
- The desktop interface's volume calls are booleans given to SetVolume.
- Numbers are integers. The JSON text of numbers of 1e21 and above, and surrogate pairs in `\u` escapes, are not modelled.
- The browser APIs are not modelled: DOM rendering, localStorage, FileReader, Blob download, events and timers. Storage is a plain value, and the other scripts (search, tutorial, sound settings, edit mode, fullscreen, service worker) are not part of this model.
- Persistence.Save: the cases where the browser would throw (storage full, private mode) are not modelled. A write always succeeds.
- Progress: the maximum-progress computation that drives the top bar, and the visual handlers, are not modelled.
- Tabs: touch positions are integers. The browser's `screenX` and `screenY` can be fractional, and fractional positions are not modelled.
- DragDrop: negative drop indices cannot occur (`Drop` holds naturals). SortableJS never reports one.
- ScreenWake: the asynchronous promise races between enable and disable are not modelled. Each library call completes before the next event.
- Settings loading from disk and writing it back (config.cpp), main.cpp, webview, youtube-dl and windows-info are not part of this model.

## Findings

| source | as written | input that shows it | evidently intended | confidence | as-written member | corrected member |
|---|---|---|---|---|---|---|
| src/helper/audio/linux/pipewire/pipewire.cpp:534 | `passthroughFrom` calls `stopSoundInput()` before linking, so the old passthrough links are never deleted and the sound-input links are dropped | graph with sound-input link 3 and passthrough link 7, passthrough from an application whose node has gone away: returns false, link 3 is deleted, link 7 stays, and `isCurrentlyPassingThrough` stays true | `stopPassthrough()` before linking, as `inputSoundTo` does with its own list | high, not executed | PipeWire.PassthroughFromAsWritten, PipeWire.PassthroughKeepsStaleLinks | PipeWire.PassthroughFrom, PipeWire.PassthroughFromReportsState |
| src/helper/webserver/webserver.cpp:386-393 | the slider position converts `(ratio - 1) * 50` to int before capping it at 50, so an infinite or huge ratio overflows the conversion (INT_MIN on x86-64), and `std::min(50, ·)` lets that through | default local volume 0 and a custom local volume of 1: ratio is +inf and the reported sliderPosition is -2147483648 | a position in [-50, 50], i.e. 50 for any ratio above 2 | medium, not executed | WebServer.SliderAsWritten, WebServer.ZeroDefaultVolumeOffSlider, WebServer.DetailsOffSlider | WebServer.Slider, WebServer.SoundDetails |
| src/helper/webserver/webserver.cpp:163-164 | the tabs listing pastes names and paths between quotes without escaping, and so do a tab's sound listing (192-193) and the favourites listing (228-229) | one tab named `"`: the text is `[{"id":1,"name":""","path":"","sortMode":0}]`, which is not JSON; a sound named `"` breaks the other two listings in the same way | names and paths escaped as JSON strings | high, not executed | WebServer.TabsListingAsWritten, WebServer.QuoteInNameBreaksListing, WebServer.TabSoundsAsWritten, WebServer.FavoritesListingAsWritten, WebServer.QuoteInSoundNameBreaksListings | WebServer.TabsListing, WebServer.TabSounds, WebServer.FavoritesListing |
| src/helper/webserver/html/js/persistence.js:237 | the import check `typeof importedSettings !== 'object'` lets an array through | a settings file holding `[]` is imported as the settings | only a plain object is accepted as settings | medium, not executed | Persistence.ImportAsWritten, Persistence.ImportAcceptsArray | Persistence.Import, Persistence.ImportAgreesOnObjects |
| src/helper/webserver/html/js/app.js:652-655 | when a playing instance finishes, its sound's "currently playing" mark is deleted even when the mark points at a newer, still playing instance | instances 1 and 2 of sound 5 overlap, the mark points at 2, and the server reports only 2: the mark is deleted while instance 2 is still tracked | delete the mark only when it points at the finished instance | medium, not executed | Progress.RemoveFinishedAsWritten, Progress.OverlapLosesMark | Progress.RemoveFinished, Progress.Poll |
