# Image viewer core: ROI box selection, rendering settings, header

This project models three parts of an OMERO.iviewer-style web image viewer in Dafny and proves properties of the model.

- **ROI box selection.** This is the `ome.ol3.interaction.BoxSelect` drag-box interaction.
  - When a drag starts, it clears the selection.
  - When a drag ends, it selects every region feature that has a geometry, is not hidden, is not removed, and whose geometry intersects the box.
  - On the unclustered path, every other feature has `selected = false` written to it.
  - On the clustered path, a cluster stands for its members. This happens only when clustered-collection mode is off and the cluster's bounding box meets the box. Nothing is ever deselected on this path.
  - The interaction also registers, unregisters, resets and disposes its two listeners. Its constructor guard leaves the instance inert when it is not given a Regions source.
- **Rendering settings panel** (`Settings`).
  - It builds the channel parameter `[-]idx|start:end$color,...` of the save and copy requests.
  - It pastes copied rendering settings into the image info. Each changed property is recorded as a `{prop, old_val, new_val, type}` history entry, and an `initial_values` marker goes in front.
  - It records model switches.
  - It guards its image-config, undo and redo handlers.
- **Header.** It shows the part of the image name after the last `/`.

Modules:

- `Wrappers`: `Option`.
- `Strings`: JavaScript `split` and `join` with a one-character separator, plus the decimal text of integers.
- `ImageData`: the image info and image configuration that the panels read and update.
- `BoxSelection`: `BoxSelect.js`.
- `RenderSettings`: `settings.js`.
- `AppHeader`: `header.js`.

How the model is shaped:

- **Classes with fields the methods update.** `BoxSelect`, `Regions`, `SelectionManager`, `Settings`, `Header`, `ImageInfo` and `ImageConfig` are classes. Their methods update the fields in place.
- **Loops proved against specification functions.** Each loop of the source is a method whose invariants tie it to a function on sequences:
  - the feature walk of the box-end handler;
  - the `url +=` channel loop;
  - the paste loop over copied channels.
- **Partners.** What the source promises is proved about those functions:
  - the channel parameter reads back through a decoder;
  - the recorded paste history, replayed with its new values, gives the pasted image info;
  - the same history, reverted with its old values from the last entry back, gives the original image info;
  - a box-end gesture is idempotent.

## Model

| member | source | states |
|---|---|---|
| BoxSelection.BoxSelect.constructor | ol3-viewer/src/ome/ol3/interaction/BoxSelect.js:17-110 | The condition is `platformModifierKeyOnly`. Given a Regions source, the interaction keeps it and registers exactly one box-start and one box-end listener. Given anything else, it keeps no source and registers no listener. |
| BoxSelection.BoxSelect.RegisterListeners | ol3-viewer/src/ome/ol3/interaction/BoxSelect.js:102-107 | Adds two fresh listeners, one for box start and one for box end, and keeps their keys. On an inert instance the method does not exist and nothing changes. |
| BoxSelection.BoxSelect.UnregisterListeners | ol3-viewer/src/ome/ol3/interaction/BoxSelect.js:124-129 | Removes exactly the listeners whose keys the interaction holds. |
| BoxSelection.BoxSelect.ResetListeners | ol3-viewer/src/ome/ol3/interaction/BoxSelect.js:116-119 | Unregisters and then registers again. When `registerListeners` is defined, the held listeners are replaced by a fresh box-start and a fresh box-end listener, so the interaction is listening afterwards, including after DisposeInternal. On an inert instance, where `registerListeners` was never defined, the result says so: only the held listeners are removed, and the held keys are kept. |
| BoxSelection.BoxSelect.DisposeInternal | ol3-viewer/src/ome/ol3/interaction/BoxSelect.js:134-137 | Removes the held listeners, so none remain when it was listening, and drops the regions source. |
| BoxSelection.BoxSelect.BoxStart | ol3-viewer/src/ome/ol3/interaction/BoxSelect.js:45-49 | The selection is empty afterwards when there is a selection manager. Otherwise nothing changes. |
| BoxSelection.BoxSelect.BoxEnd | ol3-viewer/src/ome/ol3/interaction/BoxSelect.js:57-99 | Without a selection manager, no feature is written and `changed` is not called. With one, the selection grows by exactly the gesture's hit ids. The feature list becomes the deselected list (unclustered) or stays the same (clustered). The revision grows by exactly one. |
| BoxSelection.Eligible | ol3-viewer/src/ome/ol3/interaction/BoxSelect.js:64-67 | A feature is eligible when it has a geometry, its `visible` is not the boolean false, and its `state` is not the number REMOVED. A missing `visible` or `state` passes. |
| BoxSelection.Hit | ol3-viewer/src/ome/ol3/interaction/BoxSelect.js:64-70 | A feature is hit when it is eligible and its geometry intersects the drag box's extent. These are the features passed to `toggleFeatureSelection(feature, true)`. |
| BoxSelection.HitIds | ol3-viewer/src/ome/ol3/interaction/BoxSelect.js:63-70 | The unclustered callback, applied to a feature list, selects the ids of its hit features and nothing else. |
| BoxSelection.Deselected | ol3-viewer/src/ome/ol3/interaction/BoxSelect.js:63-71 | After the unclustered callback, every feature that is not hit has `selected` set to false. Hit features are left as they were. The order and length of the list are kept. |
| BoxSelection.ExtentsIntersect | ol3-viewer/src/ome/ol3/interaction/BoxSelect.js:79 | `ol.extent.intersects`: two extents meet when they overlap on both axes, boundaries included. |
| BoxSelection.Candidates | ol3-viewer/src/ome/ol3/interaction/BoxSelect.js:76-82 | Outside clustered-collection mode, a cluster stands for its member features when the box meets its bounding box, and for nothing otherwise. Every other feature stands for itself. |
| BoxSelection.ClusteredHitIds | ol3-viewer/src/ome/ol3/interaction/BoxSelect.js:74-95 | The clustered callback, applied to a feature list, selects the ids of the hit candidates of each feature. |
| BoxSelection.BoxEndSelection | ol3-viewer/src/ome/ol3/interaction/BoxSelect.js:74-97 | `useClustering_` chooses the callback that runs over the region features: clustered when set, unclustered otherwise. |
| BoxSelection.BoxEndFeatures | ol3-viewer/src/ome/ol3/interaction/BoxSelect.js:63-97 | Only the unclustered callback writes to features. Under clustering the feature list is left as it was. |
| BoxSelection.VisitUnclustered | ol3-viewer/src/ome/ol3/interaction/BoxSelect.js:63-97 | After the walk with the unclustered callback, the selection is the old one plus the ids of the hit features. Every other feature has `selected = false`, and nothing else is written. |
| BoxSelection.SelectHits | ol3-viewer/src/ome/ol3/interaction/BoxSelect.js:84-94 | The loop over one candidate list adds exactly the ids of the hit candidates. |
| BoxSelection.VisitClustered | ol3-viewer/src/ome/ol3/interaction/BoxSelect.js:74-97 | The walk with the clustered callback adds exactly the ids of the hit candidates of every feature. It writes no feature. |
| BoxSelection.HitIdsMembership | ol3-viewer/src/ome/ol3/interaction/BoxSelect.js:63-70 | An id is selected on the unclustered path exactly when some feature with that id has a geometry, is not hidden, is not removed, and intersects the box. |
| BoxSelection.UnclusteredGesture | ol3-viewer/src/ome/ol3/interaction/BoxSelect.js:63-71 | A hit feature is selected and left unwritten. Every feature failing one of the four conditions ends with `selected == false`, and its other properties are kept. |
| BoxSelection.ClusterExpansion | ol3-viewer/src/ome/ol3/interaction/BoxSelect.js:76-82 | With clustered-collection mode off, a cluster is never its own candidate. A cluster whose bounding box misses the box contributes no selected id. In clustered-collection mode, or for a plain feature, the feature is the single candidate. |
| BoxSelection.ClusteredHitIdsMembership | ol3-viewer/src/ome/ol3/interaction/BoxSelect.js:74-95 | An id is selected on the clustered path exactly when some candidate of some feature carries that id and is hit. |
| BoxSelection.HitIdsDeselected | ol3-viewer/src/ome/ol3/interaction/BoxSelect.js:63-71 | The `selected = false` writes do not change which features are hit. |
| BoxSelection.BoxEndIdempotent | ol3-viewer/src/ome/ol3/interaction/BoxSelect.js:57-98 | Repeating a gesture with the same box over the feature list it left behind selects the same ids and writes nothing new. |
| BoxSelection.SelectionManager.ClearSelection | ol3-viewer/src/ome/ol3/interaction/BoxSelect.js:48 | The selection is empty afterwards. |
| BoxSelection.SelectionManager.ToggleFeatureSelection | ol3-viewer/src/ome/ol3/interaction/BoxSelect.js:69-70 | Selecting adds the feature's id. Deselecting removes it. |
| BoxSelection.Regions.Changed | ol3-viewer/src/ome/ol3/interaction/BoxSelect.js:98 | The revision grows by one, and the features and the selection manager are kept. |
| RenderSettings.ChannelEntry | src/controls/settings.js:127-128 | The entry of the channel at 0-based position i is `-` for an inactive channel, then the 1-based index i+1, then `|start:end$color`. |
| RenderSettings.ChannelParameters | src/controls/settings.js:124-129 | The channel parameter is the channels' entries in channel order, with a comma before every entry except the first. |
| RenderSettings.ModelInitial | src/controls/settings.js:119 | `model[0]` is the model's first letter. For an empty model it is undefined, which string concatenation writes as `undefined`. `copy` uses the same expression at line 172. |
| RenderSettings.AppendChannelParameters | src/controls/settings.js:124-129 | The url after the `url +=` loop is the url followed by the channel parameter of all channels, in channel order. |
| RenderSettings.ChannelEntryRoundTrip | src/controls/settings.js:127-128 | The entry of the i-th channel starts with `-` exactly when the channel is inactive. It reads back as index i+1 and the channel's activity, window start, window end and colour. |
| RenderSettings.ChannelParametersSplit | src/controls/settings.js:124-129 | For at least one channel, split at the commas, the channel parameter gives the channels' entries in order, one per channel, with no empty piece from a leading or trailing comma. This holds when no colour contains a comma. With no channels the parameter is empty and splits into one empty piece. |
| RenderSettings.ChannelParametersJoin | src/controls/settings.js:124-129 | The channel parameter is the entries joined with `,`. |
| RenderSettings.ChannelParametersRoundTrip | src/controls/settings.js:124-129 | The channel parameter reads back as exactly the channels it was built from, when no colour contains a comma. |
| RenderSettings.Settings.SaveImageSettings | src/controls/settings.js:109-129 | Nothing is sent for a cross-domain server. Otherwise the url carries the image id, the model's first letter, the projection, `t + 1` and `z + 1` (1-based), and the channel parameter. |
| RenderSettings.Settings.Copy | src/controls/settings.js:167-179 | The copy url carries the image id, the pixel range, the model's first letter, the projection, and the same channel parameter as a save. |
| RenderSettings.ToLower | src/controls/settings.js:205 | `toLowerCase` maps the ASCII capitals to lower case and keeps every other character. |
| RenderSettings.RecognisedModel | src/controls/settings.js:204-208 | A copied model is recognised only when it is a non-empty string. Its lower-cased first letter `g` selects greyscale, `c` selects colour, and anything else selects nothing. |
| RenderSettings.PastedModel | src/controls/settings.js:204-208 | The model after the paste is the recognised copied model, or the current model when none is recognised. |
| RenderSettings.ModelHistory | src/controls/settings.js:207-214 | One string-typed entry at `image_info.model`, holding the old and new model, is produced when a recognised model differs from the current one. Otherwise there is no entry. |
| RenderSettings.FieldDiff | src/controls/settings.js:226-258 | For one channel property, one entry is produced when the current and copied values differ. It holds the channel's path, the old value, the copied value and the property's type. |
| RenderSettings.ChannelDiff | src/controls/settings.js:224-259 | The entries for one channel come in the order active, window start, window end, colour. |
| RenderSettings.ApplyCopied | src/controls/settings.js:226-258 | A pasted channel takes the copied activity, window start, window end and colour, the four writes of the loop body. |
| RenderSettings.PastedChannels | src/controls/settings.js:222-259 | After the loop has visited the first n copied channels, each current channel among them carries the copied values. Copied channels past the current ones are skipped. |
| RenderSettings.ChannelHistory | src/controls/settings.js:222-259 | The channel entries are each visited channel's entries in index order. Skipped indices contribute none. |
| RenderSettings.PasteResult | src/controls/settings.js:204-259 | The image info after a paste has the pasted model and the pasted channels, over all the copied channels. A missing channel list pastes none. |
| RenderSettings.RecordedEntries | src/controls/settings.js:261-268 | The list given to `addHistory` is the `initial_values` marker followed by the model entry and then the channel entries. It is empty, and `addHistory` is not called, when nothing changed. |
| RenderSettings.PasteModel | src/controls/settings.js:204-216 | The model becomes greyscale or colour only when the copied model is a non-empty string whose lower-cased first letter is `g` or `c`. An entry holding the old and new model is produced only when the model actually changed. |
| RenderSettings.PasteChannel | src/controls/settings.js:224-259 | For one existing channel, each of active, window start, window end and colour that differs from the copied channel produces one entry (old value, new value, type). Afterwards the channel equals the copied one. |
| RenderSettings.PasteChannels | src/controls/settings.js:219-260 | After the loop, the channels are the pasted channels and the entries are the channel history. Copied channels without a current channel are skipped. |
| RenderSettings.PastedChannelsAt | src/controls/settings.js:222-259 | Each current channel that was copied ends with the copied activity, window and colour. Every other channel is unchanged, and the number of channels is kept. |
| RenderSettings.Settings.Paste | src/controls/settings.js:199-271 | A null definition changes nothing. Otherwise the image info becomes the pasted state. `addHistory` is called once with the marker followed by the changes when there are changes, and not at all when there are none. `changed` is called once. Only the model and the channels of the image info are written, and no undo or redo is requested. |
| RenderSettings.PasteHistoryRedoUndo | src/controls/settings.js:199-268 | Redoing the recorded entries' new values turns the old image info into the pasted one. Undoing their old values, from the last entry back, restores the old image info. |
| RenderSettings.ChannelHistoryReplay | src/controls/settings.js:222-259 | Redoing the channel entries gives the pasted channels. |
| RenderSettings.ChannelHistoryRevert | src/controls/settings.js:222-259 | Undoing the channel entries, from the last back, gives the old channels. |
| RenderSettings.ChannelDiffReplay | src/controls/settings.js:226-259 | Redoing one channel's entries turns it into the copied channel. |
| RenderSettings.ChannelDiffRevert | src/controls/settings.js:226-259 | Undoing one channel's entries turns the copied channel back into the old one. |
| RenderSettings.ChannelHistoryChanges | src/controls/settings.js:222-259 | Any channel entry means some channel changed. |
| RenderSettings.PasteRecordsIffChanged | src/controls/settings.js:261-268 | `addHistory` is called exactly when the paste changed the image info. |
| RenderSettings.PasteEntriesAt | src/controls/settings.js:222-268 | For every channel index and property there is exactly one entry, holding the old and the copied value, when the channel exists, was copied and the values differ. Otherwise there is none. |
| RenderSettings.ChannelHistoryAt | src/controls/settings.js:222-259 | Only the pass over channel j records entries for channel j. |
| RenderSettings.ChannelPathInjective | src/controls/settings.js:228-254 | Entries for different channels or different properties have different paths. |
| RenderSettings.ModelChangeRecord | src/controls/settings.js:95-101 | The record's new value is greyscale exactly when the flag is set. The old value is always the other model, typed as a string, at path `image_info.model`. |
| RenderSettings.ModelChangeRedoUndo | src/controls/settings.js:95-101 | Redoing a model-switch record sets the new model, and undoing it restores the old one. |
| RenderSettings.Settings.OnModelChange | src/controls/settings.js:95-102 | Exactly one model-switch record is appended to the history. The revision is kept, and no undo or redo is requested. |
| RenderSettings.Settings.OnImageConfigChange | src/controls/settings.js:69-79 | An event whose config id is not strictly equal to the bound one changes nothing. For a matching event, the config is replaced by the looked-up one unless that is null. |
| RenderSettings.Settings.Undo | src/controls/settings.js:143-148 | With a config, `undoHistory` and `changed` are each called once. Without one, nothing happens. |
| RenderSettings.Settings.Redo | src/controls/settings.js:155-160 | With a config, `redoHistory` and `changed` are each called once. Without one, nothing happens. |
| RenderSettings.Settings.constructor | src/controls/settings.js:24-31 | Starts with the bound config id and no image config. |
| ImageData.ImageConfig.AddHistory | src/controls/settings.js:267 | Appends one list of entries to the recorded history. |
| ImageData.ImageConfig.UndoHistory | src/controls/settings.js:145 | Records one undo request. |
| ImageData.ImageConfig.RedoHistory | src/controls/settings.js:157 | Records one redo request. |
| ImageData.ImageConfig.Changed | src/controls/settings.js:270 | The revision grows by one, and the history is kept. |
| AppHeader.ShortImageName | src/app/header.js:72-73 | The short name has no `/`. It is a suffix of the image name. When it is shorter than the name, the character just before it is `/`. |
| AppHeader.ShortImageNameOfPath | src/app/header.js:72-73 | For any directory part, the short name of `directory/base` is `base`. |
| AppHeader.ShortImageNameWithoutSlash | src/app/header.js:72-73 | A name without `/` is its own short name. |
| AppHeader.ShortImageNameOfDirectory | src/app/header.js:72-73 | A name ending with `/` has an empty short name. |
| AppHeader.Header.OnImageConfigChange | src/app/header.js:67-74 | A null config leaves the image info and the short name unchanged. Otherwise they become the config's image info and the short form of its name. |
| AppHeader.Header.constructor | src/app/header.js:32-39 | Starts with no image info and an empty short name. |
| Strings.Split | src/app/header.js:72 | `split` always gives at least one piece, and no piece contains the separator. |
| Strings.JoinSplit | src/app/header.js:72 | Joining the pieces of a split with the separator gives the string back. |
| Strings.SplitLast | src/app/header.js:72-73 | The last piece of a split is a suffix of the string. It is the whole string or is preceded by the separator. |
| Strings.ParseIntToString | src/controls/settings.js:127-128 | The decimal text of a window bound reads back as that bound. |

## Left out

- Network and UI effects are not modelled: the `$.ajax` requests, `resetHistory` on success, `requestImgRDef`, `alert` and the jQuery `blur`. The save and copy handlers return the url they would request, and the paste handler is called directly with the copied definition.
- Framework plumbing is not modelled: Aurelia binding, `bind()`/`registerObserver` after a config change, property observers and event subscription.
- `Misc.useJsonp` and `Misc.parseChannelParameters` are not part of this model. The first is the `crossDomain` input of `SaveImageSettings`. The second's result is the `c` field of the pasted definition, with None for a missing result. The channel-string decoder in the model is an independent reading of the format, used only to state the round trip.
- `toggleFeatureSelection`, `clearSelection`, `addHistory`, `undoHistory` and `redoHistory` belong to collaborators that are not part of this model. They are stand-ins: a set of selected ids, and logs of calls.
- OpenLayers internals are not modelled. `geometry.intersectsExtent` is a function parameter of the box-end handler, and so is the drag box's extent. `ol.events.listen` and `unlistenByKey` are modelled as adding and removing fresh keys in a set of registered listeners. `goog.base` and the DragBox behaviour behind `condition_` are not modelled.
- BoxSelection.BoxSelect.RegisterListeners: on an inert instance the source's call to the undefined `registerListeners` throws a TypeError. The model reports this through its `defined` result and changes nothing. The same holds for the second step of BoxSelection.BoxSelect.ResetListeners.
- BoxSelection.BoxSelect.constructor: `console.error` for a non-Regions argument is not modelled. Such an argument is passed as null.
- BoxSelection.BoxSelect.BoxEnd: an undefined `select_` (as opposed to null) is modelled as null, which makes the handler return at once. In the source the handler goes on. It throws in `toggleFeatureSelection` once some candidate is hit. With no hit, the unclustered callback still writes `selected = false` to every feature (BoxSelect.js:71), and `changed` is called (BoxSelect.js:98).
- BoxSelection.BoxSelect.BoxStart and BoxSelection.BoxSelect.BoxEnd require a regions source. After `disposeInternal` drops it, a later `resetListeners` registers the handlers again in the source, and the next gesture throws a TypeError reading `select_` (BoxSelect.js:47 and 59). The model's ResetListeners restores listening after DisposeInternal, but the crash that follows is not modelled.
- RenderSettings.Settings.Copy, RenderSettings.Settings.Paste and RenderSettings.Settings.OnModelChange require an image config. Without one the source throws a TypeError on `this.image_config` (settings.js:168, 197 and 97). RenderSettings.Settings.SaveImageSettings needs one only for a same-domain server, where it reads `image_info` (settings.js:116).
- BoxSelection.Extent: coordinates are integers, while OpenLayers extents are floating point. The model only compares coordinates with `<=`, so no behaviour of the interaction depends on the difference.
- BoxSelection: features are values identified by `id` in the source's feature list. Aliasing between a cluster's member objects and list entries is not modelled, and neither is JavaScript `for-in` over non-index properties.
- BoxSelection.RegionsState: the numeric value of `REGIONS_STATE.REMOVED` is not modelled. Only "removed" and "another number" are distinguished.
- Window start and end are integers. The decimal or floating-point text JavaScript would print for non-integral numbers is not modelled.
- RenderSettings.ToLower: lower-cases ASCII letters only. JavaScript `toLowerCase` handles all of Unicode, but only the first letter being `g` or `c` matters.
- RenderSettings.Settings.Paste: the handler reads `this.image_config` when it runs, while the image info was captured when the paste was requested. The model assumes the config did not change in between.
- RenderSettings.Settings.OnModelChange: `addHistory` receives a single entry object in the source. The model records it as a one-entry list.
- RenderSettings.Replay and RenderSettings.Revert are a reading of how history entries name properties. They are a stand-in for the image configuration's undo and redo, which is not part of this model.
- ImageData.ImageConfig: `imageInfo` is never null. The source guards against a null `image_info` (settings.js:281-282), and the header would throw on one (header.js:72). The model cannot express that case.
- ImageData.ImageInfo: only the fields the three components read or write are modelled.
