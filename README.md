# ClipCutAI timeline and playback core in Dafny

This project models ClipCutAI, a browser video editor. It covers the core of the editor: the project state (tracks, clips, playhead, play flag, selection, zoom) and every operation that updates it.

- **Data model and defaults.** `types.dfy` holds the clip kinds, clip, track, project and asset records. `constants.dfy` holds the three default tracks and the default zoom.
- **App handlers.** In `app.dfy`, each `setProject(prev => ...)` updater is a pure function on `ProjectState`. The class `App.Editor` holds `project` and `assets`, and its methods assign those function results.
- **Player.** `player.dfy` models the active-clip resolver, the per-frame playback step (the class `Player.PlaybackLoop`) and the decision that aligns the `<video>` element with the clock.
- **Timeline.** `timeline.dfy` models the ruler loop (a method with loop invariants), the `m:ss` ruler labels (with a parser proving the labels round-trip), click-to-seek, the per-track clip lists and the pixel positions.
- **Properties panel.** `properties_panel.dfy` models the nested `properties` merge and the callbacks the panel fires.
- **Asset library.** `asset_library.dfy` models upload type inference, the naming of generated assets, and the `isGenerating` flag around a generation (the class `AssetLibrary.Generator`).

The data-model invariant `Types.WellFormed` says:
- track ids are distinct;
- every clip names a track of the lane its kind belongs to (VIDEO and IMAGE on video tracks, TEXT on text tracks, AUDIO on audio tracks);
- media clips carry `src` and text clips carry `content`;
- durations are positive and offsets are not negative.

It holds in the initial state. Drop, add-text and delete keep it unconditionally. The callbacks of the properties panel keep it when clip ids are distinct, which is what fresh ids give (`App.FreshIdKeepsIdsDistinct`); with a duplicated id, a content edit of a TEXT clip would also reach a non-TEXT clip sharing that id.

Where the editor's described intent and its code differ, the model follows the code:
- seeking (`handleTimeUpdate`) does not clamp the playhead to the workspace;
- deleting a clip always clears the selection, even when another clip was selected;
- the background clip is the first active VIDEO or IMAGE clip in clip-array order, not in track order;
- no handler checks that clips overlap;
- `isMuted` and `isHidden` are never read.

Conventions:
- Times, the zoom and the transform fields are `real`.
- A TypeScript `type` field is called `kind`, because `type` is a Dafny keyword.
- `undefined` and `null` are `Option.None`.
- `Partial<Clip>` and `Partial<ProjectState>` are patch records (`ClipPatch`, `ProjectPatch`) whose fields are all optional.

## Model

| member | source | states |
|---|---|---|
| Types.LaneFor | App.tsx:54-57 | VIDEO and IMAGE clips belong on video tracks, TEXT on text tracks, AUDIO on audio tracks, each in both directions |
| Constants.DefaultTracksShape | constants.ts:6-10 | exactly three default tracks with pairwise distinct ids, of kinds video, text, audio in that order, none muted or hidden, exactly one track of each kind |
| Seqs.Filter | App.tsx:89 | `Array.filter`: the result is an order-preserving subsequence of the input. Every element that passes the test occurs in it exactly as often as in the input, and no other element occurs |
| Seqs.Find | App.tsx:117 | `Array.find`: none exactly when no element passes; otherwise an element that passes, with no passing element before it |
| Timeline.TotalSeconds | components/Timeline/Timeline.tsx:18 | the ruler length is at least 60 and at least duration + 10, and is one of the two |
| Timeline.MajorTicks | components/Timeline/Timeline.tsx:17-21 | the ruler loop yields 0, 5, 10, ...: strictly increasing multiples of five, all below the ruler length, with no multiple of five below it missing |
| Timeline.FormatTime | components/Timeline/Timeline.tsx:31-35 | a label is minutes digits, a colon and exactly two seconds digits; the minutes have no leading zero from one minute on; the label is four characters long exactly below ten minutes; and parsing it gives back the seconds it was made from |
| Timeline.ClickTime | components/Timeline/Timeline.tsx:26-28 | the seek time of a click is never negative, is x / zoom for a non-negative offset and 0 for a negative one; there is no upper clamp |
| Timeline.PlayheadLeft | components/Timeline/Timeline.tsx:122 | with a positive zoom, clicking where the playhead of a non-negative time is drawn seeks back to that time |
| Timeline.PlayheadHeight | components/Timeline/Timeline.tsx:123 | the playhead height `tracks.length * 96` equals the height of the track rows stacked one per track, 96 pixels each |
| Timeline.ClipBoxOf | components/Timeline/Timeline.tsx:103-105 | a clip's box starts at startTime * zoom and ends at (startTime + duration) * zoom |
| Timeline.PlayheadInsideClipBox | components/Timeline/Timeline.tsx:103-105 | with a positive zoom the playhead is inside a clip's box exactly when the clip is active at the current time |
| Timeline.TrackClips | components/Timeline/Timeline.tsx:84 | a track row shows the clips naming that track, in clip order, each exactly as often as in the project, and no other clip |
| Timeline.ClipDrawnUnderOneTrack | components/Timeline/Timeline.tsx:83-84 | with distinct track ids a clip is drawn under the track it names and under no other |
| Timeline.HandleClick | components/Timeline/Timeline.tsx:90-93 | a click on a clip box selects that clip and does not seek; a click elsewhere seeks to a non-negative time |
| PropertiesPanel.SetProp | components/Sidebar/PropertiesPanel.tsx:23-26 | the record spread with one key replaced: that key takes the new value and the other four fields are unchanged |
| PropertiesPanel.SliderValue | components/Sidebar/PropertiesPanel.tsx:47-75 | a range input reports a value within its min and max (scale 0.1 to 3, rotation -180 to 180, opacity 0 to 1), and an in-range value unchanged |
| PropertiesPanel.HandlePropChange | components/Sidebar/PropertiesPanel.tsx:21-28 | the call updates the displayed clip with a patch holding only `properties`, equal to the clip's record except that the edited key has the new value |
| PropertiesPanel.PanelEvent | components/Sidebar/PropertiesPanel.tsx:12-97 | with no clip nothing fires; every callback names the displayed clip; content editing fires only for TEXT clips and sends only `content`; delete fires a delete; a slider fires `handlePropChange` |
| PropertiesPanel.SliderEditBounded | components/Sidebar/PropertiesPanel.tsx:43-76 | a slider edit sends a properties record whose edited field is within that slider's range and whose other fields are the clip's own |
| App.InitialState | App.tsx:12-20 | the initial project has the default tracks, no clips, duration 300, the playhead at 0, paused, nothing selected, the positive default zoom 20, and is well formed |
| App.ProjectUpdated | App.tsx:25-27 | every field the update names takes the update's value and every other field keeps the old one, so an empty update changes nothing |
| App.ProjectUpdatedIdempotent | App.tsx:25-27 | applying an update twice equals applying it once |
| App.TimeUpdated | App.tsx:29-31 | `handleTimeUpdate(t)` equals `updateProject({ currentTime: t })`, with no clamping |
| App.PlayToggled | App.tsx:33-35 | `handleTogglePlay()` equals `updateProject` with the negated play flag |
| App.Selected | App.tsx:182 | `updateProject({ selectedClipId: id })` changes only the selection and does not check that the clip exists |
| App.SingleFieldHandlers | App.tsx:29-35 | seeking changes only the playhead, even outside the workspace, and the last seek wins; toggling changes only the play flag, and toggling twice is the identity |
| App.DropTarget | App.tsx:54-57 | both video and image assets go to the first video track; there is none exactly when the project has no video track |
| App.NewMediaClip | App.tsx:60-70 | a dropped clip is VIDEO for a video asset and IMAGE for an image, so it belongs on a video lane and carries `src`. It has the asset's url and name, the drop time as its start, 5 seconds length, offset 0 and the identity transform |
| App.AssetDropped | App.tsx:46-77 | without drag data or without a video track the project is unchanged. Otherwise one clip is appended after the unchanged existing clips and selected: VIDEO for a video asset, IMAGE otherwise, with the asset's url and name, at the playhead on the first video track, 5 seconds long, offset 0, identity transform, no content |
| App.TextTarget | App.tsx:96-97 | "Add Text" uses the first text track; there is none exactly when the project has no text track |
| App.NewTextClip | App.tsx:99-109 | a new text clip is TEXT, so it belongs on a text lane and carries `content` "New Text", named "Text Overlay", starting at the given time, 3 seconds long, offset 0, identity transform |
| App.TextAdded | App.tsx:95-115 | without a text track the project is unchanged. Otherwise one TEXT clip with content "New Text" and name "Text Overlay" is appended at the playhead on the first text track, 3 seconds long, offset 0, identity transform, and selected |
| App.ClipMerged | App.tsx:82 | every field the patch names takes the patch's value and every other field keeps the clip's own; a `properties` patch replaces the whole record |
| App.ClipMergedLaws | App.tsx:82 | an empty patch changes nothing, and merging twice equals merging once |
| App.ClipUpdated | App.tsx:79-84 | clip count and order are kept; clips with the id get the merge, every other clip and every other project field is unchanged |
| App.UpdateUnknownIdIsIdentity | App.tsx:82 | an update naming no clip leaves the project identical |
| App.ClipDeleted | App.tsx:86-92 | every clip with the id is removed; the rest are kept in order, each exactly as often as before; the selection is cleared whichever clip was selected; nothing else changes |
| App.SelectedClipOf | App.tsx:117 | none when nothing is selected or no clip has the selected id; otherwise the first clip in clip order whose id is the selected id |
| App.PanelApplied | App.tsx:171-175 | a panel callback changes only the clips and the selection. An update keeps the selection and merges the patch into exactly the clips with the named id; a delete removes them, keeps every other clip and clears the selection; the result is exactly `ClipUpdated` or `ClipDeleted` of the project, so no clip is invented |
| App.TimelineApplied | App.tsx:179-183 | a seek changes only the playhead, to the seek time; a selection changes only the selected id |
| App.TimelineClickEffect | App.tsx:179-183 | a wired clip click changes only the selection, to that clip; a background click changes only the playhead, to a non-negative time |
| App.PropertyEditIsolated | App.tsx:171-175 | with distinct clip ids, a property edit on the selected clip changes that one property of that one clip and nothing else in the project |
| App.DeleteKeepsWellFormed | App.tsx:86-92 | deleting keeps the data-model invariants |
| App.DropKeepsWellFormed | App.tsx:54-70 | dropping keeps the data-model invariants: a dropped image or video lands on a video track with a `src` |
| App.AddTextKeepsWellFormed | App.tsx:96-109 | adding text keeps the data-model invariants: the clip lands on a text track with `content` |
| App.MergeKeepsClipWellFormed | App.tsx:82 | a merge that leaves id, track, kind, src, duration and offset alone, and sets content only on TEXT clips, keeps the clip well formed and its id |
| App.UpdateKeepsWellFormed | App.tsx:79-84 | an update by id whose patch keeps the shape of every clip with that id keeps the data-model invariants and every clip's id |
| App.PanelKeepsWellFormed | App.tsx:171-175 | every callback the panel can fire on the selected clip keeps the data-model invariants and distinct clip ids |
| App.PanelPatchKeepsShape | components/Sidebar/PropertiesPanel.tsx:21-87 | every update the panel sends leaves the clip's id, track, kind, `src`, duration and offset alone, and sends `content` only for a TEXT clip |
| App.CallbackKeepsWellFormed | App.tsx:171-175 | an update or delete naming a clip of the project, whose patch keeps that clip's shape, keeps the invariants and distinct clip ids |
| App.SelectedUpdateKeepsWellFormed | App.tsx:79-84 | with distinct ids, a shape-keeping update of one clip keeps the invariants and distinct clip ids |
| App.DeleteKeepsIdsDistinct | App.tsx:86-92 | deleting keeps clip ids distinct |
| App.FilterKeepsIdsDistinct | App.tsx:89 | removing clips by id keeps the remaining ids distinct |
| App.FreshIdKeepsIdsDistinct | App.tsx:61 | with a fresh id, dropping and adding text keep clip ids distinct |
| App.Editor.constructor | App.tsx:12-22 | the editor starts with the initial project, whose zoom is the positive default, and no assets |
| App.Editor.UpdateProject | App.tsx:25-27 | the project becomes the spread merge of the old project and the update; the assets are unchanged; the zoom changes only when the update names it |
| App.Editor.HandleTimeUpdate | App.tsx:29-31 | the project becomes the old one with the new playhead; the assets and the zoom are unchanged |
| App.Editor.HandleTogglePlay | App.tsx:33-35 | the project becomes the old one with the play flag negated; the assets and the zoom are unchanged |
| App.Editor.HandleAddAsset | App.tsx:37-39 | the asset is appended to the list; the project is unchanged |
| App.Editor.HandleDropOnTimeline | App.tsx:46-77 | the project becomes the drop result of the old one; the invariants are kept; the assets and the zoom are unchanged |
| App.Editor.HandleUpdateClip | App.tsx:79-84 | the project becomes the update result of the old one; the assets and the zoom are unchanged |
| App.Editor.HandleDeleteClip | App.tsx:86-92 | the project becomes the delete result of the old one; the invariants are kept; the assets and the zoom are unchanged |
| App.Editor.HandleAddText | App.tsx:95-115 | the project becomes the add-text result of the old one; the invariants are kept; the assets and the zoom are unchanged |
| App.Editor.SelectClip | App.tsx:182 | going through `updateProject`, only the selection changes |
| App.Editor.SelectedClip | App.tsx:117 | the clip given to the panel: none exactly when nothing is selected or the id is stale, otherwise the first clip of the project with the selected id, as `find` returns |
| App.Editor.HandlePanelCallback | App.tsx:171-175 | `onUpdateClip` runs `handleUpdateClip` and `onDeleteClip` runs `handleDeleteClip`; the zoom is unchanged |
| App.Editor.HandleTimelineClick | App.tsx:179-183 | a timeline click applies the click's event at the current zoom, whose positivity the constructor and every zoom-keeping handler guarantee |
| App.Editor.HandleTimelineEvent | App.tsx:179-183 | `onSeek` runs `handleTimeUpdate` and `onSelectClip` runs `updateProject({ selectedClipId })`; the zoom is unchanged |
| Player.IsActive | components/Player.tsx:18-21 | the active interval is half open: a clip of positive length is active at its start time and inactive at its end time, and a clip of no length is never active |
| Player.ActiveClips | components/Player.tsx:18-21 | the active clips are an order-preserving subsequence of the clips. Each clip with startTime <= t < startTime + duration occurs in it exactly as often as in the project, and no other clip occurs |
| Player.ActiveVideo | components/Player.tsx:25 | the background is the first clip in clip-array order that is active and VIDEO or IMAGE; it is absent exactly when no clip is both; it is never AUDIO |
| Player.ActiveVideoIsFirstActiveVisual | components/Player.tsx:18-25 | finding the first visual clip among the active ones equals finding the first active visual clip of the whole list |
| Player.ActiveTextClips | components/Player.tsx:26 | the overlays are exactly the active TEXT clips, in clip order, each exactly as often as in the clip list, so AUDIO clips are never among them |
| Player.ActiveTextClipsExact | components/Player.tsx:18-26 | filtering the active clips for TEXT equals filtering all clips once for active TEXT clips |
| Player.Tick | components/Player.tsx:33-47 | paused is a fixed point. Playing, the playhead either advances by delta / 1000 and play continues, or is set to the duration and play stops. Only those two fields change, and a playing tick never leaves the playhead past the end |
| Player.RunFromPlaying | components/Player.tsx:33-47 | across any run of frames with non-negative deltas, playing from inside the workspace never passes the end. Once the deltas add up to at least the time left it ends paused exactly at the end; otherwise it is still playing, advanced by their sum |
| Player.RunPausedFixed | components/Player.tsx:34 | once paused, no run of frames changes the project |
| Player.PlaybackLoop.constructor | components/Player.tsx:31 | registering the effect records the current timestamp as the last frame time |
| Player.PlaybackLoop.Frame | components/Player.tsx:33-48 | a paused frame changes nothing and requests no further frame. A playing frame applies the tick, with delta equal to this timestamp minus the last one, and records the timestamp. Another frame is requested exactly when still playing |
| Player.SeekTime | components/Player.tsx:88 | the media time is the clip's offset at the clip's start; while the clip is active it lies from its offset up to, not including, offset + duration |
| Player.SyncDecision | components/Player.tsx:86-95 | the element seeks to the media time exactly when it is more than 0.5 s off it; it plays exactly when playing and paused, pauses exactly when not playing and running, and never does both |
| Player.SyncReconciles | components/Player.tsx:86-95 | after the action the element is within tolerance of the media time, paused exactly when the project is not playing, and a second decision does nothing |
| Player.VideoSync | components/Player.tsx:73-95 | there is a media element to align exactly when the background clip is a VIDEO clip, and it is aligned by the decision for that clip |
| Player.DropImageThenSeek | components/Player.tsx:18-26 | from the initial project, dropping an image at time 0 and seeking to 3 gives one selected IMAGE clip on track-1. That clip is the background at time 3 with media seek time 3, there are no overlays and no video element |
| AssetLibrary.UploadKind | components/Sidebar/AssetLibrary.tsx:24 | an upload is a video exactly when its MIME type starts with "video", otherwise an image |
| AssetLibrary.UploadedAsset | components/Sidebar/AssetLibrary.tsx:20-32 | no file gives no asset; a file gives an asset with the fresh id, the object URL, the file's name and the inferred type |
| AssetLibrary.GeneratedName | components/Sidebar/AssetLibrary.tsx:62 | a generated name is the tag, then the prompt's first min(15, length) characters, then "..." |
| AssetLibrary.GeneratedAsset | components/Sidebar/AssetLibrary.tsx:51-78 | image mode gives one image named "AI: " + prefix + "..."; video mode gives one video named "Veo: " + prefix + "..."; script mode and failures give no asset |
| AssetLibrary.Generator.constructor | components/Sidebar/AssetLibrary.tsx:14-18 | the panel starts on the media tab, with an empty prompt, not generating, image mode and no result |
| AssetLibrary.Generator.CanGenerate | components/Sidebar/AssetLibrary.tsx:168 | the Generate button is enabled exactly when no generation is running and the prompt is not empty |
| AssetLibrary.Generator.SetPrompt | components/Sidebar/AssetLibrary.tsx:162 | typing sets only the prompt |
| AssetLibrary.Generator.SetGenMode | components/Sidebar/AssetLibrary.tsx:152 | a mode button sets only the mode |
| AssetLibrary.Generator.SetActiveTab | components/Sidebar/AssetLibrary.tsx:92 | a tab button sets only the active tab |
| AssetLibrary.Generator.BeginGenerate | components/Sidebar/AssetLibrary.tsx:34-37 | an empty prompt returns at once with no state change; otherwise the flag goes up, the previous result is cleared and the prompt and mode are captured; pressing an enabled button starts a request and disables the button |
| AssetLibrary.Generator.FinishGenerate | components/Sidebar/AssetLibrary.tsx:39-84 | the flag goes down on success and failure alike. The library gains exactly the generated asset, if any, and the project is unchanged. A successful script is stored as the result; otherwise the result is kept |
| AssetLibrary.HandleFileUpload | components/Sidebar/AssetLibrary.tsx:20-32 | the library gains exactly the uploaded asset, if any; the project is unchanged |
| AssetLibrary.Generate | components/Sidebar/AssetLibrary.tsx:34-85 | an empty prompt leaves the library unchanged. Otherwise the library gains exactly the asset generated from the prompt and mode read at the start, if any, so one asset exactly when the service succeeds and the mode is not script. The project is never changed. The prompt, mode and tab are kept; an empty prompt leaves the flag and the result as they were, otherwise the flag ends down and the result is the script in script mode on success and empty in every other case |

## Left out

- Drag data decoding: `JSON.stringify` and `JSON.parse` of the dragged asset are not modelled. A drop receives the decoded asset, or `None` when the drag carried no data.
- Random ids and object URLs: `crypto.randomUUID` and `URL.createObjectURL` are parameters (a fresh id, a URL). Id freshness is a lemma hypothesis, not a guarantee.
- Frame scheduling: `requestAnimationFrame`, `cancelAnimationFrame`, `performance.now` and the effect re-registration are host scheduling. The frame timestamp is a parameter of `PlaybackLoop.Frame`, and registering the effect is the `PlaybackLoop` constructor.
- The video element: only the decision of its `ref` callback is modelled. The element's own playback, the async `play()` promise and the `<img>` and overlay rendering are not.
- Services: the generative service (`services/geminiService.ts`), including the Veo key check and prompt, is one outcome parameter, success with a payload or failure. `fetch` and blob conversion of the image are part of that outcome.
- Browser calls: `alert`, `console.error` and `navigator.clipboard` have no model-visible effect and are left out.
- Presentation: the `Date` time display in the player header, and all styling, icons and JSX layout, are presentation only.
- Floating point: numbers are exact reals, so nothing is claimed about the rounding of `delta / 1000` or `x / zoom`.
- Timeline.FormatTime: defined on whole non-negative seconds only, which is all its one caller (the ruler ticks) passes. Fractional and negative inputs are not modelled.
- Timeline.ClickTime: requires a positive zoom. The editor starts at the positive default zoom and only an `updateProject` that names `zoom` changes it; no code path does, so `Editor.HandleTimelineClick` can require it.
- The click geometry: `getBoundingClientRect`, `scrollLeft` and the missing-ref guard are left out. The click offset is a parameter.
- PropertiesPanel.SliderValue: models the browser's range-input clamp. The `step` rounding and `parseFloat` of the reported string are not modelled.
- Track flags: `isMuted` and `isHidden` are stored but never read by the code.
- State capture: drop and add-text read the tracks and the playhead from the project captured at render time. The model reads them from the held project, so it does not capture a render lagging behind a pending update.
- Tab and generation state: `AssetLibrary.Generator` sets its fields in place of React's asynchronous state batching. Its `BeginGenerate`/`FinishGenerate` split stands for the `await` in `handleGenerate`. Interleaving of two generations is not modelled, but the disabled button makes it unreachable.
- AssetLibrary.GeneratedName: counts the fifteen-character prefix in characters (Unicode scalar values), not in the UTF-16 code units that `slice(0, 15)` counts. A prompt with characters outside the Basic Multilingual Plane is therefore cut at a different place.
- Player.PlaybackLoop.Frame: a second call on the same `PlaybackLoop` after a frame that moved the playhead does not happen in the source. Moving the playhead re-runs the effect: its cleanup cancels the frame just requested, and the new registration resets `lastTime` to the registration time, so `lastTime = time` is never read again. The model composes such a case only as a new `PlaybackLoop` built with the registration timestamp, so it does not capture the time lost between a frame and the re-registration that follows it.
- App.ClipMerged: a present patch field always wins. A field that is present in `Partial<Clip>` but explicitly `undefined` is copied by the JavaScript spread, which clears the clip's value; the model has no such state, because `ClipPatch` has only "absent" or "a value". No caller in the editor sends an explicit `undefined`. The same holds for `App.ProjectUpdated`.
