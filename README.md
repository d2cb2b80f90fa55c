# vrm-soundscape core, modelled in Dafny

vrm-soundscape is a browser app that shows a VRM character, plays sound
through it, and animates its mouth and eyes. This project models the app's
client-side logic and proves properties about it:

- **Lip sync** (`lip_sync.dfy`). The analyser buffer holds 2048 samples. The
  mouth volume is the mean absolute amplitude, amplified five times and
  capped at 1.
- **Distance monitoring** (`distance_volume_control.dfy`). A frame loop
  forwards the camera-to-character distance to the audio side. It only
  forwards a distance that differs from the last one sent by more than 0.01.
- **Auto blink** (`auto_blink.dfy`). A two-phase timer: 5 s open, 0.12 s
  closed. It writes the `blink` expression weight.
- **Drag controls** (`drag_controls.dfy`). Pointer coordinates are
  normalised. Pressing on the character grabs it on a plane that faces the
  camera. Moving keeps the grabbed point under the pointer. The controller
  registers and later removes its canvas listeners.
- **Settings components.** `audio_file_settings.dfy` covers the audio upload
  list: type, size and capacity rules, removal, clearing. `vrm_settings.dfy`
  covers the VRM file validator. `audio_selector.dfy` covers the audio
  drop-down: name truncation, label, open state.
- **Settings hooks.**
  - `local_storage.dfy`: the generic persisted value and partial record
    updates.
  - `audio_settings.dfy`: audio settings and the preview player.
  - `vrm_settings_hook.dfy`: the persisted VRM settings and the loading
    state.
  - `ui_settings.dfy`: settings-panel visibility.
  - `animation_frame.dfy`: the frame-delta loop.

`numbers.dfy`, `options.dfy` and `types.dfy` hold shared definitions:
absolute value, sums, `Option`, the `File`/`AudioFile` records, lookup by id,
and settings values.

Whatever the browser or a library computes arrives as an input of the
operation that uses it:

- analyser samples;
- whether fetching and decoding audio succeeded;
- ray hits on the character and on the drag plane;
- the camera direction;
- frame timestamps;
- generated ids and object URLs;
- whether a `localStorage` call throws;
- whether the page has a `window`.

`JSON.stringify`/`JSON.parse` are an abstract encode/decode pair whose
decode may fail. Numbers are `real`. Alerts are recorded as data. Calls to
`onVRMFileChange`, `onAudioFilesChange`, `onAudioSelect`,
`setVolumeByDistance` and `onPositionChange` are recorded as a returned or
logged list of arguments.

## Model

| member | source | states |
|---|---|---|
| LipSync.MeanAmplitudeVolume | app/lib/LipSync.ts:35-41 | the averaging loop returns exactly `Volume` of the buffer: min(5 × mean of absolute samples, 1) |
| LipSync.LipSync.constructor | app/lib/LipSync.ts:1-4 | a new object has no analyser and no buffer |
| LipSync.LipSync.StartAnalysis | app/lib/LipSync.ts:6-28 | on success it installs an analyser and a fresh zeroed buffer of 2048 samples and returns a source; on failure it returns null and keeps the previous analyser and buffer |
| LipSync.LipSync.GetVolume | app/lib/LipSync.ts:30-42 | 0 without an analyser or buffer; otherwise it refills the buffer with the live samples and returns their `Volume`; always in [0, 1] |
| LipSync.SumAbsNonNegative | app/lib/LipSync.ts:35-38 | the sum of absolute samples is never negative |
| LipSync.SumAbsOfSilence | app/lib/LipSync.ts:35-38 | an all-zero window sums to 0 |
| LipSync.SumAbsMonotone | app/lib/LipSync.ts:35-38 | raising one sample's magnitude never lowers the sum |
| LipSync.VolumeInUnitRange | app/lib/LipSync.ts:40-41 | the volume lies in [0, 1] for every window |
| LipSync.SilentWindowIsMute | app/lib/LipSync.ts:40-41 | silence gives volume 0 |
| LipSync.LoudWindowSaturates | app/lib/LipSync.ts:41 | a mean amplitude of at least 0.2 saturates the volume at 1 |
| LipSync.QuietWindowIsAmplifiedMean | app/lib/LipSync.ts:41 | below a mean of 0.2 the volume is exactly five times the mean, and below 1 |
| LipSync.VolumeMonotone | app/lib/LipSync.ts:35-41 | a louder sample never makes the mouth close further |
| DistanceVolumeControl.ForwardedIsSpaced | app/hooks/useDistanceVolumeControl.ts:21-35 | consecutive forwarded distances differ by more than 0.01, and the first differs from 0 by more than 0.01 |
| DistanceVolumeControl.ForwardedComesFromFrames | app/hooks/useDistanceVolumeControl.ts:29-35 | at most one call per frame, and only measured distances are forwarded |
| DistanceVolumeControl.ForwardingIsIdempotent | app/hooks/useDistanceVolumeControl.ts:32-35 | filtering an already-spaced sequence forwards all of it |
| DistanceVolumeControl.StationaryForwardsAtMostOnce | app/hooks/useDistanceVolumeControl.ts:32-35 | a camera that does not move causes at most one call |
| DistanceVolumeControl.DistanceMonitor.constructor | app/hooks/useDistanceVolumeControl.ts:11 | no frame is pending and nothing has been forwarded |
| DistanceVolumeControl.DistanceMonitor.Start | app/hooks/useDistanceVolumeControl.ts:13-40 | with a guard failing, no frame is pending and nothing is forwarded; otherwise `lastDistance` restarts at 0, the first frame runs synchronously and the next is requested |
| DistanceVolumeControl.DistanceMonitor.UpdateDistance | app/hooks/useDistanceVolumeControl.ts:24-38 | a failing guard stops the loop; otherwise the distance is forwarded exactly when it differs from the last forwarded one by more than 0.01, and another frame is requested; the calls since the restart always equal `Forwarded` of the distances measured |
| DistanceVolumeControl.DistanceMonitor.OnAnimationFrame | app/hooks/useDistanceVolumeControl.ts:37 | a scheduled frame runs one more step of the loop |
| DistanceVolumeControl.DistanceMonitor.Cleanup | app/hooks/useDistanceVolumeControl.ts:42-46 | cleanup leaves no frame pending |
| AutoBlink.RunKeepsConsistent | app/features/animation/AutoBlink.ts:19-75 | after any sequence of updates the eyes are shut exactly when the last weight written is 1; only weights 0 and 1 are written, and none without a manager |
| AutoBlink.DisabledRunIsIdle | app/features/animation/AutoBlink.ts:19-22 | a disabled timer ignores every update |
| AutoBlink.CountdownHoldsPhase | app/features/animation/AutoBlink.ts:24-28 | while the elapsed time is below the remaining time, updates only count down |
| AutoBlink.RemainingTimeBounded | app/features/animation/AutoBlink.ts:24-36 | with non-negative deltas the countdown never exceeds the 5 s open duration |
| AutoBlink.BlinkCycle | app/features/animation/AutoBlink.ts:24-75 | an expired open eye closes (weight 1, 0.12 s) and reopens (weight 0, 5 s) on the first update after the close duration has elapsed |
| AutoBlink.AutoBlink.constructor | app/features/animation/AutoBlink.ts:6-13 | a new timer is open and enabled, with 5 s to run |
| AutoBlink.AutoBlink.Update | app/features/animation/AutoBlink.ts:19-37 | one update performs one `Step`, and the state stays consistent |
| AutoBlink.AutoBlink.Disable | app/features/animation/AutoBlink.ts:42-49 | disables, forces the eyes open (weight 0 written when there is a manager) and keeps the countdown |
| AutoBlink.AutoBlink.Enable | app/features/animation/AutoBlink.ts:54-57 | enables with a fresh 5 s countdown and keeps the eye state |
| AutoBlink.AutoBlink.Close | app/features/animation/AutoBlink.ts:62-66 | closes the eyes: weight 1, 0.12 s to run |
| AutoBlink.AutoBlink.Open | app/features/animation/AutoBlink.ts:71-75 | opens the eyes: weight 0, 5 s to run |
| AutoBlink.AutoBlink.GetBlinkState | app/features/animation/AutoBlink.ts:80-85 | reports both flags and changes nothing |
| DragControls.PlaneThrough | app/features/controls/DragControls.ts:122-126 | the drag plane passes through the grabbed point |
| DragControls.MousePosition | app/features/controls/DragControls.ts:72-90 | a mouse event, or a touch event's first touch, maps to coordinates that map back to that client point; a touch event without touches gives (0, 0) |
| DragControls.NdcEdges | app/features/controls/DragControls.ts:86-87 | the canvas edges map to x = ±1 and y = ±1, with y pointing up |
| DragControls.NdcIsLinear | app/features/controls/DragControls.ts:86-87 | normalised coordinates change in proportion to the pointer's movement, with y inverted |
| DragControls.NdcInsideCanvas | app/features/controls/DragControls.ts:86-87 | a point inside the canvas lands in [-1, 1] × [-1, 1] |
| DragControls.NdcRoundTrip | app/features/controls/DragControls.ts:72-90 | normalisation is invertible: the client point can be recovered |
| DragControls.SetupRegistersSeven | app/features/controls/DragControls.ts:50-70 | setup registers seven distinct listeners |
| DragControls.SetupBindsEachEvent | app/features/controls/DragControls.ts:50-70 | each event gets its bound handler, and `mouseleave` shares the `mouseup` handler |
| DragControls.Object3D.constructor | app/features/controls/DragControls.ts:12 | an object starts at the position it is given |
| DragControls.DragControls.constructor | app/features/controls/DragControls.ts:9-33 | no character, not dragging, default plane, zero offset, and the seven setup listeners registered |
| DragControls.DragControls.SetCharacter | app/features/controls/DragControls.ts:35-37 | the character is set |
| DragControls.DragControls.SetPositionCallback | app/features/controls/DragControls.ts:27 | records whether `onPositionChange` is assigned |
| DragControls.DragControls.GetCurrentPosition | app/features/controls/DragControls.ts:39-48 | the origin without a character, otherwise the character's position |
| DragControls.DragControls.OnMouseDown | app/features/controls/DragControls.ts:92-102 | a hit on the character starts a drag; no character or no hit changes nothing |
| DragControls.DragControls.OnTouchStart | app/features/controls/DragControls.ts:104-115 | only a single-finger touch that hits the character starts a drag |
| DragControls.DragControls.StartDrag | app/features/controls/DragControls.ts:117-130 | dragging, grabbing cursor, plane facing the camera through the hit, offset = hit − position |
| DragControls.DragControls.OnMouseMove | app/features/controls/DragControls.ts:132-137 | moves the character only while dragging |
| DragControls.DragControls.OnTouchMove | app/features/controls/DragControls.ts:139-145 | moves the character only while dragging with one finger |
| DragControls.DragControls.UpdateDrag | app/features/controls/DragControls.ts:147-159 | with a plane hit, position = hit − offset (the grabbed point stays under the pointer) and the callback, if set, receives the new position; without a hit nothing changes |
| DragControls.DragControls.EndDrag | app/features/controls/DragControls.ts:161-174 | ends any drag and restores the cursor only if a drag was active |
| DragControls.DragControls.Dispose | app/features/controls/DragControls.ts:176-186 | removes exactly the listeners setup registered |
| DragControls.DragScenario | app/features/controls/DragControls.ts:92-174 | a press at `grab`, a move to `target` and a release move the character by `target − grab` |
| Types.FindById | app/components/ui/AudioSelector.tsx:20 | None exactly when no entry has the id; otherwise an entry of the list with that id |
| Types.FindByIdIsFirst | app/components/settings/AudioFileSettings.tsx:93 | the entry found is the first with the id |
| AudioFileSettings.HandleFileSelect | app/components/settings/AudioFileSettings.tsx:25-61 | the loop builds one entry per `Accepted` file (fresh id, name, URL, size), raises exactly the `Alerts` alerts, and calls back with old + new entries only when something was accepted |
| AudioFileSettings.AcceptedAreAdmissible | app/components/settings/AudioFileSettings.tsx:32-41 | every accepted file is `audio/*` and at most 100 MiB |
| AudioFileSettings.AcceptedWithinCapacity | app/components/settings/AudioFileSettings.tsx:44-47 | the list never grows past `maxFiles`, and a full list does not grow |
| AudioFileSettings.AcceptedKeepsOrder | app/components/settings/AudioFileSettings.tsx:28-56 | accepted files keep their selection order |
| AudioFileSettings.AcceptedWhenRoom | app/components/settings/AudioFileSettings.tsx:28-56 | with room for the whole selection, exactly the admissible files are accepted |
| AudioFileSettings.NoCapacityAlertWithoutAdmissibleFile | app/components/settings/AudioFileSettings.tsx:32-47 | a selection with no admissible file raises one type or size alert per file and never the capacity alert |
| AudioFileSettings.ChangeWithinCapacity | app/components/settings/AudioFileSettings.tsx:58-60 | the list passed on keeps the existing entries first and has at most max(existing, `maxFiles`) entries |
| AudioFileSettings.RemoveById | app/components/settings/AudioFileSettings.tsx:89 | keeps exactly the entries with another id |
| AudioFileSettings.RemoveByIdDistributes | app/components/settings/AudioFileSettings.tsx:89 | removal works piecewise, so surviving entries keep their order |
| AudioFileSettings.RemoveByIdIdempotent | app/components/settings/AudioFileSettings.tsx:89 | removing twice is removing once; removing an absent id changes nothing |
| AudioFileSettings.RemoveAudioFile | app/components/settings/AudioFileSettings.tsx:88-97 | passes on the filtered list and revokes a URL exactly when an entry had the id: that of the first such entry |
| AudioFileSettings.ClearAllFiles | app/components/settings/AudioFileSettings.tsx:99-103 | revokes every entry's URL in list order and passes on the empty list |
| VrmSettings.Lower | app/components/settings/VRMSettings.tsx:22 | lower-casing keeps the length and maps each character |
| VrmSettings.HandleFileSelect | app/components/settings/VRMSettings.tsx:18-34 | forwards the file exactly when it exists, ends in `.vrm` in any case and is at most 50 MiB; ignores a missing file; rejects a wrong extension |
| VrmSettings.Callbacks | app/components/settings/VRMSettings.tsx:33 | exactly one `onVRMFileChange` call, for a forwarded file; none otherwise |
| VrmSettings.FirstFile | app/components/settings/VRMSettings.tsx:36-47 | the first file of a selection or drop, null when there is none |
| VrmSettings.ResetToDefault | app/components/settings/VRMSettings.tsx:59-64 | one call with null |
| VrmSettings.ExtensionCheckedBeforeSize | app/components/settings/VRMSettings.tsx:22-31 | a wrong extension is reported even when the file is also too large |
| VrmSettings.SizeLimitIsInclusive | app/components/settings/VRMSettings.tsx:28 | exactly 50 MiB passes; one byte more fails |
| VrmSettings.ExtensionIgnoresCase | app/components/settings/VRMSettings.tsx:22 | any capitalisation of `.vrm` passes |
| VrmSettings.ExtensionNeedsSuffix | app/components/settings/VRMSettings.tsx:22 | a name passes only if its last four characters lower-case to `.vrm` |
| VrmSettings.FirstFileDecides | app/components/settings/VRMSettings.tsx:36-47 | a multi-file selection is decided by its first file alone |
| AudioSelector.TruncateFileName | app/components/ui/AudioSelector.tsx:40-43 | names within the limit are kept; longer ones become their first `maxLength − 3` characters plus `...`, or just `...` when `maxLength < 3` |
| AudioSelector.TruncatedFits | app/components/ui/AudioSelector.tsx:40-43 | for `maxLength ≥ 3` the shown name fits in `maxLength` |
| AudioSelector.TruncateIdempotent | app/components/ui/AudioSelector.tsx:40-43 | truncating a truncated name changes nothing |
| AudioSelector.ButtonLabel | app/components/ui/AudioSelector.tsx:96 | the default-voice label exactly when no entry has the selected id; otherwise a name of at most 20 characters |
| AudioSelector.Dropdown.constructor | app/components/ui/AudioSelector.tsx:17 | starts closed |
| AudioSelector.Dropdown.HandleSelect | app/components/ui/AudioSelector.tsx:35-38 | forwards the id and closes |
| AudioSelector.Dropdown.Toggle | app/components/ui/AudioSelector.tsx:71 | flips the open state unless disabled |
| AudioSelector.Dropdown.MouseDownElsewhere | app/components/ui/AudioSelector.tsx:24-33 | a mouse-down outside closes the drop-down; one inside keeps its state |
| LocalStorage.Storage.constructor | app/hooks/useLocalStorage.ts:16 | a storage with the given entries |
| LocalStorage.StoredValueIsReadBack | app/hooks/useLocalStorage.ts:15-47 | a value written by `setStoredValue` is what the next initial read returns, for values whose encoding round-trips |
| LocalStorage.RemovedKeyReadsDefault | app/hooks/useLocalStorage.ts:15-62 | after `resetValue` removes the key, the next read yields the default |
| LocalStorage.KeysAreIndependent | app/hooks/useLocalStorage.ts:15-62 | writing or removing one key never changes what another key reads |
| LocalStorage.UndecodableReadsDefault | app/hooks/useLocalStorage.ts:20-29 | an entry that fails to parse falls back to the default |
| LocalStorage.LocalStorageHook.constructor | app/hooks/useLocalStorage.ts:32 | the hook starts from `getInitialValue` |
| LocalStorage.LocalStorageHook.Reload | app/hooks/useLocalStorage.ts:65-67 | the mount effect re-reads the initial value |
| LocalStorage.LocalStorageHook.SetStoredValue | app/hooks/useLocalStorage.ts:35-47 | the value is replaced even when the write throws; storage is written only with a window and no failure |
| LocalStorage.LocalStorageHook.ResetValue | app/hooks/useLocalStorage.ts:50-62 | the value becomes the default; the key is removed only with a window and no failure |
| LocalStorage.Merge | app/hooks/useLocalStorage.ts:87 | the merged record has both key sets; updated keys take the new value and the others keep theirs |
| LocalStorage.MergeIdempotent | app/hooks/useLocalStorage.ts:86-88 | applying the same partial update twice equals applying it once |
| LocalStorage.MergeComposes | app/hooks/useLocalStorage.ts:86-88 | two partial updates act as one combined update, the later one winning |
| LocalStorage.UpdateSettings | app/hooks/useLocalStorage.ts:86-88 | the record becomes the merge of the current record and the update, and is stored |
| AudioSettings.PlayAsWritten | app/hooks/useAudioSettings.ts:44-71 | as written: pressing the playing file clears the state without silencing anything; another file becomes current |
| AudioSettings.Play | app/hooks/useAudioSettings.ts:44-71 | corrected: pressing the playing file silences everything; another file becomes the only sounding element |
| AudioSettings.Finished | app/hooks/useAudioSettings.ts:59-61 | as written: the `ended` listener of any element clears the state and stops that element |
| AudioSettings.FailedAsWritten | app/hooks/useAudioSettings.ts:62-70 | as written: every `error` event or rejected `play()`, from any element, clears the state, stops that element and adds one alert |
| AudioSettings.Ended | app/hooks/useAudioSettings.ts:59-61 | corrected: only the sounding element's `ended` clears the state; any other is ignored |
| AudioSettings.Failed | app/hooks/useAudioSettings.ts:62-70 | corrected: one alert and a cleared state for the sounding element's failure; a repeated notification or a paused element's rejection is ignored |
| AudioSettings.PlayKeepsCoherent | app/hooks/useAudioSettings.ts:44-56 | with the correction, only the element of the file shown as playing makes sound, after any play |
| AudioSettings.NotificationKeepsCoherent | app/hooks/useAudioSettings.ts:59-70 | with the correction, a notification from any element keeps the player coherent, and the sounding element's own notification silences it |
| AudioSettings.StopSilences | app/hooks/useAudioSettings.ts:45-53 | with the correction, "stop" on the playing file silences the player |
| AudioSettings.StopKeepsSoundingAsWritten | app/hooks/useAudioSettings.ts:45-53 | as written, play then "stop" on the same file shows nothing playing while the element still sounds |
| AudioSettings.SwitchKeepsBothSoundingAsWritten | app/hooks/useAudioSettings.ts:44-61 | as written, switching files leaves two elements sounding, and the first one ending clears the state while the second still plays |
| AudioSettings.UnplayableFileAlertsTwiceAsWritten | app/hooks/useAudioSettings.ts:62-70 | as written, an unplayable file's `error` event and rejected `play()` show two alerts |
| AudioSettings.UnplayableFileAlertsOnce | app/hooks/useAudioSettings.ts:62-70 | corrected, the same two notifications show one alert and leave the player idle |
| AudioSettings.PausedRejectionAsWritten | app/hooks/useAudioSettings.ts:44-70 | with pausing added but the listeners as written, a paused element's rejected `play()` clears the state and alerts while the new file plays; the corrected listener ignores it |
| AudioSettings.AudioSettingsHook.constructor | app/hooks/useAudioSettings.ts:5-26 | reads the `vrm-soundscape-audio` record with its defaults; nothing is playing |
| AudioSettings.AudioSettingsHook.ChangeSpatialAudio | app/hooks/useAudioSettings.ts:28-30 | changes only `spatialAudio` and stores the record |
| AudioSettings.AudioSettingsHook.ChangeVolume | app/hooks/useAudioSettings.ts:32-34 | changes only `volume` and stores the record |
| AudioSettings.AudioSettingsHook.ChangeAudioFiles | app/hooks/useAudioSettings.ts:36-38 | changes only `audioFiles` and stores the record |
| AudioSettings.AudioSettingsHook.ChangeSelectedAudio | app/hooks/useAudioSettings.ts:40-42 | changes only `selectedAudioId` and stores the record |
| AudioSettings.AudioSettingsHook.PlayAudio | app/hooks/useAudioSettings.ts:44-71 | performs the corrected `Play` and keeps the player coherent |
| AudioSettings.AudioSettingsHook.OnEnded | app/hooks/useAudioSettings.ts:59-61 | performs the corrected `Ended` for any element, and keeps the player coherent |
| AudioSettings.AudioSettingsHook.OnError | app/hooks/useAudioSettings.ts:62-70 | performs the corrected `Failed` for any element, and keeps the player coherent |
| VrmSettingsHook.FollowCamera | app/hooks/useVRMSettings.ts:52 | true exactly when the record holds `followCamera: true` |
| VrmSettingsHook.CustomVrmUrl | app/hooks/useVRMSettings.ts:53 | the stored URL when it is present and non-empty, otherwise null |
| VrmSettingsHook.DefaultsShowBundledModel | app/hooks/useVRMSettings.ts:11-13 | the defaults follow no camera and use the bundled model |
| VrmSettingsHook.ChangeFileSetsUrl | app/hooks/useVRMSettings.ts:27-45 | choosing a file shows its URL; clearing it returns to the bundled model |
| VrmSettingsHook.SettingsAreIndependent | app/hooks/useVRMSettings.ts:23-45 | changing the follow flag keeps the model URL, and changing the model keeps the flag |
| VrmSettingsHook.VrmSettingsState.constructor | app/hooks/useVRMSettings.ts:19-21 | reads the `vrm-soundscape-vrm` record; no file name, not loading |
| VrmSettingsHook.VrmSettingsState.ChangeFollowCamera | app/hooks/useVRMSettings.ts:23-25 | changes only `followCamera` and stores the record |
| VrmSettingsHook.VrmSettingsState.ChangeVrmFile | app/hooks/useVRMSettings.ts:27-45 | null clears the URL and the name and ends loading; a file stores its object URL, shows its name and stays loading |
| VrmSettingsHook.VrmSettingsState.SetVrmLoading | app/hooks/useVRMSettings.ts:47-49 | sets the loading flag |
| UiSettings.UiSettingsState.constructor | app/hooks/useUISettings.ts:8 | the panel starts hidden |
| UiSettings.UiSettingsState.Open | app/hooks/useUISettings.ts:10-12 | shows the panel |
| UiSettings.UiSettingsState.Close | app/hooks/useUISettings.ts:14-16 | hides the panel |
| UiSettings.UiSettingsState.Toggle | app/hooks/useUISettings.ts:18-20 | flips visibility from the latest state |
| AnimationFrame.Deltas | app/hooks/useAnimationFrame.ts:23-30 | one delta per frame after the first, each the time since the previous frame, in seconds |
| AnimationFrame.DeltasTelescope | app/hooks/useAnimationFrame.ts:24-28 | the deltas add up to the time from the previous frame to the last one |
| AnimationFrame.ElapsedTime | app/hooks/useAnimationFrame.ts:24-28 | over a run, the callback receives in total the time from the first frame to the last |
| AnimationFrame.DeltasAppend | app/hooks/useAnimationFrame.ts:24-28 | one more frame adds one delta at the end, or none for the very first frame |
| AnimationFrame.FrameLoop.constructor | app/hooks/useAnimationFrame.ts:11-32 | mounting requests a frame only when active; no time recorded yet |
| AnimationFrame.FrameLoop.Effect | app/hooks/useAnimationFrame.ts:14-40 | a re-run cancels the old request and requests a frame only when active; the previous time is kept |
| AnimationFrame.FrameLoop.Animate | app/hooks/useAnimationFrame.ts:23-30 | delivers the delta when there was a previous frame, records the time, requests the next frame; the delivered deltas always equal `Deltas` of all frames seen |
| AnimationFrame.FrameLoop.Cleanup | app/hooks/useAnimationFrame.ts:34-39 | unmounting leaves no request pending |

## Left out

- `startAnalysis` creating the `AudioContext`, fetching, decoding, and
  wiring the source node: these are foreign calls, and their success is the
  input `decoded`. The assignments made before a failure are not modelled
  either: the audio context, and the analyser and buffer once an analyser
  was created.
- LipSync.Volume requires a non-empty window. The buffer always has
  `fftSize` = 2048 samples, so the source never divides by zero.
- Float32 rounding of samples and IEEE-754 arithmetic (`Infinity`, `NaN`,
  rounding): all numbers are exact reals.
- DragControls: raycasting, `getWorldDirection`, the canvas bounding
  rectangle and `style.cursor` are inputs or plain fields. A canvas of width
  or height 0 is excluded (`Visible`), where the source would divide by
  zero.
- DragControls.MousePosition: the touch branch needs `instanceof TouchEvent`
  in the browser; the model tells the event kinds apart by constructor.
- VrmSettings.Lower: only ASCII letters are lower-cased. `String.length`
  counts UTF-16 code units, while the model counts characters.
- AudioSelector.TruncateFileName (and TruncatedFits, ButtonLabel): lengths
  count characters, while `name.length` and `substring` count UTF-16 code
  units. A name with characters outside the Basic Multilingual Plane is cut
  at a different place by the source, which can leave half a surrogate pair
  before the `...`.
- `generateId` (`Date.now` and `Math.random`) and
  `URL.createObjectURL`/`revokeObjectURL`: their results are inputs or
  outputs. Ids are assumed distinct and non-empty, so the truthiness test
  on `currentPlayingAudio` is a null test.
- `formatFileSize`, JSX layout, styling, drag-over highlighting, the
  file-input reset in `resetToDefault`, and the "no audio" placeholder of
  the selector: presentation only.
- `AudioFile.duration`: optional and never read by the modelled code.
- React rendering and batching: each hook is one object whose methods apply
  their state changes at once. Several updates in the same render are not
  modelled; there, `updateSettings` merges into the same stale `settings`
  snapshot.
- The browser's `alert` text is not modelled: alerts are datatype values or
  counters.

## Findings

| source | as written | input that shows it | evidently intended | confidence | as-written member | corrected member |
|---|---|---|---|---|---|---|
| app/hooks/useAudioSettings.ts:44-71 | `playAudio` only sets `currentPlayingAudio` to null under the comment "Stop current audio if playing"; the `Audio` element already playing is never paused | play file A, then press its "stop" button (AudioFileSettings.tsx:242-256): the state says nothing is playing while A keeps sounding; play A then B: both sound, and A's `ended` clears the state while B plays | pause the current element before clearing the state or starting another one | not executed | AudioSettings.StopKeepsSoundingAsWritten | AudioSettings.StopSilences |
| app/hooks/useAudioSettings.ts:59-70 | every `ended`, `error` and `play()` rejection clears the state, and every failure notification shows an alert, whichever element it comes from | a file that cannot be played fires `error` and rejects `play()`: two alerts; with pausing added, pausing an element whose `play()` is still pending rejects it, which clears the state and alerts while the newly chosen file plays | act only on notifications from the element that is currently sounding | not executed | AudioSettings.UnplayableFileAlertsTwiceAsWritten | AudioSettings.UnplayableFileAlertsOnce |
