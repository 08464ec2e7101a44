# Voice-note recorder: a Dafny model

This project models the core of a React Native voice-note app.

- **The recording service.** It covers:
  - the note index, kept as one JSON list under the AsyncStorage key `VOICE_NOTES_V1`;
  - the permission gate and quality choice when a recording starts;
  - the fallbacks that choose and prepare the recordings directory;
  - the pipeline that stops a recording, moves its file, probes its duration and saves a note.
- **The four screens and the list item that drive the service:**
  - the list screen: search, rename and delete;
  - the record screen: one start/stop button and an elapsed-time poll;
  - the settings screen;
  - the feedback form;
  - the list item's `m:ss` time format, playback-speed cycle and play/pause state.

## Structure

- `Storage.Device` stands for the phone. It has three fields:
  - `storage`, a map from AsyncStorage keys to the documents stored under them;
  - `files`, a map from paths to entries in the file system;
  - `audioModeSet`, whether the audio mode has been set.
- A stored document (`Blob`) is one of: an empty text, a text that does not parse, or a parsed document of one of the app's shapes. `JSON.stringify` followed by `JSON.parse` is taken to be an exact round trip.
- The service's exported functions are module-level methods over a `Device`, as in the TypeScript.
- Each screen is a class whose fields are the component's state and refs, and its handlers are methods. The list item and the record screen also have a `Valid()` predicate that their handlers keep true.
- The list item's sound has its own playing state, which the device can change by itself (`DeviceSetsPlaying`). The item's shown play/pause state follows it only through `toggle`.
- Device answers are parameters: permission status, probe results, the recorder's URI, the probed duration, whether an awaited call rejected, and the clock (`Date.now()`).
- JavaScript built-ins that affect results are written out in `JsText`:
  - decimal rendering of numbers;
  - `padStart`;
  - `%`, whose result takes the sign of the dividend;
  - ASCII `toLowerCase`;
  - `includes`;
  - `trim`.

Facts about the code that shape the model:

- The code has no pause, resume or cancel, and no "device busy" check. A second start is only prevented because the record button shows stop while recording.
- When saving fails, the record screen keeps the recording and still shows stop.
- The elapsed time is whatever the last poll read.

## Model

| member | source | states |
|---|---|---|
| RecordingService.LoadNotes | app/services/recordingService.ts:270-284 | a non-empty result is exactly the list stored under the index key; a missing, empty or unparseable key gives [] |
| RecordingService.WriteThenLoad | app/services/recordingService.ts:270-284 | loadNotes after writing a list returns that list, and no other key changes |
| RecordingService.FindIndex | app/services/recordingService.ts:301-305 | the result is -1 exactly when no entry has the id, and otherwise the first entry with it |
| RecordingService.RemoveId | app/services/recordingService.ts:297 | a note survives the filter exactly when it was stored and has another id; the list never grows |
| RecordingService.RemoveIdConcat | app/services/recordingService.ts:297 | the filter keeps order: filtering a concatenation gives the concatenation of the filtered parts |
| RecordingService.RemoveIdAbsent | app/services/recordingService.ts:297 | filtering a list with no entry of the id returns the list unchanged |
| RecordingService.RemoveIdCount | app/services/recordingService.ts:297 | every stored note without the id keeps its multiplicity; notes with the id drop to zero |
| RecordingService.RemoveIdShrinks | app/services/recordingService.ts:297 | when some entry has the id, the filtered list is strictly shorter |
| RecordingService.RenameFirst | app/services/recordingService.ts:301-308 | renaming keeps the list length |
| RecordingService.RenameFirstAt | app/services/recordingService.ts:301-308 | the rename is the in-place assignment of the name at findIndex's position; an unknown id changes nothing |
| RecordingService.RenameFirstChangesOnlyName | app/services/recordingService.ts:301-308 | only the first entry with the id changes, and only its name; every other entry, later ones with the same id included, stays as it was |
| RecordingService.SaveNote | app/services/recordingService.ts:257-268 | the new note goes first in the stored list, the old list follows unchanged, and the count goes up by one |
| RecordingService.DeleteNote | app/services/recordingService.ts:286-299 | the stored list becomes the filtered list, even when nothing matched; only the first match's file is deleted, and only if the delete succeeds |
| RecordingService.DeleteTwiceIsNoOp | app/services/recordingService.ts:286-299 | deleting the same id a second time leaves storage as the first delete left it |
| RecordingService.RenameNote | app/services/recordingService.ts:301-308 | an unknown id leaves storage untouched; otherwise the stored list is the renamed list |
| RecordingService.SaveDuplicateId | app/services/recordingService.ts:257-268 | saveNote does not check ids: saving a stored id leaves two entries with it, findIndex then reaches only the new head, and deleteNote removes both |
| RecordingService.ClearAllNotes | app/services/recordingService.ts:310-320 | the index key is removed, so loadNotes gives [], and no other key changes; the directory found by the second getRecordingsDir call is deleted with everything under it, and nothing else, only when the first call's directory exists, its info call succeeds and the delete succeeds; otherwise every file stays |
| RecordingService.ExportBackup | app/services/recordingService.ts:322-328 | it succeeds exactly when ensureRecordingsDir succeeds and the write succeeds. The returned path is `<dir>backup-<now>.json`, with the directory of the getRecordingsDir call made before the ensure. The files afterwards are ensureRecordingsDir's effect plus, on success, that file holding the stored list. The index is not changed |
| RecordingService.ExportKeepsFiles | app/services/recordingService.ts:322-328 | an export never removes or changes a file other than the backup path, and the backup holds the notes |
| RecordingService.GetRecordingsDir | app/services/recordingService.ts:16-64 | the answer always ends in `recordings/`. A usable cache directory is always the base; failing that, a usable document directory is; an answer other than `temp_recordings/` comes from a base that passed its probe |
| RecordingService.EnsureRecordingsDir | app/services/recordingService.ts:66-126 | it succeeds exactly when the target directory exists or can be made and passes the write test. The target is getRecordingsDir's choice: a usable cache directory, then a usable document directory. When the choice falls back to the fixed `temp_recordings/`, the target is the cache directory's `recordings/`, with no write test. It returns the target, creates only it, and wraps each failure in its own cause |
| RecordingService.FallbackEnsuresAnotherDirectory | app/services/recordingService.ts:78-95 | when ensureRecordingsDir's getRecordingsDir falls back, it makes sure of the cache directory's `recordings/`. If the later getRecordingsDir for the destination also falls back, the recording goes to `temp_recordings/`, which is not that directory. If the later call finds the same cache usable, the recording goes into the ensured directory |
| RecordingService.RequestAudioPermissions | app/services/recordingService.ts:128-144 | it succeeds exactly when the status is "granted" and setAudioModeAsync resolves; a refused status and a rejected audio mode each throw their own error, and only a success sets the audio mode |
| RecordingService.StoredQuality | app/services/recordingService.ts:152-158 | no quality is read exactly when the settings key is missing, empty or does not parse; a stored settings document gives its quality |
| RecordingService.EffectiveQuality | app/services/recordingService.ts:152-162 | an explicit quality wins, then the stored one, then high |
| RecordingService.PresetFor | app/services/recordingService.ts:164-167 | `low` selects the low-quality preset, and anything else the high-quality one |
| RecordingService.StartRecording | app/services/recordingService.ts:146-181 | a refused permission or a rejected audio mode fails before anything else; otherwise it succeeds exactly when prepare and start succeed, with the preset of the explicit quality, else the stored one, else high. The audio mode ends set exactly when permission and audio mode went through |
| RecordingService.DestinationIsNoEnsureTarget | app/services/recordingService.ts:211-213 | the destination file path is never the directory that ensureRecordingsDir may create |
| RecordingService.DestinationsDistinct | app/services/recordingService.ts:211-213 | in the same directory, two stops get the same destination file exactly when they read the same clock |
| RecordingService.StopRecordingAndSave | app/services/recordingService.ts:183-255 | it succeeds exactly when every step goes through: the status call, the URI, ensureRecordingsDir, a move whose source file is still there, the destination check and the duration probe. The files afterwards are the ensured directory plus the move: the temporary file leaves and the destination arrives. The saved note has the clock as id, the display name or the default name, the destination as uri, and the probed duration or 0. It heads the stored list with the old list after it, and its file exists. Any failure leaves the index unchanged, and a failed probe leaves the moved file behind without an entry |
| RecordingService.StopKeepsOtherFiles | app/services/recordingService.ts:209-217 | a stop touches at most the temporary file, the destination and the ensured directory: every other file stays, and the only new paths are the destination and that directory |
| RecordingService.NoSecondMoveOfTheSameRecording | app/services/recordingService.ts:203-217 | after a stop has moved a recording away, a second stop of the same URI cannot succeed, since nothing is left at the URI to move |
| JsText.DecimalRoundTrip | app/services/recordingService.ts:211 | the decimal text of a number parses back to that number |
| JsText.DecimalInjective | app/services/recordingService.ts:211 | two clock values give the same id text exactly when they are equal |
| JsText.IncludesIff | app/index.tsx:41 | `includes` holds exactly when the query occurs at some position |
| JsText.LowerIdempotent | app/index.tsx:41 | lower-casing twice gives the same text as lower-casing once |
| JsText.TrimEmptyIffBlank | app/feedback.tsx:11 | `trim()` is empty exactly when every character is JavaScript white space |
| VoiceNoteItem.Fmt | app/components/VoiceNoteItem.tsx:70-75 | for a non-negative input the label is the whole minutes, a colon, and the seconds left over as exactly two digits |
| VoiceNoteItem.FormatTime | app/components/VoiceNoteItem.tsx:76 | an undefined (or zero) position shows as `0:00`; any other position is passed to fmt |
| VoiceNoteItem.ParseClockOfParts | app/components/VoiceNoteItem.tsx:70-75 | a label built from minutes and two-digit seconds reads back as those numbers |
| VoiceNoteItem.FmtRoundTrip | app/components/VoiceNoteItem.tsx:70-75 | the label of a non-negative duration reads back as ⌊ms/60000⌋ minutes and ⌊ms/1000⌋ mod 60 seconds |
| VoiceNoteItem.FmtDistinguishesSeconds | app/components/VoiceNoteItem.tsx:70-75 | two non-negative durations get the same label exactly when they have the same whole seconds |
| VoiceNoteItem.FmtNegative | app/components/VoiceNoteItem.tsx:70-75 | a negative input keeps JavaScript's signs: the minutes are ⌊ms/60000⌋ with a minus, and the seconds field is the negated remainder (`-1000` shows as `-1:-1`), or `00` on a whole minute |
| VoiceNoteItem.IndexOf | app/components/VoiceNoteItem.tsx:80 | the result is -1 exactly when the speed is not listed, and otherwise its first position |
| VoiceNoteItem.NextSpeed | app/components/VoiceNoteItem.tsx:78-82 | the next speed is always one of 1, 1.25, 1.5, 2, and an unlisted speed goes to 1 |
| VoiceNoteItem.NextSpeedCycle | app/components/VoiceNoteItem.tsx:78-82 | each press goes to the next of 1, 1.25, 1.5, 2 and wraps to 1; an unlisted speed goes to 1; the result is always listed |
| VoiceNoteItem.FourPressesReturn | app/components/VoiceNoteItem.tsx:78-82 | four presses bring a listed speed back to itself |
| VoiceNoteItem.PlaybackItem.constructor | app/components/VoiceNoteItem.tsx:14-17 | the item starts with no sound, not playing, at position 0 and speed 1 |
| VoiceNoteItem.PlaybackItem.Toggle | app/components/VoiceNoteItem.tsx:32-68 | with no sound it loads one that plays, asking for the current speed only when it is not 1. With a sound it asks the device and pauses a playing sound or plays a paused one, showing the state it set. A rejected call changes nothing. After a toggle that goes through, "pause" shows exactly when the device plays |
| VoiceNoteItem.PlaybackItem.OnPlaybackStatus | app/components/VoiceNoteItem.tsx:41-50 | an unloaded status is ignored; otherwise the position is recorded (0 when missing), and when playback finishes the sound is dropped and "play" shows |
| VoiceNoteItem.PlaybackItem.DeviceSetsPlaying | app/components/VoiceNoteItem.tsx:41-50 | when the device pauses or resumes the sound on its own, the status callback ignores it: the shown state, position and speed stay, and only the sound's own state changes |
| VoiceNoteItem.PlaybackItem.CycleSpeed | app/components/VoiceNoteItem.tsx:78-86 | the speed moves to the next listed one, and a loaded sound is asked for it |
| IndexScreen.Filtered | app/index.tsx:40-42 | a note is shown exactly when it is stored, its name is a string and that name contains the query, ignoring case; the list never grows |
| IndexScreen.FilteredConcat | app/index.tsx:40-42 | the filter keeps the stored order |
| IndexScreen.FilteredCount | app/index.tsx:40-42 | a matching note is shown as often as it is stored; a non-matching one is never shown |
| IndexScreen.FilteredAllMatch | app/index.tsx:40-42 | when every note matches, the list shows the stored list unchanged |
| IndexScreen.EmptyQueryShowsNamed | app/index.tsx:40-42 | an empty query shows exactly the notes with a string name, which is every note when all names are strings |
| IndexScreen.SearchIgnoresQueryCase | app/index.tsx:40-42 | a query and its lower-case form show the same list |
| IndexScreen.RenameTo | app/index.tsx:72 | the new name is never empty: the typed text, or `Renamed ` followed by the clock when nothing was typed |
| IndexScreen.ListScreen.constructor | app/index.tsx:28-48 | the screen starts with no notes, an empty query and the rename modal closed |
| IndexScreen.ListScreen.Load | app/index.tsx:31-34 | the list becomes the stored notes |
| IndexScreen.ListScreen.ConfirmDelete | app/index.tsx:50-62 | after delete and reload, the stored list and the shown list are the old stored list without the id, and no shown note has that id. Only the first matching note's file is deleted, and only when the delete succeeds |
| IndexScreen.ListScreen.OnRenameRequest | app/index.tsx:64-68 | the modal opens on the note's id, prefilled with its name or "" |
| IndexScreen.ListScreen.SubmitRename | app/index.tsx:70-77 | with no target (none, or the empty id) nothing happens; otherwise the note is renamed to the text or the default name, the modal resets and the list shows the renamed notes |
| RecordScreen.ElapsedFrom | app/record.tsx:24 | a missing duration reads as 0; a non-negative duration gives the whole milliseconds at or below it |
| RecordScreen.ElapsedLabel | app/record.tsx:46-51 | the screen's own copy of fmt gives the same label as the list item's |
| RecordScreen.ElapsedLabelShowsSeconds | app/record.tsx:46-56 | the timer label shows the elapsed minutes and seconds of the polled duration |
| RecordScreen.Recorder.constructor | app/record.tsx:9-12 | the screen starts idle: no recording, not recording, elapsed 0, no timer |
| RecordScreen.Recorder.Start | app/record.tsx:14-30 | on success (permission, audio mode, prepare and start) the screen holds a recording with the preset of the stored quality, shows recording from 0 and runs the timer; on failure the screen is unchanged. The audio mode ends set exactly when permission and audio mode went through |
| RecordScreen.Recorder.Poll | app/record.tsx:20-26 | a tick only changes anything while the interval runs and a recording is held; elapsed then becomes the floored duration |
| RecordScreen.Recorder.Stop | app/record.tsx:32-44 | without a recording nothing happens. Otherwise the timer stops and the files change as stopRecordingAndSave changes them. On success the saved note, with the default name, heads the stored list in front of the old list; the screen goes idle and navigates back. On failure the recording and the stop button stay, and the index is unchanged |
| RecordScreen.Recorder.Press | app/record.tsx:59 | while recording, the button stops: the files and index change as Stop says, the audio mode is untouched, and the screen goes idle and navigates back exactly when the save succeeds, and elapsed stays. Otherwise it starts: the index and files are untouched, the audio mode is set as startRecording sets it, and the screen records exactly when permission, audio mode, prepare and start succeed, holding a recording with the stored quality's preset, from 0, with the timer running; a start never navigates, and a failed start keeps elapsed |
| SettingsScreen.WithQuality | app/settings.tsx:31-35 | choosing a quality changes only the quality |
| SettingsScreen.WithSpeed | app/settings.tsx:40 | the speed becomes the parsed number, or 1 when the entry is 0 or does not parse, so it is never 0; the quality is kept |
| SettingsScreen.SaveThenLoad | app/settings.tsx:15-23 | settings saved under the key load back as the same settings |
| SettingsScreen.SavedQualityDrivesRecording | app/services/recordingService.ts:151-164 | the saved quality is the one the next recording without an explicit quality uses, whatever the speed |
| SettingsScreen.SettingsEditor.constructor | app/settings.tsx:13 | the screen starts with high quality at speed 1 |
| SettingsScreen.SettingsEditor.Load | app/settings.tsx:15-18 | stored settings replace the screen's wholesale; a missing or empty key keeps them |
| SettingsScreen.SettingsEditor.ChooseQuality | app/settings.tsx:31-35 | the quality button updates only the quality |
| SettingsScreen.SettingsEditor.EditSpeed | app/settings.tsx:40 | editing the speed applies the `\|\| 1` fallback |
| SettingsScreen.SettingsEditor.Save | app/settings.tsx:20-23 | the whole settings object is written under the settings key; the note index is untouched |
| FeedbackScreen.FeedbackWriteThenRead | app/feedback.tsx:12-15 | the list a submit writes is what the next submit reads back, and writing it leaves the stored notes as they were |
| FeedbackScreen.SubmitsKeepOrder | app/feedback.tsx:12-15 | two accepted submits are stored oldest first |
| FeedbackScreen.FeedbackForm.constructor | app/feedback.tsx:8 | the input starts empty |
| FeedbackScreen.FeedbackForm.Submit | app/feedback.tsx:10-18 | a text that is all white space is refused. A stored text that does not parse fails, writing nothing and keeping the input. Otherwise the untrimmed text and the time are appended and the input is cleared |

## Left out

- Bindings: AsyncStorage, expo-file-system and expo-av are modelled as a key-to-document map, a path-to-entry map and device answers passed in as parameters. Their real behaviour is not modelled.
- Storage write failures: a rejected `AsyncStorage.setItem` or `removeItem` is not modelled, so every write in the model succeeds.
- Storage read failures: a rejected `AsyncStorage.getItem` is not modelled, so every read in the model sees the stored text. In the source, loadNotes catches the rejection and returns `[]`. saveNote then writes a list holding only the new note, and deleteNote writes `[]`: the stored list is overwritten and lost. startRecording swallows the same rejection under the settings key and records in high quality.
- JSON: parsing and serialising are modelled only as an exact round trip or a parse failure. Under the settings key, a parsed document of another shape makes startRecording use `high`, from the `?? 'high'` fallback (RecordingService.StoredQuality).
- RecordingService.LoadNotes: when the index key holds JSON of another shape, the source returns that parsed value as it is. The model returns `[]` instead. So the model does not capture saveNote throwing on a non-array, or the other operations running on a foreign array.
- SettingsScreen.SettingsEditor.Load: when the settings key holds a JSON value of another shape, the source puts that value in the state. The model keeps the old settings instead, because such a value is not a `Settings`.
- FeedbackScreen.FeedbackForm.Submit: when the feedback key holds a JSON array of another shape, the source appends to it. The model reports a parse failure instead.
- Clock and locale: `Date.now()` and `toLocaleString()` are parameters, namely the id clock, the creation clock, the backup and rename clocks, and the default name.
- getRecordingsDir: the probe's test file is written and deleted. A test file left behind when its delete fails is not modelled.
- VoiceNote names: a `name` that is not a string is modelled as `None`, the same as an absent name. Both are hidden by the search. The rename box differs: `currentName ?? ""` prefills an absent name with "", but keeps a non-string name such as a number as it is. The model prefills "" for both.
- Durations: `durationMillis` is a whole number in the saved note. Fractional milliseconds appear only in the record screen's poll, where they are floored.
- Number parsing: the settings speed entry is passed in already parsed, with `None` for NaN. Only the `|| 1` fallback is modelled.
- Playback effects: the real effect of `setRateAsync` is not modelled, nor the progress-bar fraction computed in floating point. The model records only which rates were requested.
- Unicode: `toLowerCase` maps ASCII letters only. Other case mappings are not modelled.
- Scheduling: setInterval timing, the interleaving of async handlers and concurrent presses are not modelled, nor a poll already in flight when stop clears the interval. Every handler runs to completion before the next.
- Unmounting: the list item's cleanup, which unloads its sound, is not modelled, nor the record screen's interval left running when the screen goes away.
- Presentation and diagnostics: debugRecordingSystem, logging, alerts, the modal's rendering, navigation beyond the record screen's `router.back()`, and all layout are not modelled.
