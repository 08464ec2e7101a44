/**
 * The recording service: the note index kept whole under one AsyncStorage key, the
 * permission gate and quality choice made when a recording starts, the fallbacks that pick
 * the recordings directory, and the pipeline that stops a recording and saves it as a note.
 *
 * The service's functions are free functions over the device's storage and file system, so
 * they are modelled as module-level methods over a `Device`. What the device answers
 * (permission status, probe results, the recorder's URI, the probed duration, the clock)
 * comes in as parameters.
 */
module RecordingService {
  import opened Wrappers
  import opened JsText
  import opened Storage

  const NOTES_KEY := "VOICE_NOTES_V1"
  const SETTINGS_KEY := "RECORDER_SETTINGS_V1"
  const RECORDINGS_SUBDIR := "recordings/"
  const FALLBACK_DIR := "temp_recordings/"

  /** The inner messages of "Failed to create recordings directory: ...". */
  datatype DirFailure =
    | NoPersistentStorage   // "Cannot access persistent storage. ..."
    | NotWritable           // "Recordings directory is not writable"
    | FileSystemFailed      // getInfoAsync or makeDirectoryAsync rejected

  /** The errors the service's functions throw. */
  datatype Failure =
    | PermissionNotGranted            // "Microphone permission not granted"
    | AudioModeFailed                 // setAudioModeAsync rejected
    | RecorderFailed                  // a call on the recorder object rejected
    | NoRecordingUri                  // "No recording URI available"
    | DirectoryFailed(cause: DirFailure)
    | MoveFailed                      // moveAsync rejected
    | DestinationMissing              // "Failed to move recording file to destination"
    | ProbeFailed                     // loading the saved file to read its duration rejected
    | WriteFailed                     // writeAsStringAsync rejected

  datatype Preset = LowQualityPreset | HighQualityPreset

  /** A prepared and started recorder, with the preset it was prepared with. */
  datatype Recording = Recording(preset: Preset)

  /**
   * What the probes of getRecordingsDir find: each base directory (`None` when the platform
   * has none) and whether its info/test-write/delete sequence completed.
   */
  datatype DirProbe = DirProbe(
    cacheDirectory: Option<string>, cacheUsable: bool,
    documentDirectory: Option<string>, documentUsable: bool)

  /** Whether ensureRecordingsDir's getInfoAsync, makeDirectoryAsync and test write complete. */
  datatype DirOps = DirOps(infoOk: bool, makeDirOk: bool, writeTestOk: bool)

  /** moveAsync either rejects, or returns with or without the file having arrived. */
  datatype MoveResult = MoveThrew | MoveReturned(arrived: bool)

  /** Loading the saved file as a sound either rejects or reports an optional `durationMillis`. */
  datatype DurationProbe = ProbeThrew | Probed(durationMillis: Option<nat>)

  /** Everything the device answers during one stopRecordingAndSave. */
  datatype StopScript = StopScript(
    statusOk: bool,           // getStatusAsync on the recorder resolves
    uri: Option<string>,      // getURI()
    probe: DirProbe,          // what ensureRecordingsDir's own getRecordingsDir call finds
    dirOps: DirOps,
    destProbe: DirProbe,      // what the later getRecordingsDir call for the destination finds
    idClock: nat,             // the Date.now() that names the note
    move: MoveResult,
    duration: DurationProbe,
    defaultName: string,      // "Recording " + toLocaleString()
    createdAtClock: int)      // the second Date.now()

  /** JavaScript truthiness of an optional string. */
  predicate Truthy(o: Option<string>) {
    o.Some? && o.value != ""
  }

  // ---------------------------------------------------------------- the note index

  /** loadNotes: the stored list; `[]` when the key is missing, empty or does not parse. */
  function LoadNotes(storage: map<string, Blob>): (notes: seq<VoiceNote>)
    ensures notes != [] ==> NOTES_KEY in storage && storage[NOTES_KEY] == NotesDoc(notes)
    ensures NOTES_KEY !in storage || !storage[NOTES_KEY].NotesDoc? ==> notes == []
    ensures NOTES_KEY in storage && storage[NOTES_KEY].NotesDoc? ==> notes == storage[NOTES_KEY].notes
  {
    if NOTES_KEY !in storage then []
    else match storage[NOTES_KEY]
      case NotesDoc(notes) => notes
      case _ => []
  }

  /** `AsyncStorage.setItem(STORAGE_KEY, JSON.stringify(notes))` */
  function WriteNotes(storage: map<string, Blob>, notes: seq<VoiceNote>): map<string, Blob> {
    storage[NOTES_KEY := NotesDoc(notes)]
  }

  /** Reading back what was written gives the same list, and no other key is touched. */
  lemma WriteThenLoad(storage: map<string, Blob>, notes: seq<VoiceNote>)
    ensures LoadNotes(WriteNotes(storage, notes)) == notes
    ensures forall k :: k in storage && k != NOTES_KEY ==> k in WriteNotes(storage, notes) && WriteNotes(storage, notes)[k] == storage[k]
  {
  }

  /** `notes.findIndex(n => n.id === id)`, which `find` also follows: the first entry with that id, or -1. */
  function FindIndex(notes: seq<VoiceNote>, id: string): (i: int)
    ensures -1 <= i < |notes|
    ensures i == -1 <==> forall k :: 0 <= k < |notes| ==> notes[k].id != id
    ensures 0 <= i ==> notes[i].id == id && forall k :: 0 <= k < i ==> notes[k].id != id
  {
    if notes == [] then -1
    else if notes[0].id == id then 0
    else
      var j := FindIndex(notes[1..], id);
      if j == -1 then -1 else j + 1
  }

  /** `notes.filter(n => n.id !== id)` */
  function RemoveId(notes: seq<VoiceNote>, id: string): (kept: seq<VoiceNote>)
    ensures forall n :: n in kept <==> n in notes && n.id != id
    ensures |kept| <= |notes|
  {
    if notes == [] then []
    else (if notes[0].id == id then [] else [notes[0]]) + RemoveId(notes[1..], id)
  }

  /** Filtering keeps the survivors in their order: it distributes over concatenation. */
  lemma {:induction false} RemoveIdConcat(a: seq<VoiceNote>, b: seq<VoiceNote>, id: string)
    ensures RemoveId(a + b, id) == RemoveId(a, id) + RemoveId(b, id)
  {
    if a != [] {
      assert (a + b)[1..] == a[1..] + b;
      RemoveIdConcat(a[1..], b, id);
    } else {
      assert a + b == b;
    }
  }

  /** Filtering a list with no entry of that id gives the list back unchanged. */
  lemma {:induction false} RemoveIdAbsent(notes: seq<VoiceNote>, id: string)
    requires forall n :: n in notes ==> n.id != id
    ensures RemoveId(notes, id) == notes
  {
    if notes != [] {
      assert forall n :: n in notes[1..] ==> n in notes;
      RemoveIdAbsent(notes[1..], id);
    }
  }

  /** Each entry survives as often as it occurred, unless it carries the id. */
  lemma {:induction false} RemoveIdCount(notes: seq<VoiceNote>, id: string, n: VoiceNote)
    ensures multiset(RemoveId(notes, id))[n] == if n.id == id then 0 else multiset(notes)[n]
  {
    if notes != [] {
      RemoveIdCount(notes[1..], id, n);
      assert notes == [notes[0]] + notes[1..];
    }
  }

  /** renameNote's effect, stated on its own: the first entry with the id gets the new name. */
  function RenameFirst(notes: seq<VoiceNote>, id: string, newName: string): (renamed: seq<VoiceNote>)
    ensures |renamed| == |notes|
  {
    if notes == [] then []
    else if notes[0].id == id then [notes[0].(name := Some(newName))] + notes[1..]
    else [notes[0]] + RenameFirst(notes[1..], id, newName)
  }

  /** RenameFirst is the in-place assignment at the index findIndex returns. */
  lemma {:induction false} RenameFirstAt(notes: seq<VoiceNote>, id: string, newName: string)
    ensures var i := FindIndex(notes, id);
      RenameFirst(notes, id, newName) == if i < 0 then notes else notes[i := notes[i].(name := Some(newName))]
  {
    if notes != [] && notes[0].id != id {
      RenameFirstAt(notes[1..], id, newName);
      var j := FindIndex(notes[1..], id);
      if 0 <= j {
        assert [notes[0]] + notes[1..][j := notes[1..][j].(name := Some(newName))]
            == notes[j + 1 := notes[j + 1].(name := Some(newName))];
      } else {
        assert [notes[0]] + notes[1..] == notes;
      }
    }
  }

  /**
   * Renaming keeps the order and every other field: only the first entry with the id
   * changes, and only its name; later entries with the same id keep theirs.
   */
  lemma RenameFirstChangesOnlyName(notes: seq<VoiceNote>, id: string, newName: string)
    requires 0 <= FindIndex(notes, id)
    ensures var i, r := FindIndex(notes, id), RenameFirst(notes, id, newName);
      && r[i].name == Some(newName)
      && r[i] == notes[i].(name := r[i].name)
      && forall k :: 0 <= k < |notes| && k != i ==> r[k] == notes[k]
  {
    RenameFirstAt(notes, id, newName);
  }

  /** saveNote: prepends, without looking for an entry with the same id. */
  method SaveNote(d: Device, note: VoiceNote)
    modifies d`storage
    ensures d.storage == WriteNotes(old(d.storage), [note] + LoadNotes(old(d.storage)))
    ensures LoadNotes(d.storage) == [note] + LoadNotes(old(d.storage))
    ensures |LoadNotes(d.storage)| == |LoadNotes(old(d.storage))| + 1
  {
    var all := LoadNotes(d.storage);
    all := [note] + all;   // unshift
    d.storage := WriteNotes(d.storage, all);
  }

  /**
   * deleteNote: drops every entry with the id and writes the list back, even when nothing
   * matched. Only the first match's file is deleted; a failed delete is swallowed.
   */
  method DeleteNote(d: Device, id: string, fileDeleteOk: bool)
    modifies d`storage, d`files
    ensures d.storage == WriteNotes(old(d.storage), RemoveId(LoadNotes(old(d.storage)), id))
    ensures NOTES_KEY in d.storage
    ensures var notes, i := LoadNotes(old(d.storage)), FindIndex(LoadNotes(old(d.storage)), id);
      d.files == if 0 <= i && fileDeleteOk then old(d.files) - {notes[i].uri} else old(d.files)
  {
    var notes := LoadNotes(d.storage);
    var i := FindIndex(notes, id);
    if 0 <= i && fileDeleteOk {
      d.files := d.files - {notes[i].uri};   // deleteAsync(uri, { idempotent: true })
    }
    var updated := RemoveId(notes, id);
    d.storage := WriteNotes(d.storage, updated);
  }

  /** A second deleteNote with the same id writes the same list again: a no-op. */
  lemma {:induction false} DeleteTwiceIsNoOp(storage: map<string, Blob>, id: string)
    ensures var once := WriteNotes(storage, RemoveId(LoadNotes(storage), id));
      WriteNotes(once, RemoveId(LoadNotes(once), id)) == once
  {
    var kept := RemoveId(LoadNotes(storage), id);
    RemoveIdAbsent(kept, id);
  }

  /** renameNote: renames the first entry with the id; an unknown id writes nothing. */
  method RenameNote(d: Device, id: string, newName: string)
    modifies d`storage
    ensures FindIndex(LoadNotes(old(d.storage)), id) < 0 ==> d.storage == old(d.storage)
    ensures 0 <= FindIndex(LoadNotes(old(d.storage)), id) ==>
      d.storage == WriteNotes(old(d.storage), RenameFirst(LoadNotes(old(d.storage)), id, newName))
  {
    var notes := LoadNotes(d.storage);
    var idx := FindIndex(notes, id);
    RenameFirstAt(notes, id, newName);
    if 0 <= idx {
      notes := notes[idx := notes[idx].(name := Some(newName))];
      d.storage := WriteNotes(d.storage, notes);
    }
  }

  /**
   * Ids come from the clock and saveNote does not check them: saving a note whose id is
   * already stored leaves two entries with it. renameNote then reaches only the new head,
   * and deleteNote removes the old entry too.
   */
  lemma SaveDuplicateId(storage: map<string, Blob>, note: VoiceNote, k: nat)
    requires k < |LoadNotes(storage)| && LoadNotes(storage)[k].id == note.id
    ensures var after := LoadNotes(WriteNotes(storage, [note] + LoadNotes(storage)));
      && after[0].id == after[k + 1].id == note.id
      && FindIndex(after, note.id) == 0
      && RemoveId(after, note.id) == RemoveId(LoadNotes(storage), note.id)
      && |RemoveId(after, note.id)| < |LoadNotes(storage)|
  {
    var before := LoadNotes(storage);
    RemoveIdConcat([note], before, note.id);
    assert before[k] in before;
    RemoveIdShrinks(before, note.id);
  }

  /** The recursive step of `|kept| < |notes|` when an entry with the id is dropped. */
  lemma {:induction false} RemoveIdShrinks(notes: seq<VoiceNote>, id: string)
    requires exists n :: n in notes && n.id == id
    ensures |RemoveId(notes, id)| < |notes|
  {
    if notes[0].id != id {
      RemoveIdShrinks(notes[1..], id);
    }
  }

  /** Every file placed in `dir` (and `dir` itself) is gone; nothing else changes. */
  function RemoveTree(files: map<string, Entry>, dir: string): (left: map<string, Entry>)
    ensures forall k :: k in left <==> k in files && !StartsWith(k, dir)
    ensures forall k :: k in left ==> left[k] == files[k]
  {
    map k | k in files && !StartsWith(k, dir) :: files[k]
  }

  /**
   * clearAllNotes: removes the index key, then deletes the recordings directory on a
   * best-effort basis. getRecordingsDir runs twice: once for the existence check
   * (`infoProbe`) and once for the delete (`deleteProbe`).
   */
  method ClearAllNotes(d: Device, infoProbe: DirProbe, deleteProbe: DirProbe, infoOk: bool, deleteOk: bool)
    modifies d`storage, d`files
    ensures d.storage == old(d.storage) - {NOTES_KEY}
    ensures LoadNotes(d.storage) == []
    ensures d.files == if infoOk && GetRecordingsDir(infoProbe) in old(d.files) && deleteOk
                       then RemoveTree(old(d.files), GetRecordingsDir(deleteProbe)) else old(d.files)
  {
    d.storage := d.storage - {NOTES_KEY};
    if infoOk && GetRecordingsDir(infoProbe) in d.files && deleteOk {
      d.files := RemoveTree(d.files, GetRecordingsDir(deleteProbe));
    }
  }

  /**
   * exportBackup: writes the current list to `backup-<now>.json` in the recordings directory
   * and returns the path; the index is only read. The path is computed (`pathProbe`) before
   * ensureRecordingsDir runs its own getRecordingsDir (`ensureProbe`).
   */
  method ExportBackup(d: Device, pathProbe: DirProbe, ensureProbe: DirProbe, ops: DirOps, now: nat, writeOk: bool)
    returns (r: Result<string, Failure>)
    modifies d`files
    ensures d.storage == old(d.storage)
    ensures r.Ok? <==> EnsureSucceeds(ensureProbe, ops, old(d.files)) && writeOk
    ensures r.Ok? ==> r.value == GetRecordingsDir(pathProbe) + "backup-" + Decimal(now) + ".json"
    ensures r.Ok? ==> d.files == EnsureEffect(ensureProbe, ops, old(d.files))[r.value := BackupFile(LoadNotes(d.storage))]
    ensures r.Err? ==> d.files == EnsureEffect(ensureProbe, ops, old(d.files))
  {
    var notes := LoadNotes(d.storage);
    var file := GetRecordingsDir(pathProbe) + "backup-" + Decimal(now) + ".json";
    var ensured := EnsureRecordingsDir(d, ensureProbe, ops);
    if ensured.Err? {
      return Err(ensured.error);
    }
    if !writeOk {
      return Err(WriteFailed);
    }
    d.files := d.files[file := BackupFile(notes)];
    r := Ok(file);
  }

  /** An export adds the backup file and at most the recordings directory: every file already there stays. */
  lemma ExportKeepsFiles(files: map<string, Entry>, ensureProbe: DirProbe, ops: DirOps, path: string, notes: seq<VoiceNote>)
    ensures var after := EnsureEffect(ensureProbe, ops, files)[path := BackupFile(notes)];
      && path in after && after[path] == BackupFile(notes)
      && forall f :: f in files && f != path ==> f in after && after[f] == files[f]
  {
  }

  // ---------------------------------------------------------------- directories

  /**
   * getRecordingsDir: the cache directory's `recordings/` when the cache passes its probe,
   * else the document directory's, else a fixed relative path. Every answer ends in
   * `recordings/`; an answer other than the fixed path comes from a base that passed its
   * probe, and a cache that passes is always preferred.
   */
  function GetRecordingsDir(p: DirProbe): (dir: string)
    ensures EndsWith(dir, RECORDINGS_SUBDIR)
    ensures dir != FALLBACK_DIR ==>
      (Truthy(p.cacheDirectory) && p.cacheUsable) || (Truthy(p.documentDirectory) && p.documentUsable)
    ensures Truthy(p.cacheDirectory) && p.cacheUsable ==> StartsWith(dir, p.cacheDirectory.value)
    ensures !(Truthy(p.cacheDirectory) && p.cacheUsable) && Truthy(p.documentDirectory) && p.documentUsable ==>
      StartsWith(dir, p.documentDirectory.value)
  {
    if Truthy(p.cacheDirectory) && p.cacheUsable then WithSubdir(p.cacheDirectory.value)
    else if Truthy(p.documentDirectory) && p.documentUsable then WithSubdir(p.documentDirectory.value)
    else
      assert FALLBACK_DIR[|FALLBACK_DIR| - |RECORDINGS_SUBDIR|..] == RECORDINGS_SUBDIR;
      FALLBACK_DIR
  }

  /** `${base}recordings/` */
  function WithSubdir(base: string): (dir: string)
    ensures StartsWith(dir, base) && EndsWith(dir, RECORDINGS_SUBDIR)
  {
    var dir := base + RECORDINGS_SUBDIR;
    assert dir[..|base|] == base;
    assert dir[|dir| - |RECORDINGS_SUBDIR|..] == RECORDINGS_SUBDIR;
    dir
  }

  /**
   * The directory ensureRecordingsDir makes sure of: the chosen one, or, when the choice
   * fell back to the fixed relative path, the cache directory's `recordings/` if there is
   * a cache directory at all.
   */
  function EnsureTarget(p: DirProbe): Option<string> {
    var dir := GetRecordingsDir(p);
    if dir != FALLBACK_DIR then Some(dir)
    else if Truthy(p.cacheDirectory) then Some(WithSubdir(p.cacheDirectory.value))
    else None
  }

  /** The file set after ensureRecordingsDir: its target directory added when it was missing and could be made. */
  function EnsureEffect(p: DirProbe, ops: DirOps, files: map<string, Entry>): (after: map<string, Entry>)
    ensures forall f :: f in files ==> f in after && after[f] == files[f]
    ensures forall f :: f in after && f !in files ==> EnsureTarget(p) == Some(f) && after[f] == Directory
  {
    if EnsureTarget(p).Some? && ops.infoOk && EnsureTarget(p).value !in files && ops.makeDirOk
    then files[EnsureTarget(p).value := Directory]
    else files
  }

  /** When ensureRecordingsDir resolves rather than throws. */
  predicate EnsureSucceeds(p: DirProbe, ops: DirOps, files: map<string, Entry>) {
    && EnsureTarget(p).Some?
    && ops.infoOk
    && (EnsureTarget(p).value in files || ops.makeDirOk)
    && (GetRecordingsDir(p) == FALLBACK_DIR || ops.writeTestOk)
  }

  /**
   * ensureRecordingsDir: creates the chosen directory when it is missing and checks that it
   * is writable. On the fallback path it creates the cache directory's `recordings/` instead
   * and skips the write test. Every error comes out wrapped as "Failed to create recordings
   * directory: ...".
   */
  method EnsureRecordingsDir(d: Device, p: DirProbe, ops: DirOps) returns (r: Result<string, Failure>)
    modifies d`files
    ensures r.Ok? <==> EnsureSucceeds(p, ops, old(d.files))
    ensures r.Ok? ==> EnsureTarget(p) == Some(r.value) && r.value in d.files
    ensures r.Err? && GetRecordingsDir(p) == FALLBACK_DIR ==> r.error == DirectoryFailed(NoPersistentStorage)
    ensures r.Err? && GetRecordingsDir(p) != FALLBACK_DIR ==>
      r.error == DirectoryFailed(
        if ops.infoOk && (GetRecordingsDir(p) in old(d.files) || ops.makeDirOk) then NotWritable else FileSystemFailed)
    ensures d.files == EnsureEffect(p, ops, old(d.files))
  {
    var dir := GetRecordingsDir(p);
    if dir == FALLBACK_DIR {
      // recordings may not persist there: try the cache directory's own `recordings/`
      if Truthy(p.cacheDirectory) {
        var fallbackDir := WithSubdir(p.cacheDirectory.value);
        if ops.infoOk && (fallbackDir in d.files || ops.makeDirOk) {
          if fallbackDir !in d.files {
            d.files := d.files[fallbackDir := Directory];
          }
          return Ok(fallbackDir);
        }
      }
      return Err(DirectoryFailed(NoPersistentStorage));
    }
    if !ops.infoOk {
      return Err(DirectoryFailed(FileSystemFailed));
    }
    if dir !in d.files {
      if !ops.makeDirOk {
        return Err(DirectoryFailed(FileSystemFailed));
      }
      d.files := d.files[dir := Directory];
    }
    if !ops.writeTestOk {
      return Err(DirectoryFailed(NotWritable));
    }
    return Ok(dir);
  }

  // ---------------------------------------------------------------- starting

  /**
   * requestAudioPermissions: throws unless the status is "granted", then sets the audio mode;
   * `audioModeOk` says whether setAudioModeAsync resolved, and its rejection is thrown too.
   */
  method RequestAudioPermissions(d: Device, status: string, audioModeOk: bool) returns (r: Result<(), Failure>)
    modifies d`audioModeSet
    ensures r.Ok? <==> status == "granted" && audioModeOk
    ensures status != "granted" ==> r == Err(PermissionNotGranted)
    ensures status == "granted" && !audioModeOk ==> r == Err(AudioModeFailed)
    ensures d.audioModeSet == (old(d.audioModeSet) || (status == "granted" && audioModeOk))
  {
    if status != "granted" {
      return Err(PermissionNotGranted);
    }
    if !audioModeOk {
      return Err(AudioModeFailed);
    }
    d.audioModeSet := true;
    r := Ok(());
  }

  /**
   * The quality stored settings leave in `quality` (lines 155-158): none when the key is
   * missing, empty or does not parse (the error is swallowed), the stored field otherwise,
   * and 'high' for a parsed document without that field.
   */
  function StoredQuality(storage: map<string, Blob>): (q: Option<Quality>)
    ensures q.None? <==>
      SETTINGS_KEY !in storage || storage[SETTINGS_KEY] == EmptyText || storage[SETTINGS_KEY] == Unparseable
    ensures SETTINGS_KEY in storage && storage[SETTINGS_KEY].SettingsDoc? ==>
      q == Some(storage[SETTINGS_KEY].settings.recordingQuality)
  {
    if SETTINGS_KEY !in storage then None
    else match storage[SETTINGS_KEY]
      case EmptyText => None
      case Unparseable => None
      case SettingsDoc(s) => Some(s.recordingQuality)
      case _ => Some(High)
  }

  /** The quality a recording is prepared with: the caller's option, else the stored setting, else high. */
  function EffectiveQuality(option: Option<Quality>, storage: map<string, Blob>): (q: Quality)
    ensures option.Some? ==> q == option.value
    ensures option.None? && StoredQuality(storage).Some? ==> q == StoredQuality(storage).value
    ensures option.None? && StoredQuality(storage).None? ==> q == High
  {
    option.GetOr(StoredQuality(storage).GetOr(High))
  }

  /** 'low' selects the low preset, anything else the high one. */
  function PresetFor(q: Quality): (p: Preset)
    ensures p == LowQualityPreset <==> q == Low
    ensures p == HighQualityPreset <==> q != Low
  {
    if q == Low then LowQualityPreset else HighQualityPreset
  }

  /**
   * startRecording: asks for permission and sets the audio mode first, throwing before
   * preparing anything when either fails; then resolves the quality and prepares and
   * starts the recorder.
   */
  method StartRecording(d: Device, option: Option<Quality>, permission: string, audioModeOk: bool,
                        prepareOk: bool, startOk: bool)
    returns (r: Result<Recording, Failure>)
    modifies d`audioModeSet
    ensures d.audioModeSet == (old(d.audioModeSet) || (permission == "granted" && audioModeOk))
    ensures permission != "granted" ==> r == Err(PermissionNotGranted)
    ensures permission == "granted" && !audioModeOk ==> r == Err(AudioModeFailed)
    ensures r.Ok? <==> permission == "granted" && audioModeOk && prepareOk && startOk
    ensures r.Err? && permission == "granted" && audioModeOk ==> r.error == RecorderFailed
    ensures r.Ok? ==> r.value.preset == PresetFor(EffectiveQuality(option, d.storage))
  {
    var granted := RequestAudioPermissions(d, permission, audioModeOk);
    if granted.Err? {
      return Err(granted.error);
    }
    var quality := option;
    if quality.None? {
      if SETTINGS_KEY in d.storage {
        var raw := d.storage[SETTINGS_KEY];
        if raw != EmptyText {
          match raw {
            case Unparseable =>            // JSON.parse threw; swallowed
            case SettingsDoc(s) => quality := Some(s.recordingQuality);
            case _ => quality := Some(High);
          }
        }
      }
    }
    var finalQuality := quality.GetOr(High);
    var preset := if finalQuality == Low then LowQualityPreset else HighQualityPreset;
    if !prepareOk || !startOk {
      return Err(RecorderFailed);
    }
    r := Ok(Recording(preset));
  }

  // ---------------------------------------------------------------- stopping and saving

  /** `<recordings dir><id>.m4a`: the directory from the second getRecordingsDir call, the id from the clock. */
  function Destination(s: StopScript): string {
    GetRecordingsDir(s.destProbe) + Decimal(s.idClock) + ".m4a"
  }

  /** The destination file is never the directory ensureRecordingsDir may create. */
  lemma DestinationIsNoEnsureTarget(s: StopScript)
    ensures EnsureTarget(s.probe) != Some(Destination(s))
  {
    var dest := Destination(s);
    assert dest[|dest| - 1] == 'a';
    if EnsureTarget(s.probe).Some? {
      var t := EnsureTarget(s.probe).value;
      assert t[|t| - 1] == '/';
    }
  }

  /** Recordings stopped at different clock values get different files in the same directory. */
  lemma DestinationsDistinct(s1: StopScript, s2: StopScript)
    requires GetRecordingsDir(s1.destProbe) == GetRecordingsDir(s2.destProbe)
    ensures Destination(s1) == Destination(s2) <==> s1.idClock == s2.idClock
  {
    var dir := GetRecordingsDir(s1.destProbe);
    var t1, t2 := Destination(s1), Destination(s2);
    if t1 == t2 {
      assert t1[|dir|..|t1| - 4] == Decimal(s1.idClock);
      assert t2[|dir|..|t2| - 4] == Decimal(s2.idClock);
      DecimalInjective(s1.idClock, s2.idClock);
    }
  }

  /**
   * When the first getRecordingsDir falls back, ensureRecordingsDir makes sure of the cache
   * directory's `recordings/`. If the later call for the destination falls back as well, the
   * recording goes to `temp_recordings/`, a directory nobody made sure of; if that call finds
   * the same cache usable, the recording goes into the directory that was made sure of.
   */
  lemma FallbackEnsuresAnotherDirectory(s: StopScript)
    requires GetRecordingsDir(s.probe) == FALLBACK_DIR && Truthy(s.probe.cacheDirectory)
    requires WithSubdir(s.probe.cacheDirectory.value) != FALLBACK_DIR
    ensures EnsureTarget(s.probe) == Some(WithSubdir(s.probe.cacheDirectory.value))
    ensures GetRecordingsDir(s.destProbe) == FALLBACK_DIR ==>
      Destination(s) == FALLBACK_DIR + Decimal(s.idClock) + ".m4a" && EnsureTarget(s.probe).value != FALLBACK_DIR
    ensures s.destProbe.cacheDirectory == s.probe.cacheDirectory && s.destProbe.cacheUsable ==>
      StartsWith(Destination(s), EnsureTarget(s.probe).value)
  {
    if s.destProbe.cacheDirectory == s.probe.cacheDirectory && s.destProbe.cacheUsable {
      var dir := WithSubdir(s.probe.cacheDirectory.value);
      var dest := Destination(s);
      assert dest[..|dir|] == dir;
    }
  }

  /** The file set after moveAsync: the recording leaves its temporary place for the destination. */
  function MovedFiles(s: StopScript, files: map<string, Entry>): map<string, Entry>
    requires Truthy(s.uri)
  {
    if s.move == MoveReturned(true) then (files - {s.uri.value})[Destination(s) := Audio] else files
  }

  /**
   * The file set after stopRecordingAndSave: unchanged when it stops before the directory
   * step; otherwise the ensured directory, and the move when it could start (the directory
   * step succeeded and the recording's file is still at its URI).
   */
  function StopFiles(s: StopScript, files: map<string, Entry>): map<string, Entry> {
    if !s.statusOk || !Truthy(s.uri) then files
    else
      var ensured := EnsureEffect(s.probe, s.dirOps, files);
      if EnsureSucceeds(s.probe, s.dirOps, files) && s.move.MoveReturned? && s.uri.value in ensured
      then MovedFiles(s, ensured)
      else ensured
  }

  /** Every step of stopRecordingAndSave goes through, given the files before the stop. */
  predicate StopSucceeds(s: StopScript, files: map<string, Entry>) {
    && s.statusOk && Truthy(s.uri)
    && EnsureSucceeds(s.probe, s.dirOps, files)
    && s.move.MoveReturned? && s.uri.value in EnsureEffect(s.probe, s.dirOps, files)
    && Destination(s) in StopFiles(s, files)
    && s.duration.Probed?
  }

  /** The note a successful stop saves: clock id, display name or default name, destination, duration or 0. */
  function SavedNote(s: StopScript, displayName: Option<string>): VoiceNote
    requires s.duration.Probed?
  {
    VoiceNote(Decimal(s.idClock), Some(displayName.GetOr(s.defaultName)), Destination(s),
              s.duration.durationMillis.GetOr(0), s.createdAtClock)
  }

  /**
   * A stop touches at most three paths: the recording's temporary file, the destination
   * and the ensured directory. Every other file stays as it was, and the only new entries
   * are the destination and that directory.
   */
  lemma StopKeepsOtherFiles(s: StopScript, files: map<string, Entry>)
    ensures !Truthy(s.uri) ==> StopFiles(s, files) == files
    ensures Truthy(s.uri) ==> forall f :: f in files && f != s.uri.value && f != Destination(s) ==>
      f in StopFiles(s, files) && StopFiles(s, files)[f] == files[f]
    ensures forall f :: f in StopFiles(s, files) && f !in files ==> f == Destination(s) || EnsureTarget(s.probe) == Some(f)
  {
  }

  /**
   * Once a stop has moved the recording away, stopping the same recording again (same URI)
   * cannot succeed: its file is no longer where the URI points.
   */
  lemma {:induction false} NoSecondMoveOfTheSameRecording(s: StopScript, again: StopScript, files: map<string, Entry>)
    requires s.statusOk && Truthy(s.uri) && EnsureSucceeds(s.probe, s.dirOps, files)
    requires s.move == MoveReturned(true) && s.uri.value in EnsureEffect(s.probe, s.dirOps, files)
    requires s.uri.value != Destination(s)
    requires again.uri == s.uri && EnsureTarget(again.probe) != Some(s.uri.value)
    ensures !StopSucceeds(again, StopFiles(s, files))
  {
    var after := StopFiles(s, files);
    assert s.uri.value !in after;
    if again.statusOk && EnsureSucceeds(again.probe, again.dirOps, after) {
      assert s.uri.value !in EnsureEffect(again.probe, again.dirOps, after);
    }
  }

  /**
   * stopRecordingAndSave: stop (a rejection of the stop itself is ignored), require a URI,
   * ensure the directory, move to `<id>.m4a`, check the file is there, read its duration,
   * build the note and save it. Every failure throws before saveNote, so the index changes
   * only on success; a failure after the move leaves the moved file without an entry.
   */
  method StopRecordingAndSave(d: Device, displayName: Option<string>, s: StopScript)
    returns (r: Result<VoiceNote, Failure>)
    modifies d`storage, d`files
    ensures d.files == StopFiles(s, old(d.files))
    ensures r.Err? ==> d.storage == old(d.storage)
    ensures !s.statusOk ==> r == Err(RecorderFailed)
    ensures s.statusOk && !Truthy(s.uri) ==> r == Err(NoRecordingUri)
    ensures r.Ok? <==> StopSucceeds(s, old(d.files))
    ensures r.Ok? ==> s.duration.Probed? && r.value == SavedNote(s, displayName)
    ensures r.Ok? ==> d.storage == WriteNotes(old(d.storage), [r.value] + LoadNotes(old(d.storage)))
    ensures r.Ok? ==> LoadNotes(d.storage)[0] == r.value && r.value.uri in d.files
    ensures r == Err(ProbeFailed) ==> Destination(s) in d.files
  {
    if !s.statusOk {
      return Err(RecorderFailed);
    }
    if !Truthy(s.uri) {
      return Err(NoRecordingUri);
    }
    var rawUri := s.uri.value;
    var ensured := EnsureRecordingsDir(d, s.probe, s.dirOps);
    if ensured.Err? {
      return Err(ensured.error);
    }
    var id := Decimal(s.idClock);
    var dest := GetRecordingsDir(s.destProbe) + id + ".m4a";
    if s.move.MoveThrew? || rawUri !in d.files {
      return Err(MoveFailed);   // moveAsync rejects, also when nothing is left at the URI
    }
    if s.move.arrived {
      d.files := (d.files - {rawUri})[dest := Audio];
    }
    if dest !in d.files {
      return Err(DestinationMissing);
    }
    if s.duration.ProbeThrew? {
      return Err(ProbeFailed);
    }
    var duration := s.duration.durationMillis.GetOr(0);
    var note := VoiceNote(id, Some(displayName.GetOr(s.defaultName)), dest, duration, s.createdAtClock);
    SaveNote(d, note);
    return Ok(note);
  }
}
