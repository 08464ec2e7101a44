/**
 * What the app keeps on the device: the documents under its AsyncStorage keys and the
 * files and directories of its file system. JSON serialisation is taken to round-trip
 * exactly, so a key holds the parsed document rather than its text.
 */
module Storage {
  import opened Wrappers

  /** A saved recording. `name` is `None` when the stored record has no string name. */
  datatype VoiceNote = VoiceNote(id: string, name: Option<string>, uri: string, duration: nat, createdAt: int)

  datatype Quality = High | Low

  /** The settings record written by the settings screen. */
  datatype Settings = Settings(recordingQuality: Quality, defaultPlaybackSpeed: real)

  /** One message saved by the feedback screen. */
  datatype FeedbackEntry = FeedbackEntry(text: string, createdAt: int)

  /** The text stored under one key, as `JSON.parse` sees it. */
  datatype Blob =
    | EmptyText                          // "", which every reader treats as falsy
    | Unparseable                        // text `JSON.parse` rejects
    | NotesDoc(notes: seq<VoiceNote>)
    | SettingsDoc(settings: Settings)
    | FeedbackDoc(entries: seq<FeedbackEntry>)

  /** What lies at a path of the file system. */
  datatype Entry = Directory | Audio | BackupFile(notes: seq<VoiceNote>)

  /**
   * The device state the app's asynchronous calls reach: AsyncStorage, the file system and
   * whether the audio mode for recording has been set.
   */
  class Device {
    var storage: map<string, Blob>
    var files: map<string, Entry>
    var audioModeSet: bool

    constructor (storage: map<string, Blob>, files: map<string, Entry>)
      ensures this.storage == storage && this.files == files && !audioModeSet
    {
      this.storage := storage;
      this.files := files;
      audioModeSet := false;
    }
  }
}
