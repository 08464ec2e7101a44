/**
 * The settings screen: defaults, replacing them with the stored document, editing the two
 * fields, and saving under the key the recording service reads its quality from.
 */
module SettingsScreen {
  import opened Wrappers
  import opened Storage
  import opened RecordingService

  /** The screen's initial settings: high quality at normal speed. */
  const DEFAULT_SETTINGS := Settings(High, 1.0)

  /** Choosing a quality button changes the quality and keeps the speed. */
  function WithQuality(s: Settings, q: Quality): (r: Settings)
    ensures r.recordingQuality == q && r.defaultPlaybackSpeed == s.defaultPlaybackSpeed
  {
    s.(recordingQuality := q)
  }

  /**
   * Editing the speed: `Number(t) || 1`, where `parsed` is `Number(t)` and `None` stands for
   * NaN. The stored speed is never 0: a zero or unparsable entry becomes 1.
   */
  function WithSpeed(s: Settings, parsed: Option<real>): (r: Settings)
    ensures r.recordingQuality == s.recordingQuality
    ensures r.defaultPlaybackSpeed != 0.0
    ensures parsed.Some? && parsed.value != 0.0 ==> r.defaultPlaybackSpeed == parsed.value
    ensures (parsed.None? || parsed.value == 0.0) ==> r.defaultPlaybackSpeed == 1.0
  {
    s.(defaultPlaybackSpeed := if parsed.None? || parsed.value == 0.0 then 1.0 else parsed.value)
  }

  /** What the stored document says about the settings, when it is a settings document. */
  function StoredSettings(storage: map<string, Blob>): Option<Settings> {
    if SETTINGS_KEY in storage && storage[SETTINGS_KEY].SettingsDoc? then Some(storage[SETTINGS_KEY].settings)
    else None
  }

  /** Saving writes a document that loads back as the same settings. */
  lemma SaveThenLoad(storage: map<string, Blob>, s: Settings)
    ensures StoredSettings(storage[SETTINGS_KEY := SettingsDoc(s)]) == Some(s)
  {
  }

  /**
   * A saved quality is the one the next recording without an explicit quality uses; the
   * speed has no effect on it.
   */
  lemma SavedQualityDrivesRecording(storage: map<string, Blob>, s: Settings, speed: Option<real>)
    ensures EffectiveQuality(None, storage[SETTINGS_KEY := SettingsDoc(s)]) == s.recordingQuality
    ensures EffectiveQuality(None, storage[SETTINGS_KEY := SettingsDoc(WithSpeed(s, speed))]) == s.recordingQuality
  {
  }

  /** The state of the settings screen. */
  class SettingsEditor {
    var settings: Settings

    constructor ()
      ensures settings == DEFAULT_SETTINGS
    {
      settings := DEFAULT_SETTINGS;
    }

    /**
     * The mount effect: a non-empty stored text replaces the settings wholesale; a missing
     * or empty key keeps the defaults, and a text that does not parse throws before anything
     * is replaced.
     */
    method Load(d: Device)
      modifies this
      ensures settings == StoredSettings(d.storage).GetOr(old(settings))
    {
      if SETTINGS_KEY in d.storage {
        var raw := d.storage[SETTINGS_KEY];
        if raw != EmptyText {
          match raw {
            case SettingsDoc(s) => settings := s;
            case _ =>
          }
        }
      }
    }

    method ChooseQuality(q: Quality)
      modifies this
      ensures settings == WithQuality(old(settings), q)
    {
      settings := WithQuality(settings, q);
    }

    method EditSpeed(parsed: Option<real>)
      modifies this
      ensures settings == WithSpeed(old(settings), parsed)
    {
      settings := WithSpeed(settings, parsed);
    }

    /** save: writes the whole settings object under the settings key and nothing else. */
    method Save(d: Device)
      modifies d`storage
      ensures d.storage == old(d.storage)[SETTINGS_KEY := SettingsDoc(settings)]
      ensures StoredSettings(d.storage) == Some(settings)
      ensures LoadNotes(d.storage) == LoadNotes(old(d.storage))
    {
      d.storage := d.storage[SETTINGS_KEY := SettingsDoc(settings)];
      SaveThenLoad(old(d.storage), settings);
    }
  }
}
