/**
 * The record screen: one button that starts a recording or stops and saves it, the
 * recording reference beside the `isRecording` flag, and the elapsed-time poll.
 */
module RecordScreen {
  import opened Wrappers
  import opened JsText
  import opened Storage
  import opened RecordingService
  import VoiceNoteItem

  /**
   * The poll's elapsed value: `Math.floor(durationMillis || 0)`, where a missing or NaN
   * duration is `None`. For a non-negative duration it is the whole milliseconds below it.
   */
  function ElapsedFrom(durationMillis: Option<real>): (elapsed: int)
    ensures durationMillis.None? ==> elapsed == 0
    ensures durationMillis.Some? && 0.0 <= durationMillis.value ==>
      0 <= elapsed && elapsed as real <= durationMillis.value < elapsed as real + 1.0
  {
    if durationMillis.None? || durationMillis.value == 0.0 then 0 else durationMillis.value.Floor
  }

  /** The timer label below the title: the screen's own copy of fmt, which agrees with the list item's. */
  function ElapsedLabel(elapsed: int): (text: string)
    ensures text == VoiceNoteItem.Fmt(elapsed)
  {
    var s := elapsed / 1000;
    var m := s / 60;
    var sec := JsRemainder(s, 60);
    NumberText(m) + ":" + PadStart2(NumberText(sec))
  }

  /** Whole seconds on the timer: a poll shows ⌊durationMillis / 1000⌋ seconds of recording. */
  lemma ElapsedLabelShowsSeconds(durationMillis: real)
    requires 0.0 <= durationMillis
    ensures var e := ElapsedFrom(Some(durationMillis));
      0 <= e && VoiceNoteItem.ParseClock(ElapsedLabel(e)) == Some((e / 60000, (e / 1000) % 60))
  {
    VoiceNoteItem.FmtRoundTrip(ElapsedFrom(Some(durationMillis)));
  }

  /** The state of the record screen. */
  class Recorder {
    var recording: Option<Recording>   // recordingRef.current
    var isRecording: bool
    var elapsed: int
    var timerRunning: bool             // timerRef holds a live interval
    var wentBack: bool                 // router.back() was called

    /** The flag mirrors the reference, and the timer only runs while recording. */
    ghost predicate Valid()
      reads this
    {
      && (isRecording <==> recording.Some?)
      && (timerRunning ==> isRecording)
    }

    constructor ()
      ensures Valid()
      ensures recording == None && !isRecording && elapsed == 0 && !timerRunning && !wentBack
    {
      recording := None;
      isRecording := false;
      elapsed := 0;
      timerRunning := false;
      wentBack := false;
    }

    /**
     * start: startRecording with no quality option; on success keeps the recording, shows
     * it as recording from 0 and starts the timer. A failure is swallowed and changes nothing
     * on the screen (the audio mode stays set if only preparing or starting failed).
     */
    method Start(d: Device, permission: string, audioModeOk: bool, prepareOk: bool, startOk: bool)
      requires Valid()
      modifies this, d`audioModeSet
      ensures Valid()
      ensures wentBack == old(wentBack)
      ensures d.audioModeSet == (old(d.audioModeSet) || (permission == "granted" && audioModeOk))
      ensures permission == "granted" && audioModeOk && prepareOk && startOk ==>
        && recording == Some(Recording(PresetFor(EffectiveQuality(None, d.storage))))
        && isRecording && elapsed == 0 && timerRunning
      ensures !(permission == "granted" && audioModeOk && prepareOk && startOk) ==>
        recording == old(recording) && isRecording == old(isRecording)
        && elapsed == old(elapsed) && timerRunning == old(timerRunning)
    {
      var rec := StartRecording(d, None, permission, audioModeOk, prepareOk, startOk);
      if rec.Err? {
        return;
      }
      recording := Some(rec.value);
      isRecording := true;
      elapsed := 0;
      timerRunning := true;
    }

    /**
     * One timer tick. Ticks only come while the interval is live (it is cleared by stop);
     * while a recording is held, elapsed becomes its floored duration.
     */
    method Poll(durationMillis: Option<real>)
      requires Valid()
      modifies this`elapsed
      ensures Valid()
      ensures elapsed == if timerRunning && recording.Some? then ElapsedFrom(durationMillis) else old(elapsed)
    {
      if !timerRunning || recording.None? {
        return;
      }
      elapsed := ElapsedFrom(durationMillis);
    }

    /**
     * stop: without a recording nothing happens. Otherwise the timer is cleared and the
     * recording saved with no display name; on success the reference is dropped, the screen
     * stops showing a recording and goes back. On failure the recording stays, so the
     * button still offers stop.
     */
    method Stop(d: Device, s: StopScript)
      requires Valid()
      modifies this, d`storage, d`files
      ensures Valid()
      ensures elapsed == old(elapsed)
      ensures old(recording).None? ==>
        && d.storage == old(d.storage) && d.files == old(d.files)
        && recording == old(recording) && timerRunning == old(timerRunning) && wentBack == old(wentBack)
      ensures old(recording).Some? ==> !timerRunning && d.files == StopFiles(s, old(d.files))
      ensures old(recording).Some? && StopSucceeds(s, old(d.files)) ==>
        && recording == None && !isRecording && wentBack
        && d.storage == WriteNotes(old(d.storage), [SavedNote(s, None)] + LoadNotes(old(d.storage)))
        && |LoadNotes(d.storage)| == |LoadNotes(old(d.storage))| + 1
        && LoadNotes(d.storage)[1..] == LoadNotes(old(d.storage))
        && LoadNotes(d.storage)[0].name == Some(s.defaultName)
      ensures old(recording).Some? && !StopSucceeds(s, old(d.files)) ==>
        && recording == old(recording) && isRecording && wentBack == old(wentBack)
        && d.storage == old(d.storage)
    {
      if recording.None? {
        return;
      }
      timerRunning := false;
      var saved := StopRecordingAndSave(d, None, s);
      if saved.Err? {
        return;
      }
      WriteThenLoad(old(d.storage), [saved.value] + LoadNotes(old(d.storage)));
      recording := None;
      isRecording := false;
      wentBack := true;
    }

    /** The button: stop while recording, start otherwise. */
    method Press(d: Device, permission: string, audioModeOk: bool, prepareOk: bool, startOk: bool, s: StopScript)
      requires Valid()
      modifies this, d`storage, d`files, d`audioModeSet
      ensures Valid()
      ensures old(isRecording) ==>
        && d.audioModeSet == old(d.audioModeSet) && !timerRunning
        && d.files == StopFiles(s, old(d.files))
      ensures old(isRecording) && StopSucceeds(s, old(d.files)) ==>
        && d.storage == WriteNotes(old(d.storage), [SavedNote(s, None)] + LoadNotes(old(d.storage)))
        && recording == None && !isRecording && wentBack
      ensures old(isRecording) && !StopSucceeds(s, old(d.files)) ==>
        d.storage == old(d.storage) && recording == old(recording) && isRecording
      ensures old(isRecording) ==> elapsed == old(elapsed)
      ensures !(old(isRecording) && StopSucceeds(s, old(d.files))) ==> wentBack == old(wentBack)
      ensures !old(isRecording) && !isRecording ==> elapsed == old(elapsed)
      ensures !old(isRecording) ==> d.storage == old(d.storage) && d.files == old(d.files)
      ensures !old(isRecording) ==> d.audioModeSet == (old(d.audioModeSet) || (permission == "granted" && audioModeOk))
      ensures !old(isRecording) ==> isRecording == (permission == "granted" && audioModeOk && prepareOk && startOk)
      ensures !old(isRecording) && isRecording ==>
        && recording == Some(Recording(PresetFor(EffectiveQuality(None, d.storage))))
        && elapsed == 0 && timerRunning
    {
      if isRecording {
        Stop(d, s);
      } else {
        Start(d, permission, audioModeOk, prepareOk, startOk);
      }
    }
  }
}
