/** The feedback screen: submitting a non-blank message appends it to the stored list. */
module FeedbackScreen {
  import opened Wrappers
  import opened JsText
  import opened Storage
  import RecordingService

  const FEEDBACK_KEY := "FEEDBACK_V1"

  /** How a submit ends: refused as blank, thrown while parsing the stored list, or saved. */
  datatype SubmitOutcome = Rejected | ParseFailed | Saved

  /**
   * The list a submit appends to: `raw ? JSON.parse(raw) : []`. A missing or empty key is the
   * empty list; a text that is not a feedback list makes the submit throw.
   */
  function StoredFeedback(storage: map<string, Blob>): (r: Option<seq<FeedbackEntry>>)
    ensures (FEEDBACK_KEY !in storage || storage[FEEDBACK_KEY] == EmptyText) ==> r == Some([])
    ensures FEEDBACK_KEY in storage && storage[FEEDBACK_KEY].FeedbackDoc? ==> r == Some(storage[FEEDBACK_KEY].entries)
    ensures r.None? <==> FEEDBACK_KEY in storage && storage[FEEDBACK_KEY] != EmptyText && !storage[FEEDBACK_KEY].FeedbackDoc?
  {
    if FEEDBACK_KEY !in storage then Some([])
    else match storage[FEEDBACK_KEY]
      case EmptyText => Some([])
      case FeedbackDoc(entries) => Some(entries)
      case _ => None
  }

  /**
   * What a submit writes is what the next submit reads back, and the feedback list is kept
   * apart from the notes: writing it leaves the stored notes as they were.
   */
  lemma FeedbackWriteThenRead(storage: map<string, Blob>, entries: seq<FeedbackEntry>)
    ensures StoredFeedback(storage[FEEDBACK_KEY := FeedbackDoc(entries)]) == Some(entries)
    ensures RecordingService.LoadNotes(storage[FEEDBACK_KEY := FeedbackDoc(entries)]) == RecordingService.LoadNotes(storage)
  {
    assert FEEDBACK_KEY[0] != RecordingService.NOTES_KEY[0];
  }

  /** Two accepted submits keep their order: the older message comes first. */
  lemma SubmitsKeepOrder(storage: map<string, Blob>, a: FeedbackEntry, b: FeedbackEntry)
    requires StoredFeedback(storage).Some?
    ensures var once := storage[FEEDBACK_KEY := FeedbackDoc(StoredFeedback(storage).value + [a])];
      StoredFeedback(once[FEEDBACK_KEY := FeedbackDoc(StoredFeedback(once).value + [b])])
        == Some(StoredFeedback(storage).value + [a, b])
  {
    var once := storage[FEEDBACK_KEY := FeedbackDoc(StoredFeedback(storage).value + [a])];
    assert StoredFeedback(once).value + [b] == StoredFeedback(storage).value + [a, b];
  }

  /** The state of the feedback screen: the text being written. */
  class FeedbackForm {
    var text: string

    constructor ()
      ensures text == ""
    {
      text := "";
    }

    /**
     * submit: refuses a text that trims to nothing; otherwise appends the untrimmed text with
     * the time to the stored list, writes it back and clears the input. When the stored text
     * does not parse the submit throws and neither the store nor the input changes.
     */
    method Submit(d: Device, now: int) returns (outcome: SubmitOutcome)
      modifies this, d`storage
      ensures outcome == Rejected <==> Blank(old(text))
      ensures outcome == ParseFailed <==> !Blank(old(text)) && StoredFeedback(old(d.storage)).None?
      ensures outcome != Saved ==> d.storage == old(d.storage) && text == old(text)
      ensures outcome == Saved ==>
        && d.storage == old(d.storage)[FEEDBACK_KEY := FeedbackDoc(StoredFeedback(old(d.storage)).value + [FeedbackEntry(old(text), now)])]
        && text == ""
        && StoredFeedback(d.storage) == Some(StoredFeedback(old(d.storage)).value + [FeedbackEntry(old(text), now)])
        && RecordingService.LoadNotes(d.storage) == RecordingService.LoadNotes(old(d.storage))
    {
      TrimEmptyIffBlank(text);
      if Trim(text) == "" {
        return Rejected;
      }
      var arr: seq<FeedbackEntry> := [];
      if FEEDBACK_KEY in d.storage {
        var raw := d.storage[FEEDBACK_KEY];
        if raw != EmptyText {
          if !raw.FeedbackDoc? {
            return ParseFailed;
          }
          arr := raw.entries;
        }
      }
      arr := arr + [FeedbackEntry(text, now)];
      FeedbackWriteThenRead(d.storage, arr);
      d.storage := d.storage[FEEDBACK_KEY := FeedbackDoc(arr)];
      text := "";
      return Saved;
    }
  }
}
