/**
 * The note list screen: the search filter over the loaded notes, the rename modal with
 * its default name, and delete followed by a reload.
 */
module IndexScreen {
  import opened Wrappers
  import opened JsText
  import opened Storage
  import opened RecordingService

  /** The search test: the name is a string, and its lower-case form contains the lower-case query. */
  predicate Matches(n: VoiceNote, query: string) {
    n.name.Some? && Includes(Lower(n.name.value), Lower(query))
  }

  /** `notes.filter(...)`: the notes the list shows, in stored order. */
  function Filtered(notes: seq<VoiceNote>, query: string): (shown: seq<VoiceNote>)
    ensures forall n :: n in shown <==> n in notes && Matches(n, query)
    ensures |shown| <= |notes|
  {
    if notes == [] then []
    else (if Matches(notes[0], query) then [notes[0]] else []) + Filtered(notes[1..], query)
  }

  /** Filtering keeps order: the filter of a concatenation is the concatenation of the filters. */
  lemma {:induction false} FilteredConcat(a: seq<VoiceNote>, b: seq<VoiceNote>, query: string)
    ensures Filtered(a + b, query) == Filtered(a, query) + Filtered(b, query)
  {
    if a != [] {
      assert (a + b)[1..] == a[1..] + b;
      FilteredConcat(a[1..], b, query);
    } else {
      assert a + b == b;
    }
  }

  /** A shown note is shown as many times as it is stored; a hidden one not at all. */
  lemma {:induction false} FilteredCount(notes: seq<VoiceNote>, query: string, n: VoiceNote)
    ensures multiset(Filtered(notes, query))[n] == if Matches(n, query) then multiset(notes)[n] else 0
  {
    if notes != [] {
      FilteredCount(notes[1..], query, n);
      assert notes == [notes[0]] + notes[1..];
    }
  }

  /** When every note matches, the list shows exactly the stored notes. */
  lemma {:induction false} FilteredAllMatch(notes: seq<VoiceNote>, query: string)
    requires forall n :: n in notes ==> Matches(n, query)
    ensures Filtered(notes, query) == notes
  {
    if notes != [] {
      FilteredAllMatch(notes[1..], query);
    }
  }

  /**
   * With an empty query the list shows every note whose name is a string: all stored
   * notes when every name is one, and never a note without a string name.
   */
  lemma EmptyQueryShowsNamed(notes: seq<VoiceNote>)
    ensures forall n :: n in Filtered(notes, "") <==> n in notes && n.name.Some?
    ensures (forall n :: n in notes ==> n.name.Some?) ==> Filtered(notes, "") == notes
  {
    forall n: VoiceNote | n.name.Some?
      ensures Matches(n, "")
    {
      assert OccursAt(Lower(n.name.value), Lower(""), 0);
      IncludesIff(Lower(n.name.value), Lower(""));
    }
    if forall n :: n in notes ==> n.name.Some? {
      FilteredAllMatch(notes, "");
    }
  }

  /** The search ignores the case of the query: typing it in lower case shows the same list. */
  lemma {:induction false} SearchIgnoresQueryCase(notes: seq<VoiceNote>, query: string)
    ensures Filtered(notes, Lower(query)) == Filtered(notes, query)
  {
    LowerIdempotent(query);
    if notes != [] {
      SearchIgnoresQueryCase(notes[1..], query);
    }
  }

  /** submitRename's name: the typed text, or `Renamed <now>` when the text is empty. */
  function RenameTo(text: string, now: nat): (name: string)
    ensures name != ""
    ensures text != "" ==> name == text
    ensures text == "" ==> 8 < |name| && name[..8] == "Renamed " && AllDigits(name[8..]) && ParseDecimal(name[8..]) == now
  {
    if text != "" then text
    else
      var r := "Renamed " + Decimal(now);
      assert r[8..] == Decimal(now);
      DecimalRoundTrip(now);
      r
  }

  /** The state of the list screen. */
  class ListScreen {
    var notes: seq<VoiceNote>
    var query: string
    var renameVisible: bool
    var renameTargetId: Option<string>
    var renameText: string

    constructor ()
      ensures notes == [] && query == "" && !renameVisible && renameTargetId == None && renameText == ""
    {
      notes := [];
      query := "";
      renameVisible := false;
      renameTargetId := None;
      renameText := "";
    }

    /** The list on screen. */
    function Shown(): seq<VoiceNote>
      reads this
    {
      Filtered(notes, query)
    }

    /** load: replaces the list with the stored notes. */
    method Load(d: Device)
      modifies this`notes
      ensures notes == LoadNotes(d.storage)
    {
      notes := LoadNotes(d.storage);
    }

    /**
     * The confirmed delete: deleteNote, then load. The stored list loses every note with the
     * id, the first one's audio file goes when the device deletes it, and no shown note has
     * the id afterwards.
     */
    method ConfirmDelete(d: Device, id: string, fileDeleteOk: bool)
      modifies this`notes, d`storage, d`files
      ensures d.storage == WriteNotes(old(d.storage), RemoveId(LoadNotes(old(d.storage)), id))
      ensures var old_notes, i := LoadNotes(old(d.storage)), FindIndex(LoadNotes(old(d.storage)), id);
        d.files == if 0 <= i && fileDeleteOk then old(d.files) - {old_notes[i].uri} else old(d.files)
      ensures notes == RemoveId(LoadNotes(old(d.storage)), id)
      ensures forall n :: n in Shown() ==> n.id != id
    {
      DeleteNote(d, id, fileDeleteOk);
      Load(d);
      WriteThenLoad(old(d.storage), RemoveId(LoadNotes(old(d.storage)), id));
    }

    /** onRenameRequest: opens the modal on the note, prefilled with its name or "". */
    method OnRenameRequest(id: string, currentName: Option<string>)
      modifies this`renameTargetId, this`renameText, this`renameVisible
      ensures renameTargetId == Some(id) && renameText == currentName.GetOr("") && renameVisible
    {
      renameTargetId := Some(id);
      renameText := currentName.GetOr("");
      renameVisible := true;
    }

    /**
     * submitRename: without a target (none, or the empty id) nothing happens; otherwise the
     * note is renamed to the text or the default name, the modal is reset and the list reloaded.
     */
    method SubmitRename(d: Device, now: nat)
      modifies this, d`storage
      ensures !Truthy(old(renameTargetId)) ==>
        d.storage == old(d.storage) && notes == old(notes) && renameVisible == old(renameVisible)
        && renameTargetId == old(renameTargetId) && renameText == old(renameText)
      ensures Truthy(old(renameTargetId)) ==>
        var before, id, name := LoadNotes(old(d.storage)), old(renameTargetId).value, RenameTo(old(renameText), now);
        && d.storage == (if FindIndex(before, id) < 0 then old(d.storage) else WriteNotes(old(d.storage), RenameFirst(before, id, name)))
        && !renameVisible && renameTargetId == None && renameText == ""
        && notes == (if FindIndex(before, id) < 0 then before else RenameFirst(before, id, name))
      ensures query == old(query)
    {
      if !Truthy(renameTargetId) {
        return;
      }
      var before := LoadNotes(d.storage);
      var id := renameTargetId.value;
      var name := RenameTo(renameText, now);
      RenameNote(d, id, name);
      if 0 <= FindIndex(before, id) {
        WriteThenLoad(old(d.storage), RenameFirst(before, id, name));
      }
      renameVisible := false;
      renameTargetId := None;
      renameText := "";
      Load(d);
    }
  }
}
