/** The notes page (frontend/src/pages/CommentsPage.jsx): the user writes a
    note, the profanity filter cleans it, and it is saved at the top of the
    list; notes can be deleted one id at a time or cleared after a
    confirmation. The filter is a library function passed in as `clean`; the
    clock's reading (the note's id) and its ISO timestamp are parameters, and
    the browser's storage is the `stored` field. */
module Notes {
  import opened Js
  import opened Seqs

  /** One saved note: `Date.now()` as its id, the cleaned text, and the time
      of saving as an ISO string. */
  datatype Note = Note(id: int, text: string, timestamp: string)

  /** `handleSubmit`: a draft that trims to nothing is ignored; otherwise the
      cleaned draft is saved in front of the old notes and the draft emptied. */
  function Submitted(notes: seq<Note>, draft: string, id: int, stamp: string, clean: string -> string)
    : (r: (seq<Note>, string))
    ensures Trim(draft) == "" ==> r == (notes, draft)
    ensures Trim(draft) != "" ==>
              && r.1 == ""
              && |r.0| == |notes| + 1
              && r.0[0] == Note(id, clean(draft), stamp)
              && r.0[1..] == notes
  {
    if Trim(draft) == "" then (notes, draft)
    else ([Note(id, clean(draft), stamp)] + notes, "")
  }

  /** A draft of white space only (or nothing at all) saves nothing, and a
      draft with any other character is always saved. */
  lemma BlankDraftIgnored(notes: seq<Note>, draft: string, id: int, stamp: string, clean: string -> string)
    ensures (forall i :: 0 <= i < |draft| ==> IsSpace(draft[i])) <==>
              Submitted(notes, draft, id, stamp, clean) == (notes, draft)
  {
    TrimEmptyIffBlank(draft);
    if Trim(draft) != "" {
      var r := Submitted(notes, draft, id, stamp, clean);
      assert |r.0| == |notes| + 1;
    }
  }

  /** Saving keeps every older note, in order, behind the new one. */
  lemma SubmitKeepsOrder(notes: seq<Note>, draft: string, id: int, stamp: string, clean: string -> string, k: nat)
    requires Trim(draft) != "" && k < |notes|
    ensures Submitted(notes, draft, id, stamp, clean).0[k + 1] == notes[k]
  {
    var r := Submitted(notes, draft, id, stamp, clean).0;
    assert r[1..][k] == notes[k];
  }

  /** `handleDelete`: the notes whose id differs from `id`. */
  function Deleted(notes: seq<Note>, id: int): (r: seq<Note>)
    ensures |r| <= |notes|
    ensures forall k :: 0 <= k < |r| ==> r[k].id != id && r[k] in notes
  {
    Filter(notes, (n: Note) => n.id != id)
  }

  /** Delete removes exactly the notes with that id, every one of them when
      ids collide, and keeps all the others. */
  lemma DeletedMembers(notes: seq<Note>, id: int, n: Note)
    ensures n in Deleted(notes, id) <==> n in notes && n.id != id
  {
    FilterMembers(notes, (m: Note) => m.id != id, n);
  }

  /** The survivors keep their relative order: deleting from a joined list
      joins the two deleted halves. */
  lemma DeletedKeepsOrder(notes: seq<Note>, more: seq<Note>, id: int)
    ensures Deleted(notes + more, id) == Deleted(notes, id) + Deleted(more, id)
  {
    FilterAppend(notes, more, (n: Note) => n.id != id);
  }

  /** Deleting an id that no note has leaves the list as it was. */
  lemma DeleteAbsentId(notes: seq<Note>, id: int)
    requires forall k :: 0 <= k < |notes| ==> notes[k].id != id
    ensures Deleted(notes, id) == notes
  {
    FilterAll(notes, (n: Note) => n.id != id);
  }

  /** A second delete of the same id changes nothing. */
  lemma DeleteIdempotent(notes: seq<Note>, id: int)
    ensures Deleted(Deleted(notes, id), id) == Deleted(notes, id)
  {
    DeleteAbsentId(Deleted(notes, id), id);
  }

  /** A note with that id is there exactly when the delete shortens the list. */
  lemma DeleteShortens(notes: seq<Note>, id: int)
    ensures (exists k :: 0 <= k < |notes| && notes[k].id == id) <==> |Deleted(notes, id)| < |notes|
  {
    if exists k :: 0 <= k < |notes| && notes[k].id == id {
      var k :| 0 <= k < |notes| && notes[k].id == id;
      FilterDrops(notes, (n: Note) => n.id != id, k);
    } else {
      DeleteAbsentId(notes, id);
    }
  }

  /** `handleClearAll`: the list is emptied only when the dialog is confirmed. */
  function Cleared(notes: seq<Note>, confirmed: bool): (r: seq<Note>)
    ensures confirmed ==> r == []
    ensures !confirmed ==> r == notes
  {
    if confirmed then [] else notes
  }

  // ---------------------------------------------------------------- the stored copy

  /** The list a visit starts from: the stored `myCyberNotes` entry, or
      nothing when there is none. */
  function Restored(stored: Option<seq<Note>>): (r: seq<Note>)
    ensures stored.None? ==> r == []
    ensures stored.Some? ==> r == stored.value
  {
    if stored.Some? then stored.value else []
  }

  /** The save effect as written: it runs after every change of the list,
      but writes the list only when it is not empty. */
  function SavedAsWritten(stored: Option<seq<Note>>, comments: seq<Note>): (s: Option<seq<Note>>)
    ensures comments != [] ==> s == Some(comments)
    ensures comments == [] ==> s == stored
  {
    if |comments| > 0 then Some(comments) else stored
  }

  /** Deleting the only note is therefore never saved: the stored copy still
      holds it, and the next visit brings it back. */
  lemma DeletedLastNoteReturns(n: Note)
    ensures Deleted([n], n.id) == []
    ensures Restored(SavedAsWritten(Some([n]), Deleted([n], n.id))) == [n]
  {
    FilterNone([n], (m: Note) => m.id != n.id);
  }

  /** The save effect without the guard: every list is written, so the next
      visit starts from exactly the list the page last showed. */
  function Saved(comments: seq<Note>): (s: Option<seq<Note>>)
    ensures Restored(s) == comments
  {
    Some(comments)
  }

  /** With that save, a delete survives a reload whatever it leaves. */
  lemma DeleteSurvivesReload(notes: seq<Note>, id: int, n: Note)
    ensures n in Restored(Saved(Deleted(notes, id))) <==> n in notes && n.id != id
  {
    DeletedMembers(notes, id, n);
  }

  /** The page's state: the saved notes, newest first, the draft, and the
      browser's stored copy of the list. */
  class CommentsPage {
    var comments: seq<Note>
    var text: string
    var stored: Option<seq<Note>>

    /** A visit starts from the stored list, if there is one. */
    constructor (saved: Option<seq<Note>>)
      ensures comments == Restored(saved) && text == "" && stored == saved
    {
      comments, text, stored := Restored(saved), "", saved;
    }

    /** The effect that follows every change of the list, as written: an
        empty list is not written, so storage keeps what it held. */
    method Save()
      modifies this`stored
      ensures stored == SavedAsWritten(old(stored), comments)
      ensures comments != [] ==> Restored(stored) == comments
      ensures comments == [] ==> stored == old(stored)
    {
      if |comments| > 0 {
        stored := Some(comments);
      }
    }

    /** The same effect with the guard dropped: every list is written, so the
        next visit starts from the list shown, empty or not. */
    method SaveAll()
      modifies this`stored
      ensures stored == Saved(comments)
      ensures Restored(stored) == comments
    {
      stored := Some(comments);
    }

    /** Typing in the text area replaces the draft. */
    method ChangeText(value: string)
      modifies this`text
      ensures text == value
    {
      text := value;
    }

    /** The form's submit handler. */
    method Submit(id: int, stamp: string, clean: string -> string)
      modifies this`comments, this`text
      ensures (comments, text) == Submitted(old(comments), old(text), id, stamp, clean)
    {
      if Trim(text) == "" {
        return;
      }
      var cleanText := clean(text);
      comments := [Note(id, cleanText, stamp)] + comments;
      text := "";
    }

    /** The delete button of note `id`. */
    method Delete(id: int)
      modifies this`comments
      ensures comments == Deleted(old(comments), id)
    {
      comments := Deleted(comments, id);
    }

    /** The clear-all button; `confirmed` is the answer to the dialog. */
    method ClearAll(confirmed: bool)
      modifies this`comments, this`stored
      ensures comments == Cleared(old(comments), confirmed)
      ensures stored == (if confirmed then None else old(stored))
    {
      if confirmed {
        comments := [];
        stored := None;
      }
    }
  }
}
