/** The notes page: a list of notes, newest first, that can be created, edited and deleted, a
    search box that filters the list, and persistence of the list into the configuration.
    `DateTime.Now` and the millisecond clock that gives a new note its id are parameters. */
module Notes {
  import opened Wrappers
  import opened Text
  import opened Models
  import ConfigService

  // ---------------------------------------------------------------- list operations

  /** `FindIndex(n => n.Id == id)`: the first position holding the id, or -1. */
  function IndexOfId(notes: seq<NoteEntry>, id: int): (i: int)
    ensures -1 <= i < |notes|
    ensures i >= 0 ==> notes[i].id == id && forall j :: 0 <= j < i ==> notes[j].id != id
    ensures i < 0 ==> forall j :: 0 <= j < |notes| ==> notes[j].id != id
  {
    if |notes| == 0 then -1
    else if notes[0].id == id then 0
    else
      var k := IndexOfId(notes[1..], id);
      if k < 0 then -1 else k + 1
  }

  /** The list after saving an edit of note `id`: that note (its first occurrence) gets the new
      text and the edit time; a missing id leaves the list as it is. */
  function EditedNotes(notes: seq<NoteEntry>, id: int, text: string, now: int): seq<NoteEntry>
  {
    var idx := IndexOfId(notes, id);
    if idx >= 0 then notes[idx := notes[idx].(text := text, editedAt := Some(now))] else notes
  }

  /** Editing keeps the length and every other note, and changes only the text and edit time of
      the edited note, at the same index; when the id is gone nothing changes. */
  lemma EditedNotesSpec(notes: seq<NoteEntry>, id: int, text: string, now: int)
    ensures var r := EditedNotes(notes, id, text, now);
      |r| == |notes| &&
      ((forall j :: 0 <= j < |notes| ==> notes[j].id != id) ==> r == notes) &&
      (forall j :: 0 <= j < |notes| && notes[j].id == id ==>
         var k := IndexOfId(notes, id);
         0 <= k <= j && r[k] == NoteEntry(id, text, notes[k].createdAt, Some(now)) &&
         forall m :: 0 <= m < |notes| && m != k ==> r[m] == notes[m])
  {
  }

  /** `Collection<NoteEntry>.Remove(note)`: the first note equal to `note` (record equality) is
      removed; without one the list is unchanged. */
  function RemoveFirst(notes: seq<NoteEntry>, note: NoteEntry): seq<NoteEntry>
  {
    if |notes| == 0 then []
    else if notes[0] == note then notes[1..]
    else [notes[0]] + RemoveFirst(notes[1..], note)
  }

  /** Removal takes out exactly one copy of a note that is present and leaves the list alone
      otherwise. */
  lemma {:induction false} RemoveFirstSpec(notes: seq<NoteEntry>, note: NoteEntry)
    ensures var r := RemoveFirst(notes, note);
      (note in notes ==> |r| == |notes| - 1 && multiset(r) == multiset(notes) - multiset{note}) &&
      (note !in notes ==> r == notes)
  {
    if |notes| > 0 {
      assert notes == [notes[0]] + notes[1..];
      RemoveFirstSpec(notes[1..], note);
    }
  }

  /** Removal keeps the order of the remaining notes: they are the list with the first occurrence
      of the note cut out. */
  lemma {:induction false} RemoveFirstCutsOne(notes: seq<NoteEntry>, note: NoteEntry, k: nat)
    requires k < |notes| && notes[k] == note && forall j :: 0 <= j < k ==> notes[j] != note
    ensures RemoveFirst(notes, note) == notes[..k] + notes[k + 1..]
  {
    if k > 0 {
      var rest := notes[1..];
      RemoveFirstCutsOne(rest, note, k - 1);
      assert [notes[0]] + rest[..k - 1] == notes[..k];
      assert rest[k..] == notes[k + 1..];
    }
  }

  // ---------------------------------------------------------------- search

  /** `Notes.Where(n => n.Text.Contains(query, OrdinalIgnoreCase))`, in list order. */
  function Matching(notes: seq<NoteEntry>, query: string): seq<NoteEntry>
  {
    if |notes| == 0 then []
    else
      var last := notes[|notes| - 1];
      Matching(notes[..|notes| - 1], query) + (if ContainsIgnoreCase(last.text, query) then [last] else [])
  }

  /** What the filtered list shows for a trimmed query: everything for an empty query. */
  function FilterNotes(notes: seq<NoteEntry>, query: string): seq<NoteEntry>
  {
    if query == "" then notes else Matching(notes, query)
  }

  /** A note is shown exactly when it is in the list and its text contains the query. */
  lemma {:induction false} MatchingMember(notes: seq<NoteEntry>, query: string, n: NoteEntry)
    ensures n in Matching(notes, query) <==> n in notes && ContainsIgnoreCase(n.text, query)
  {
    if |notes| > 0 {
      MatchingMember(notes[..|notes| - 1], query, n);
      assert notes == notes[..|notes| - 1] + [notes[|notes| - 1]];
    }
  }

  /** Filtering keeps the order of the list: the matches of a concatenation are the matches of
      the first part followed by those of the second. */
  lemma {:induction false} MatchingConcat(a: seq<NoteEntry>, b: seq<NoteEntry>, query: string)
    ensures Matching(a + b, query) == Matching(a, query) + Matching(b, query)
    decreases |b|
  {
    if |b| == 0 {
      assert a + b == a;
    } else {
      var b' := b[..|b| - 1];
      assert (a + b)[..|a + b| - 1] == a + b';
      MatchingConcat(a, b', query);
    }
  }

  /** Every text contains the empty query, so the empty-query shortcut shows the same list as the
      filter would. */
  lemma {:induction false} MatchingEmptyQuery(notes: seq<NoteEntry>)
    ensures Matching(notes, "") == notes
  {
    if |notes| > 0 {
      MatchingEmptyQuery(notes[..|notes| - 1]);
      assert ContainsIgnoreCase(notes[|notes| - 1].text, "");
      assert notes[..|notes| - 1] + [notes[|notes| - 1]] == notes;
    }
  }

  /** The filtered list: a sublist of the notes, in order, holding exactly the matching ones. */
  lemma FilterNotesSpec(notes: seq<NoteEntry>, query: string, n: NoteEntry)
    ensures FilterNotes(notes, query) == Matching(notes, query)
    ensures n in FilterNotes(notes, query) <==> n in notes && ContainsIgnoreCase(n.text, query)
  {
    if query == "" {
      MatchingEmptyQuery(notes);
    }
    MatchingMember(notes, query, n);
  }

  // ---------------------------------------------------------------- the view model

  class NotesViewModel {
    const config: ConfigService.JsonConfigService
    var editorText: string
    var searchText: string
    var isEditing: bool
    var editingId: Option<int>
    var notes: seq<NoteEntry>
    var filteredNotes: seq<NoteEntry>

    /** The filtered list always reflects the notes and the trimmed search text, and the page is in
        editing mode exactly when a note id is being edited. */
    ghost predicate Valid()
      reads this
    {
      filteredNotes == FilterNotes(notes, Trim(searchText)) && (isEditing <==> editingId.Some?)
    }

    /** The notes come from the configuration; nothing is being edited or searched. */
    constructor (config: ConfigService.JsonConfigService)
      ensures this.config == config && notes == config.current.notes
      ensures editorText == "" && searchText == "" && !isEditing && editingId == None
      ensures Valid()
    {
      this.config := config;
      editorText := "";
      searchText := "";
      isEditing := false;
      editingId := None;
      notes := config.current.notes;
      new;
      ApplyFilter();
    }

    /** Changing the search text refilters the list. */
    method SetSearchText(value: string)
      modifies this
      requires Valid()
      ensures searchText == value && filteredNotes == FilterNotes(notes, Trim(value))
      ensures notes == old(notes) && editorText == old(editorText)
      ensures isEditing == old(isEditing) && editingId == old(editingId)
      ensures Valid()
    {
      searchText := value;
      ApplyFilter();
    }

    /** Saves the editor text: nothing happens when it is blank; otherwise the edited note is
        updated (when editing) or a new note is put first, the editor is cleared, editing ends,
        the list is persisted and refiltered. */
    method SaveNote(now: int, newId: int)
      modifies this, config
      requires Valid()
      ensures Valid()
      ensures var text := Trim(old(editorText));
        if text == "" then
          notes == old(notes) && editorText == old(editorText) && editingId == old(editingId) &&
          config.current == old(config.current) && config.notified == old(config.notified)
        else
          notes == (if old(editingId).Some? then EditedNotes(old(notes), old(editingId).value, text, now)
                    else [NoteEntry(newId, text, now, None)] + old(notes)) &&
          editorText == "" && editingId == None && !isEditing &&
          config.current == old(config.current).(notes := notes) &&
          config.notified == old(config.notified) + [config.current]
      ensures searchText == old(searchText)
    {
      var text := Trim(editorText);
      if text == "" {
        return;
      }
      if editingId.Some? {
        var idx := IndexOfId(notes, editingId.value);
        if idx >= 0 {
          notes := notes[idx := notes[idx].(text := text, editedAt := Some(now))];
        }
        CancelEdit();
      } else {
        var note := NoteEntry(newId, text, now, None);
        notes := [note] + notes;
      }
      editorText := "";
      PersistNotes();
      ApplyFilter();
    }

    /** Loads a note into the editor and remembers its id. */
    method EditNote(note: NoteEntry)
      modifies this
      requires Valid()
      ensures editingId == Some(note.id) && editorText == note.text && isEditing
      ensures notes == old(notes) && searchText == old(searchText) && filteredNotes == old(filteredNotes)
      ensures Valid()
    {
      editingId := Some(note.id);
      editorText := note.text;
      isEditing := true;
    }

    /** Leaves editing mode with an empty editor. */
    method CancelEdit()
      modifies this
      ensures editingId == None && editorText == "" && !isEditing
      ensures notes == old(notes) && searchText == old(searchText) && filteredNotes == old(filteredNotes)
      ensures old(Valid()) ==> Valid()
    {
      editingId := None;
      editorText := "";
      isEditing := false;
    }

    /** Removes the note, ends editing when it was the note being edited, persists and refilters. */
    method DeleteNote(note: NoteEntry)
      modifies this, config
      requires Valid()
      ensures notes == RemoveFirst(old(notes), note)
      ensures old(editingId) == Some(note.id) ==> editingId == None && editorText == "" && !isEditing
      ensures old(editingId) != Some(note.id) ==>
        editingId == old(editingId) && editorText == old(editorText) && isEditing == old(isEditing)
      ensures config.current == old(config.current).(notes := notes)
      ensures config.notified == old(config.notified) + [config.current]
      ensures searchText == old(searchText)
      ensures Valid()
    {
      notes := RemoveFirst(notes, note);
      if editingId == Some(note.id) {
        CancelEdit();
      }
      PersistNotes();
      ApplyFilter();
    }

    /** Writes the current list into the configuration, leaving its other settings alone, which
        raises one `ConfigChanged`. */
    method PersistNotes()
      modifies config
      ensures config.current == old(config.current).(notes := notes)
      ensures config.notified == old(config.notified) + [config.current]
    {
      var ns := notes;
      var _ := config.Update((c: AppConfig) => c.(notes := ns));
    }

    /** Clears the filtered list and refills it, in order, with the notes that match the trimmed
        search text (all of them for an empty query). */
    method ApplyFilter()
      modifies this
      ensures filteredNotes == FilterNotes(notes, Trim(searchText))
      ensures notes == old(notes) && searchText == old(searchText) && editorText == old(editorText)
      ensures isEditing == old(isEditing) && editingId == old(editingId)
    {
      filteredNotes := [];
      var query := Trim(searchText);
      var i := 0;
      while i < |notes|
        invariant 0 <= i <= |notes|
        invariant filteredNotes == FilterNotes(notes[..i], query)
        invariant notes == old(notes) && searchText == old(searchText) && editorText == old(editorText)
        invariant isEditing == old(isEditing) && editingId == old(editingId)
      {
        var n := notes[i];
        assert notes[..i + 1] == notes[..i] + [n];
        if query == "" || ContainsIgnoreCase(n.text, query) {
          filteredNotes := filteredNotes + [n];
        }
        i := i + 1;
      }
      assert notes[..i] == notes;
    }
  }
}
