/**
 * The journal list (`FBJournalView`) and its detail screen
 * (`FBJournalDetailView`): the list the screen shows, and how the detail
 * screen's delete and update callbacks change it.
 */
module JournalScreen {
  import opened Wrappers
  import opened Text
  import opened Records
  import opened Lists
  import opened JournalStore
  import Metrics

  /** What the detail screen shows for empty notes. The source file holds
      the UTF-8 bytes of an em dash read as Windows-1252, so the text is
      these three characters rather than the dash itself. */
  const NotesPlaceholder: string := "â€”"

  /** `notesContent`: the trimmed notes, or the placeholder when nothing is left. */
  function NotesContent(entry: HarvestEntry): (r: string)
    ensures r != []
    ensures Trim(entry.notes) != [] ==> r == Trim(entry.notes)
    ensures AllWhitespace(entry.notes) ==> r == NotesPlaceholder
  {
    TrimEmptyIff(entry.notes);
    var trimmed := Trim(entry.notes);
    if trimmed == [] then NotesPlaceholder else trimmed
  }

  class JournalList {
    const manager: HarvestJournalManager
    var entries: seq<HarvestEntry>
    var selectedEntry: Option<HarvestEntry>

    constructor (manager: HarvestJournalManager)
      ensures this.manager == manager && entries == [] && selectedEntry.None?
    {
      this.manager := manager;
      entries := [];
      selectedEntry := None;
    }

    /** `loadEntries()`: the stored entries, newest first. */
    method LoadEntries()
      modifies this
      ensures entries == NewestFirst(manager.LoadEntries()) && selectedEntry == old(selectedEntry)
    {
      entries := NewestFirst(manager.LoadEntries());
    }

    /** The detail screen's `onDelete`: drop every entry with that id and close the detail. */
    method OnDelete(deleted: HarvestEntry)
      modifies this
      ensures entries == RemoveWithId(old(entries), EntryId, deleted.id) && selectedEntry.None?
    {
      entries := RemoveWithId(entries, EntryId, deleted.id);
      selectedEntry := None;
    }

    /** The detail screen's `onUpdate`: replace the first entry with that id,
        if there is one, and show the updated entry. */
    method OnUpdate(updated: HarvestEntry)
      modifies this
      ensures entries == ReplaceFirstWithId(old(entries), EntryId, updated) && selectedEntry == Some(updated)
    {
      var index := FirstIndexWithId(entries, EntryId, updated.id);
      if index.Some? {
        entries := entries[index.value := updated];
      }
      selectedEntry := Some(updated);
    }

    /** `FBJournalDetailView.deleteEntry()`: delete from the store, then hand
        the same entry to `onDelete`. */
    method DeleteFromDetail(entry: HarvestEntry)
      modifies this, manager
      ensures manager.data == DeletedEntry(old(manager.data), entry)
      ensures entries == RemoveWithId(old(entries), EntryId, entry.id) && selectedEntry.None?
    {
      manager.DeleteEntry(entry);
      OnDelete(entry);
    }
  }

  /** After a delete from the detail screen, a reload shows the same list the
      callback left, up to order: the store and the screen drop the same entries. */
  lemma DeleteAgreesWithStore(data: Option<Metrics.Body>, entry: HarvestEntry)
    ensures multiset(NewestFirst(EntriesIn(DeletedEntry(data, entry))))
         == multiset(RemoveWithId(NewestFirst(EntriesIn(data)), EntryId, entry.id))
  {
    DeleteEntryLoads(data, entry);
    RemoveWithIdSortDesc(EntriesIn(data), EntryId, entry.id);
  }

  /** Removing by id and sorting by date can be done in either order, up to
      the order of equal dates. */
  lemma {:induction false} RemoveWithIdSortDesc(xs: seq<HarvestEntry>, idOf: HarvestEntry -> Uuid, id: Uuid)
    ensures multiset(RemoveWithId(NewestFirst(xs), idOf, id)) == multiset(RemoveWithId(xs, idOf, id))
  {
    RemoveWithIdMultiset(NewestFirst(xs), idOf, id);
    RemoveWithIdMultiset(xs, idOf, id);
  }

  /** What removal keeps, counted: each element as often as before when its
      id differs, never when it matches. */
  lemma {:induction false} RemoveWithIdMultiset(xs: seq<HarvestEntry>, idOf: HarvestEntry -> Uuid, id: Uuid)
    ensures forall e :: multiset(RemoveWithId(xs, idOf, id))[e] == if idOf(e) == id then 0 else multiset(xs)[e]
  {
    if xs != [] {
      RemoveWithIdMultiset(xs[1..], idOf, id);
      assert xs == [xs[0]] + xs[1..];
    }
  }
}
