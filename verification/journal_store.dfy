/**
 * `HarvestJournalManager` and `FavoriteSpotsManager`: each keeps one list in
 * `UserDefaults` under its own key, as encoded JSON. Every change loads the
 * list, edits the copy and saves it back; a save whose encoding fails leaves
 * the stored data as it was.
 */
module JournalStore {
  import opened Wrappers
  import opened Metrics
  import opened Records
  import opened Codable
  import opened Lists

  /** `$0.id` */
  function EntryId(e: HarvestEntry): Uuid { e.id }

  /** `$0.date` */
  function EntryDate(e: HarvestEntry): int { e.date }

  /** `$0.id` */
  function SpotId(s: FavoriteSpot): Uuid { s.id }

  /** `loadEntries()` on the data stored under the journal's key: nothing
      stored, bytes that are not JSON, or JSON that does not decode all read
      as the empty list. */
  function EntriesIn(data: Option<Body>): (r: seq<HarvestEntry>)
    ensures forall i :: 0 <= i < |r| ==> r[i].quantity.Finite?
  {
    match data
    case Some(Parsed(json)) => DecodeEntries(json).GetOr([])
    case _ => []
  }

  /** The stored data after `save(entries)`. */
  function SavedEntries(data: Option<Body>, entries: seq<HarvestEntry>): Option<Body> {
    match EncodeEntries(entries)
    case Some(json) => Some(Parsed(json))
    case None => data
  }

  /** Saving then loading gives back the saved list when it encodes, and the
      list stored before when it does not. */
  lemma SaveThenLoad(data: Option<Body>, entries: seq<HarvestEntry>)
    ensures (forall i :: 0 <= i < |entries| ==> entries[i].quantity.Finite?) ==> EntriesIn(SavedEntries(data, entries)) == entries
    ensures (exists i :: 0 <= i < |entries| && !entries[i].quantity.Finite?) ==> SavedEntries(data, entries) == data
  {
    if forall i :: 0 <= i < |entries| ==> entries[i].quantity.Finite? {
      EntriesRoundTrip(entries);
    }
  }

  /** The stored data after `addEntry(entry)`. */
  function AddedEntry(data: Option<Body>, entry: HarvestEntry): Option<Body> {
    SavedEntries(data, EntriesIn(data) + [entry])
  }

  /** The stored data after `updateEntry(entry)`: untouched when no stored
      entry has the same id. */
  function UpdatedEntry(data: Option<Body>, entry: HarvestEntry): Option<Body> {
    if FirstIndexWithId(EntriesIn(data), EntryId, entry.id).Some?
    then SavedEntries(data, ReplaceFirstWithId(EntriesIn(data), EntryId, entry))
    else data
  }

  /** The stored data after `deleteEntry(entry)`. */
  function DeletedEntry(data: Option<Body>, entry: HarvestEntry): Option<Body> {
    SavedEntries(data, RemoveWithId(EntriesIn(data), EntryId, entry.id))
  }

  /** An added entry with a finite quantity is appended to what was loaded;
      one with NaN or an infinite quantity is not saved at all. */
  lemma AddEntryLoads(data: Option<Body>, entry: HarvestEntry)
    ensures entry.quantity.Finite? ==> EntriesIn(AddedEntry(data, entry)) == EntriesIn(data) + [entry]
    ensures !entry.quantity.Finite? ==> AddedEntry(data, entry) == data
  {
    var es := EntriesIn(data) + [entry];
    assert es[|es| - 1] == entry;
    SaveThenLoad(data, es);
  }

  /** A finite update replaces the first entry with that id, in place. */
  lemma UpdateEntryLoads(data: Option<Body>, entry: HarvestEntry)
    ensures entry.quantity.Finite? ==> EntriesIn(UpdatedEntry(data, entry)) == ReplaceFirstWithId(EntriesIn(data), EntryId, entry)
    ensures (forall i :: 0 <= i < |EntriesIn(data)| ==> EntriesIn(data)[i].id != entry.id) ==> UpdatedEntry(data, entry) == data
  {
    var es := EntriesIn(data);
    match FirstIndexWithId(es, EntryId, entry.id)
    case Some(k) =>
      var replaced := es[k := entry];
      assert forall i :: 0 <= i < |replaced| && i != k ==> replaced[i] == es[i];
      SaveThenLoad(data, replaced);
    case None =>
  }

  /** Deletion always saves, since what is left of a loaded list encodes: the
      entries with that id are gone and the rest keep their order. */
  lemma DeleteEntryLoads(data: Option<Body>, entry: HarvestEntry)
    ensures EntriesIn(DeletedEntry(data, entry)) == RemoveWithId(EntriesIn(data), EntryId, entry.id)
    ensures forall i :: 0 <= i < |EntriesIn(DeletedEntry(data, entry))| ==> EntriesIn(DeletedEntry(data, entry))[i].id != entry.id
  {
    var es := RemoveWithId(EntriesIn(data), EntryId, entry.id);
    assert forall i :: 0 <= i < |es| ==> es[i] in EntriesIn(data);
    SaveThenLoad(data, es);
  }

  /** `loadEntries()` as the journal and statistics screens use it: newest date first. */
  function NewestFirst(entries: seq<HarvestEntry>): (r: seq<HarvestEntry>)
    ensures multiset(r) == multiset(entries)
    ensures forall i, j :: 0 <= i < j < |r| ==> r[i].date >= r[j].date
  {
    var r := SortDesc(entries, EntryDate);
    assert forall i :: 0 <= i < |r| ==> EntryDate(r[i]) == r[i].date;
    r
  }

  class HarvestJournalManager {
    /** `defaults.data(forKey: "harvest_entries_storage")` */
    var data: Option<Body>

    /** The manager over whatever the app finds stored. */
    constructor (data: Option<Body>)
      ensures this.data == data
    {
      this.data := data;
    }

    function LoadEntries(): (r: seq<HarvestEntry>)
      reads this
      ensures data.None? || data == Some(Unparsable) ==> r == []
      ensures data.Some? && data.value.Parsed? && DecodeEntries(data.value.json).None? ==> r == []
      ensures forall i :: 0 <= i < |r| ==> r[i].quantity.Finite?
    {
      EntriesIn(data)
    }

    method AddEntry(entry: HarvestEntry)
      modifies this
      ensures data == AddedEntry(old(data), entry)
    {
      var entries := LoadEntries();
      entries := entries + [entry];
      Save(entries);
    }

    method UpdateEntry(entry: HarvestEntry)
      modifies this
      ensures data == UpdatedEntry(old(data), entry)
    {
      var entries := LoadEntries();
      var index := FirstIndexWithId(entries, EntryId, entry.id);
      if index.Some? {
        entries := entries[index.value := entry];
        Save(entries);
      }
    }

    method DeleteEntry(entry: HarvestEntry)
      modifies this
      ensures data == DeletedEntry(old(data), entry)
    {
      var entries := LoadEntries();
      entries := RemoveWithId(entries, EntryId, entry.id);
      Save(entries);
    }

    /** `clearAll()` removes the key, so the next load is empty. */
    method ClearAll()
      modifies this
      ensures data == None && LoadEntries() == []
    {
      data := None;
    }

    method Save(entries: seq<HarvestEntry>)
      modifies this
      ensures data == SavedEntries(old(data), entries)
    {
      match EncodeEntries(entries) {
        case Some(json) => data := Some(Parsed(json));
        case None =>
      }
    }
  }

  /** `loadSpots()` on the data stored under the spots' key. */
  function SpotsIn(data: Option<Body>): (r: seq<FavoriteSpot>)
    ensures data.None? || data == Some(Unparsable) ==> r == []
  {
    match data
    case Some(Parsed(json)) => DecodeSpots(json).GetOr([])
    case _ => []
  }

  /** The stored data after `save(spots)`. A spot holds no `Double`, so its
      encoding does not fail. */
  function SavedSpots(spots: seq<FavoriteSpot>): (r: Option<Body>)
    ensures SpotsIn(r) == spots
  {
    SpotsRoundTrip(spots);
    Some(Parsed(EncodeSpots(spots)))
  }

  /** The stored data after `addSpot(spot)`. */
  function AddedSpot(data: Option<Body>, spot: FavoriteSpot): (r: Option<Body>)
    ensures SpotsIn(r) == SpotsIn(data) + [spot]
  {
    SavedSpots(SpotsIn(data) + [spot])
  }

  /** The stored data after `updateSpot(spot)`: untouched when no stored spot
      has the same id. */
  function UpdatedSpot(data: Option<Body>, spot: FavoriteSpot): (r: Option<Body>)
    ensures SpotsIn(r) == ReplaceFirstWithId(SpotsIn(data), SpotId, spot)
    ensures (forall i :: 0 <= i < |SpotsIn(data)| ==> SpotsIn(data)[i].id != spot.id) ==> r == data
  {
    if FirstIndexWithId(SpotsIn(data), SpotId, spot.id).Some?
    then SavedSpots(ReplaceFirstWithId(SpotsIn(data), SpotId, spot))
    else data
  }

  /** The stored data after `deleteSpot(spot)`. */
  function DeletedSpot(data: Option<Body>, spot: FavoriteSpot): (r: Option<Body>)
    ensures SpotsIn(r) == RemoveWithId(SpotsIn(data), SpotId, spot.id)
  {
    SavedSpots(RemoveWithId(SpotsIn(data), SpotId, spot.id))
  }

  class FavoriteSpotsManager {
    /** `defaults.data(forKey: "favorite_spots_storage")` */
    var data: Option<Body>

    constructor (data: Option<Body>)
      ensures this.data == data
    {
      this.data := data;
    }

    function LoadSpots(): (r: seq<FavoriteSpot>)
      reads this
      ensures data.None? || data == Some(Unparsable) ==> r == []
      ensures data.Some? && data.value.Parsed? && DecodeSpots(data.value.json).None? ==> r == []
    {
      SpotsIn(data)
    }

    method AddSpot(spot: FavoriteSpot)
      modifies this
      ensures data == AddedSpot(old(data), spot)
    {
      var spots := LoadSpots();
      spots := spots + [spot];
      Save(spots);
    }

    method UpdateSpot(updatedSpot: FavoriteSpot)
      modifies this
      ensures data == UpdatedSpot(old(data), updatedSpot)
    {
      var spots := LoadSpots();
      var index := FirstIndexWithId(spots, SpotId, updatedSpot.id);
      if index.Some? {
        spots := spots[index.value := updatedSpot];
        Save(spots);
      }
    }

    method DeleteSpot(spot: FavoriteSpot)
      modifies this
      ensures data == DeletedSpot(old(data), spot)
    {
      var spots := LoadSpots();
      spots := RemoveWithId(spots, SpotId, spot.id);
      Save(spots);
    }

    /** `clearAll()` removes the key, so the next load is empty. */
    method ClearAll()
      modifies this
      ensures data == None && LoadSpots() == []
    {
      data := None;
    }

    method Save(spots: seq<FavoriteSpot>)
      modifies this
      ensures data == SavedSpots(spots)
    {
      data := Some(Parsed(EncodeSpots(spots)));
    }
  }
}
