/**
 * `FBAddFeeView`: the form that adds a harvest entry or edits one. Parsing
 * the quantity text (`Double(_:)`) and rendering a quantity with the
 * locale's `NumberFormatter` are parameters.
 */
module FeeForm {
  import opened Wrappers
  import opened Text
  import opened Records
  import opened JournalStore

  /** The form's state. */
  datatype Form = Form(
    existingEntry: Option<HarvestEntry>,
    selectedImage: Option<Picture>,
    existingImageData: Option<Bytes>,
    selectedDate: Date,
    berryType: string,
    quantity: string,
    selectedUnit: HarvestUnit,
    notes: string)

  /** `init(isPresented:entry:onSave:)`: `now` is `Date()` and `format` the
      decimal `NumberFormatter` (`nil` when it cannot render the value). */
  function Init(entry: Option<HarvestEntry>, now: Date, format: Double -> Option<string>): (r: Form)
    ensures r.existingEntry == entry && r.selectedImage.None?
    ensures entry.None? ==> r.selectedDate == now && r.berryType == [] && r.quantity == [] && r.notes == []
                            && r.selectedUnit == Kilograms && r.existingImageData.None?
    ensures entry.Some? ==> r.selectedDate == entry.value.date && r.berryType == entry.value.berryType
                            && r.quantity == format(entry.value.quantity).GetOr([]) && r.selectedUnit == entry.value.unit
                            && r.notes == entry.value.notes && r.existingImageData == entry.value.imageData
  {
    match entry
    case None => Form(None, None, None, now, "", "", Kilograms, "")
    case Some(e) => Form(entry, None, e.imageData, e.date, e.berryType, format(e.quantity).GetOr(""), e.unit, e.notes)
  }

  /** The quantity the text stands for, with "," read as ".". */
  function ParsedQuantity(f: Form, parse: string -> Option<Double>): Option<Double> {
    parse(ReplaceCommas(f.quantity))
  }

  /** `isFormValid`: a berry type that is not only blanks, a positive
      quantity, and an image, new or stored. */
  predicate IsFormValid(f: Form, parse: string -> Option<Double>)
    ensures IsFormValid(f, parse) <==>
      && !AllWhitespace(f.berryType)
      && ParsedQuantity(f, parse).Some? && ParsedQuantity(f, parse).value.IsPositive()
      && (f.selectedImage.Some? || f.existingImageData.Some?)
  {
    TrimEmptyIff(f.berryType);
    && Trim(f.berryType) != []
    && ParsedQuantity(f, parse).Some? && ParsedQuantity(f, parse).value.IsPositive()
    && (f.selectedImage.Some? || f.existingImageData.Some?)
  }

  /** Editing an entry with a type, an image and a quantity whose rendering
      reads back as itself starts from a valid form. */
  lemma EditingStartsValid(e: HarvestEntry, now: Date, format: Double -> Option<string>, parse: string -> Option<Double>)
    requires Trim(e.berryType) != [] && e.imageData.Some? && e.quantity.IsPositive()
    requires format(e.quantity).Some? && parse(ReplaceCommas(format(e.quantity).value)) == Some(e.quantity)
    ensures IsFormValid(Init(Some(e), now, format), parse)
  {
  }

  /** The entry `submit` builds: a newly picked image wins over the stored one. */
  function SubmittedEntry(f: Form, parse: string -> Option<Double>, freshId: Uuid): (r: HarvestEntry)
    ensures r.id == (if f.existingEntry.Some? then f.existingEntry.value.id else freshId)
    ensures r.date == f.selectedDate && r.unit == f.selectedUnit
    ensures r.imageData == (if f.selectedImage.Some? then f.selectedImage.value.jpeg else f.existingImageData)
  {
    var finalImageData := if f.selectedImage.Some? then f.selectedImage.value.jpeg else f.existingImageData;
    HarvestEntry(
      if f.existingEntry.Some? then f.existingEntry.value.id else freshId,
      f.selectedDate,
      Trim(f.berryType),
      ParsedQuantity(f, parse).GetOr(Finite(0.0)),
      f.selectedUnit,
      Trim(f.notes),
      finalImageData)
  }

  /** A valid form yields an entry whose type and notes are already trimmed,
      whose type is not empty, and whose quantity is the positive number typed. */
  lemma SubmittedEntryIsClean(f: Form, parse: string -> Option<Double>, freshId: Uuid)
    requires IsFormValid(f, parse)
    ensures var e := SubmittedEntry(f, parse, freshId);
      Trim(e.berryType) == e.berryType != [] && Trim(e.notes) == e.notes
      && Some(e.quantity) == ParsedQuantity(f, parse) && e.quantity.IsPositive()
  {
    TrimIdempotent(f.berryType);
    TrimIdempotent(f.notes);
  }

  /** `Double("inf")` is a positive number, so the form accepts it, but the
      encoder cannot write it: a new entry with that quantity is handed to
      `onSave` and never stored. */
  lemma InfiniteQuantityIsNotStored(f: Form, parse: string -> Option<Double>, freshId: Uuid, data: Option<Metrics.Body>)
    requires IsFormValid(f, parse) && ParsedQuantity(f, parse) == Some(PositiveInfinity)
    ensures AddedEntry(data, SubmittedEntry(f, parse, freshId)) == data
  {
    AddEntryLoads(data, SubmittedEntry(f, parse, freshId));
  }

  /** `submit()`: returns the entry passed to `onSave`, if any. */
  method Submit(f: Form, parse: string -> Option<Double>, freshId: Uuid, journal: HarvestJournalManager)
    returns (saved: Option<HarvestEntry>)
    modifies journal
    ensures !IsFormValid(f, parse) ==> saved.None? && journal.data == old(journal.data)
    ensures IsFormValid(f, parse) ==> saved == Some(SubmittedEntry(f, parse, freshId))
    ensures IsFormValid(f, parse) && f.existingEntry.None? ==> journal.data == AddedEntry(old(journal.data), saved.value)
    ensures IsFormValid(f, parse) && f.existingEntry.Some? ==> journal.data == UpdatedEntry(old(journal.data), saved.value)
  {
    if !IsFormValid(f, parse) {
      return None;
    }
    var entry := SubmittedEntry(f, parse, freshId);
    if f.existingEntry.None? {
      journal.AddEntry(entry);
    } else {
      journal.UpdateEntry(entry);
    }
    saved := Some(entry);
  }
}
