/**
 * `FBAddSpotView`: the form that adds a favourite spot or edits the one bound
 * to it. Turning stored bytes back into a `UIImage` is a parameter.
 */
module SpotForm {
  import opened Wrappers
  import opened Text
  import opened Records
  import opened JournalStore

  /** The form's state; `spotToEdit` is the binding shared with the caller. */
  datatype Form = Form(
    spotToEdit: Option<FavoriteSpot>,
    selectedImage: Option<Picture>,
    existingImageData: Option<Bytes>,
    spotName: string,
    spotDirections: string,
    selectedType: Option<SpotType>)

  /** The state before `onAppear`: empty text, no type, no image. */
  function Init(spotToEdit: Option<FavoriteSpot>): (r: Form)
    ensures r.spotToEdit == spotToEdit && !IsFormValid(r)
  {
    Form(spotToEdit, None, None, "", "", None)
  }

  /** `onAppear`: when editing, copy the spot into the form. `imageOf` is
      `UIImage(data:)`. */
  function OnAppear(f: Form, imageOf: Bytes -> Option<Picture>): (r: Form)
    ensures r.spotToEdit == f.spotToEdit
    ensures f.spotToEdit.None? ==> r == f
    ensures f.spotToEdit.Some? ==> var spot := f.spotToEdit.value;
      r.spotName == spot.name && r.spotDirections == spot.directions && r.selectedType == Some(spot.spotType)
      && r.existingImageData == Some(spot.imageData) && r.selectedImage == imageOf(spot.imageData)
  {
    match f.spotToEdit
    case None => f
    case Some(spot) =>
      f.(spotName := spot.name, spotDirections := spot.directions, selectedType := Some(spot.spotType),
         existingImageData := Some(spot.imageData), selectedImage := imageOf(spot.imageData))
  }

  /** `isFormValid`; the save button is disabled while it is false. It needs
      a type, an image, and a name and directions that are not only blanks. */
  predicate IsFormValid(f: Form)
    ensures IsFormValid(f) <==>
      && f.selectedType.Some? && (f.selectedImage.Some? || f.existingImageData.Some?)
      && !AllWhitespace(f.spotName) && !AllWhitespace(f.spotDirections)
  {
    TrimEmptyIff(f.spotName);
    TrimEmptyIff(f.spotDirections);
    && f.selectedType.Some?
    && (f.selectedImage.Some? || f.existingImageData.Some?)
    && Trim(f.spotName) != []
    && Trim(f.spotDirections) != []
  }

  /** Opening a spot with a name and directions gives a valid form, whatever
      becomes of its image bytes. */
  lemma EditingStartsValid(spot: FavoriteSpot, imageOf: Bytes -> Option<Picture>)
    requires Trim(spot.name) != [] && Trim(spot.directions) != []
    ensures IsFormValid(OnAppear(Init(Some(spot)), imageOf))
  {
  }

  /** The image `submit` stores: a newly picked image wins over the stored one. */
  function FinalImageData(f: Form): Option<Bytes> {
    if f.selectedImage.Some? then f.selectedImage.value.jpeg else f.existingImageData
  }

  /** The edited spot: same id and creation date, the form's text trimmed,
      its type and image. */
  function EditedSpot(f: Form): (r: FavoriteSpot)
    requires f.spotToEdit.Some? && f.selectedType.Some? && FinalImageData(f).Some?
    ensures r.id == f.spotToEdit.value.id && r.createdAt == f.spotToEdit.value.createdAt
    ensures r.name == Trim(f.spotName) && r.directions == Trim(f.spotDirections)
    ensures r.spotType == f.selectedType.value && r.imageData == FinalImageData(f).value
  {
    f.spotToEdit.value.(name := Trim(f.spotName), directions := Trim(f.spotDirections),
                        spotType := f.selectedType.value, imageData := FinalImageData(f).value)
  }

  /** A new spot: a fresh id, created now. */
  function NewSpot(f: Form, freshId: Uuid, now: Date): (r: FavoriteSpot)
    requires f.selectedType.Some? && FinalImageData(f).Some?
    ensures r.id == freshId && r.createdAt == now
    ensures r.name == Trim(f.spotName) && r.directions == Trim(f.spotDirections)
    ensures r.spotType == f.selectedType.value && r.imageData == FinalImageData(f).value
  {
    FavoriteSpot(freshId, now, Trim(f.spotName), Trim(f.spotDirections), f.selectedType.value, FinalImageData(f).value)
  }

  /** From a form with a type, an image to store, and a name and directions
      that are not only blanks (as a valid form has), whichever spot is saved
      has a non-empty, trimmed name and directions. */
  lemma SavedSpotIsClean(f: Form, freshId: Uuid, now: Date)
    requires f.selectedType.Some? && FinalImageData(f).Some?
    requires Trim(f.spotName) != [] && Trim(f.spotDirections) != []
    ensures var s := if f.spotToEdit.Some? then EditedSpot(f) else NewSpot(f, freshId, now);
      s.name != [] && Trim(s.name) == s.name && s.directions != [] && Trim(s.directions) == s.directions
  {
    TrimIdempotent(f.spotName);
    TrimIdempotent(f.spotDirections);
  }

  /** `submit()`: returns the binding's new value and the spot passed to
      `onSave`, if any. Only the type and the image are checked here. */
  method Submit(f: Form, freshId: Uuid, now: Date, spots: FavoriteSpotsManager)
    returns (spotToEdit: Option<FavoriteSpot>, saved: Option<FavoriteSpot>)
    modifies spots
    ensures f.selectedType.None? || FinalImageData(f).None? ==>
      spotToEdit == f.spotToEdit && saved.None? && spots.data == old(spots.data)
    ensures f.selectedType.Some? && FinalImageData(f).Some? && f.spotToEdit.Some? ==>
      spotToEdit == Some(EditedSpot(f)) && saved.None? && spots.data == UpdatedSpot(old(spots.data), EditedSpot(f))
    ensures f.selectedType.Some? && FinalImageData(f).Some? && f.spotToEdit.None? ==>
      spotToEdit.None? && saved == Some(NewSpot(f, freshId, now)) && spots.data == AddedSpot(old(spots.data), saved.value)
  {
    spotToEdit, saved := f.spotToEdit, None;
    if f.selectedType.None? {
      return;
    }
    var selectedType := f.selectedType.value;
    var finalImageData: Option<Bytes>;
    if f.selectedImage.Some? {
      finalImageData := f.selectedImage.value.jpeg;
    } else {
      finalImageData := f.existingImageData;
    }
    if finalImageData.None? {
      return;
    }
    var imageData := finalImageData.value;
    if f.spotToEdit.Some? {
      var existingSpot := f.spotToEdit.value;
      existingSpot := existingSpot.(name := Trim(f.spotName));
      existingSpot := existingSpot.(directions := Trim(f.spotDirections));
      existingSpot := existingSpot.(spotType := selectedType);
      existingSpot := existingSpot.(imageData := imageData);
      spots.UpdateSpot(existingSpot);
      spotToEdit := Some(existingSpot);
    } else {
      var spot := FavoriteSpot(freshId, now, Trim(f.spotName), Trim(f.spotDirections), selectedType, imageData);
      spots.AddSpot(spot);
      saved := Some(spot);
    }
  }
}
