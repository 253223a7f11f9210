/**
 * The `Codable` conformance of `HarvestEntry` and `FavoriteSpot` as
 * `JSONEncoder`/`JSONDecoder` use it: an array of keyed objects. The JSON
 * value is the model's stand-in for the encoded bytes. Encoding a
 * non-finite `Double` throws, as it does with the encoder's default
 * strategy; decoding accepts exactly what encoding produces and more, and
 * gives back what was encoded.
 */
module Codable {
  import opened Wrappers
  import opened Crypto
  import opened Metrics
  import opened Records

  /** `UUID`: its identity as a number. */
  function EncodeUuid(id: Uuid): Json {
    JNumber(id as real)
  }

  function DecodeUuid(j: Option<Json>): (r: Option<Uuid>)
    ensures r.Some? ==> j == Some(EncodeUuid(r.value))
  {
    if j.Some? && j.value.JNumber? && j.value.n >= 0.0 && j.value.n.Floor as real == j.value.n
    then Some(j.value.n.Floor as nat) else None
  }

  /** `Date`: seconds since the reference date, a JSON number by default. */
  function EncodeDate(d: Date): Json {
    JNumber(d as real)
  }

  function DecodeDate(j: Option<Json>): (r: Option<Date>)
    ensures r.Some? ==> j == Some(EncodeDate(r.value))
  {
    if j.Some? && j.value.JNumber? && j.value.n.Floor as real == j.value.n
    then Some(j.value.n.Floor) else None
  }

  function DecodeString(j: Option<Json>): (r: Option<string>)
    ensures r.Some? ==> j == Some(JString(r.value))
  {
    if j.Some? && j.value.JString? then Some(j.value.s) else None
  }

  /** `Double`: a JSON number; NaN and the infinities cannot be encoded. */
  function EncodeDouble(d: Double): (r: Option<Json>)
    ensures r.Some? <==> d.Finite?
  {
    if d.Finite? then Some(JNumber(d.value)) else None
  }

  /** Every number read back is finite. */
  function DecodeDouble(j: Option<Json>): (r: Option<Double>)
    ensures r.Some? ==> r.value.Finite? && EncodeDouble(r.value) == j
  {
    if j.Some? && j.value.JNumber? then Some(Finite(j.value.n)) else None
  }

  /** `HarvestUnit.rawValue` */
  function UnitName(u: HarvestUnit): string {
    match u
    case Liters => "liters"
    case Kilograms => "kilograms"
    case Baskets => "baskets"
  }

  function DecodeUnit(j: Option<Json>): (r: Option<HarvestUnit>)
    ensures r.Some? ==> j == Some(JString(UnitName(r.value)))
  {
    if j == Some(JString(UnitName(Liters))) then Some(Liters)
    else if j == Some(JString(UnitName(Kilograms))) then Some(Kilograms)
    else if j == Some(JString(UnitName(Baskets))) then Some(Baskets)
    else None
  }

  lemma UnitRoundTrip(u: HarvestUnit)
    ensures DecodeUnit(Some(JString(UnitName(u)))) == Some(u)
  {
    assert UnitName(Liters)[0] == 'l' && UnitName(Kilograms)[0] == 'k' && UnitName(Baskets)[0] == 'b';
  }

  /** `SpotType.rawValue` */
  function SpotTypeName(t: SpotType): string {
    match t
    case Crop => "crop"
    case RareBerries => "rareBerries"
  }

  function DecodeSpotType(j: Option<Json>): (r: Option<SpotType>)
    ensures r.Some? ==> j == Some(JString(SpotTypeName(r.value)))
  {
    if j == Some(JString(SpotTypeName(Crop))) then Some(Crop)
    else if j == Some(JString(SpotTypeName(RareBerries))) then Some(RareBerries)
    else None
  }

  lemma SpotTypeRoundTrip(t: SpotType)
    ensures DecodeSpotType(Some(JString(SpotTypeName(t)))) == Some(t)
  {
    assert SpotTypeName(Crop)[0] == 'c' && SpotTypeName(RareBerries)[0] == 'r';
  }

  /** `Data`: a string from which the bytes can be read back (the hex form
      here; the encoder's base64 is another such form). */
  function EncodeBytes(b: Bytes): Json {
    JString(HexString(b))
  }

  function DecodeBytes(j: Option<Json>): Option<Bytes> {
    match DecodeString(j)
    case Some(s) => HexDecode(s)
    case None => None
  }

  /** `decodeIfPresent`: an absent key, or one holding `null`, is `nil`. */
  function DecodeOptionalBytes(j: Option<Json>): (r: Option<Option<Bytes>>)
    ensures j.None? || j == Some(JNull) ==> r == Some(None)
    ensures r.Some? && r.value.Some? ==> r == Some(DecodeBytes(j))
  {
    if j.None? || j == Some(JNull) then Some(None)
    else match DecodeBytes(j)
      case Some(b) => Some(Some(b))
      case None => None
  }

  lemma BytesRoundTrip(b: Bytes)
    ensures DecodeBytes(Some(EncodeBytes(b))) == Some(b)
  {
    HexRoundTrip(b);
  }

  /** The six members every entry has, in declaration order. */
  function EntryFields(e: HarvestEntry): (r: seq<(string, Json)>)
    requires e.quantity.Finite?
  {
    [("id", EncodeUuid(e.id)), ("date", EncodeDate(e.date)), ("berryType", JString(e.berryType)),
     ("quantity", JNumber(e.quantity.value)), ("unit", JString(UnitName(e.unit))), ("notes", JString(e.notes))]
  }

  /** The image member, present only for a non-`nil` image (`encodeIfPresent`). */
  function ImageField(image: Option<Bytes>): seq<(string, Json)> {
    if image.Some? then [("imageData", EncodeBytes(image.value))] else []
  }

  lemma ImageKeyIsNew(e: HarvestEntry)
    requires e.quantity.Finite?
    ensures forall i :: 0 <= i < |EntryFields(e)| ==> EntryFields(e)[i].0 != "imageData"
  {
    var m := EntryFields(e);
    assert |m[0].0| == 2;
    assert m[1].0[0] == 'd' && m[2].0[0] == 'b' && m[3].0[0] == 'q' && m[4].0[0] == 'u' && m[5].0[0] == 'n';
  }

  /** The object for one entry. */
  function EncodeEntry(e: HarvestEntry): (r: Option<Json>)
    ensures r.Some? <==> e.quantity.Finite?
    ensures r.Some? ==> r.value.JObject? && DistinctKeys(r.value.members)
  {
    if !e.quantity.Finite? then None
    else
      var m := EntryFields(e);
      assert m[0].0[0] == 'i' && m[1].0[0] == 'd' && m[2].0[0] == 'b' && m[3].0[0] == 'q';
      assert m[4].0[0] == 'u' && m[5].0[0] == 'n';
      ImageKeyIsNew(e);
      Some(JObject(m + ImageField(e.imageData)))
  }

  /** An object missing a required key, or holding a value of the wrong kind,
      does not decode; an absent `imageData` decodes as `nil`. */
  function DecodeEntry(j: Json): (r: Option<HarvestEntry>)
    ensures r.Some? ==> r.value.quantity.Finite?
  {
    if !j.JObject? then None
    else
      var m := j.members;
      match (DecodeUuid(Lookup(m, "id")), DecodeDate(Lookup(m, "date")), DecodeString(Lookup(m, "berryType")),
             DecodeDouble(Lookup(m, "quantity")), DecodeUnit(Lookup(m, "unit")), DecodeString(Lookup(m, "notes")),
             DecodeOptionalBytes(Lookup(m, "imageData")))
      case (Some(id), Some(date), Some(berryType), Some(quantity), Some(unit), Some(notes), Some(imageData)) =>
        Some(HarvestEntry(id, date, berryType, quantity, unit, notes, imageData))
      case _ => None
  }

  /** The identifying members read back. */
  lemma EntryHeadRoundTrip(e: HarvestEntry)
    requires e.quantity.Finite?
    ensures var m := EncodeEntry(e).value.members;
      DecodeUuid(Lookup(m, "id")) == Some(e.id) && DecodeDate(Lookup(m, "date")) == Some(e.date)
      && DecodeString(Lookup(m, "berryType")) == Some(e.berryType)
  {
    var m := EncodeEntry(e).value.members;
    LookupFindsMember(m, "id", EncodeUuid(e.id));
    LookupFindsMember(m, "date", EncodeDate(e.date));
    LookupFindsMember(m, "berryType", JString(e.berryType));
  }

  /** The measured members read back. */
  lemma EntryBodyRoundTrip(e: HarvestEntry)
    requires e.quantity.Finite?
    ensures var m := EncodeEntry(e).value.members;
      DecodeDouble(Lookup(m, "quantity")) == Some(e.quantity) && DecodeUnit(Lookup(m, "unit")) == Some(e.unit)
      && DecodeString(Lookup(m, "notes")) == Some(e.notes)
  {
    var m := EncodeEntry(e).value.members;
    LookupFindsMember(m, "quantity", JNumber(e.quantity.value));
    LookupFindsMember(m, "unit", JString(UnitName(e.unit)));
    UnitRoundTrip(e.unit);
    LookupFindsMember(m, "notes", JString(e.notes));
  }

  /** The image member read back, or its absence read as `nil`. */
  lemma EntryImageRoundTrip(e: HarvestEntry)
    requires e.quantity.Finite?
    ensures DecodeOptionalBytes(Lookup(EncodeEntry(e).value.members, "imageData")) == Some(e.imageData)
  {
    var m := EncodeEntry(e).value.members;
    match e.imageData
    case Some(b) =>
      LookupFindsMember(m, "imageData", EncodeBytes(b));
      BytesRoundTrip(b);
    case None =>
      assert m == EntryFields(e) + [];
      ImageKeyIsNew(e);
  }

  lemma EntryRoundTrip(e: HarvestEntry)
    requires e.quantity.Finite?
    ensures DecodeEntry(EncodeEntry(e).value) == Some(e)
  {
    EntryHeadRoundTrip(e);
    EntryBodyRoundTrip(e);
    EntryImageRoundTrip(e);
  }

  /** The object for one spot. */
  function EncodeSpot(s: FavoriteSpot): (r: Json)
    ensures r.JObject? && DistinctKeys(r.members)
  {
    assert "id"[0] == 'i' && "createdAt"[0] == 'c' && "name"[0] == 'n' && "directions"[0] == 'd';
    assert "type"[0] == 't' && "imageData"[0] == 'i' && |"imageData"| != |"id"|;
    JObject([("id", EncodeUuid(s.id)), ("createdAt", EncodeDate(s.createdAt)), ("name", JString(s.name)),
             ("directions", JString(s.directions)), ("type", JString(SpotTypeName(s.spotType))),
             ("imageData", EncodeBytes(s.imageData))])
  }

  function DecodeSpot(j: Json): Option<FavoriteSpot> {
    if !j.JObject? then None
    else
      var m := j.members;
      match (DecodeUuid(Lookup(m, "id")), DecodeDate(Lookup(m, "createdAt")), DecodeString(Lookup(m, "name")),
             DecodeString(Lookup(m, "directions")), DecodeSpotType(Lookup(m, "type")), DecodeBytes(Lookup(m, "imageData")))
      case (Some(id), Some(createdAt), Some(name), Some(directions), Some(spotType), Some(imageData)) =>
        Some(FavoriteSpot(id, createdAt, name, directions, spotType, imageData))
      case _ => None
  }

  /** The identifying members read back. */
  lemma SpotHeadRoundTrip(s: FavoriteSpot)
    ensures var m := EncodeSpot(s).members;
      DecodeUuid(Lookup(m, "id")) == Some(s.id) && DecodeDate(Lookup(m, "createdAt")) == Some(s.createdAt)
      && DecodeString(Lookup(m, "name")) == Some(s.name)
  {
    var m := EncodeSpot(s).members;
    LookupFindsMember(m, "id", EncodeUuid(s.id));
    LookupFindsMember(m, "createdAt", EncodeDate(s.createdAt));
    LookupFindsMember(m, "name", JString(s.name));
  }

  /** The descriptive members read back. */
  lemma SpotBodyRoundTrip(s: FavoriteSpot)
    ensures var m := EncodeSpot(s).members;
      DecodeString(Lookup(m, "directions")) == Some(s.directions)
      && DecodeSpotType(Lookup(m, "type")) == Some(s.spotType)
      && DecodeBytes(Lookup(m, "imageData")) == Some(s.imageData)
  {
    var m := EncodeSpot(s).members;
    LookupFindsMember(m, "directions", JString(s.directions));
    LookupFindsMember(m, "type", JString(SpotTypeName(s.spotType)));
    SpotTypeRoundTrip(s.spotType);
    LookupFindsMember(m, "imageData", EncodeBytes(s.imageData));
    BytesRoundTrip(s.imageData);
  }

  lemma SpotRoundTrip(s: FavoriteSpot)
    ensures DecodeSpot(EncodeSpot(s)) == Some(s)
  {
    SpotHeadRoundTrip(s);
    SpotBodyRoundTrip(s);
  }

  /** A JSON array read element by element: it decodes exactly when every
      element does, to the elements' values in order. */
  function DecodeAll<T>(items: seq<Json>, decode: Json -> Option<T>): (r: Option<seq<T>>)
    ensures r.Some? ==> |r.value| == |items| && forall i :: 0 <= i < |items| ==> decode(items[i]) == Some(r.value[i])
    ensures r.None? ==> exists i :: 0 <= i < |items| && decode(items[i]).None?
  {
    if items == [] then Some([])
    else match (decode(items[0]), DecodeAll(items[1..], decode))
      case (Some(first), Some(rest)) =>
        assert forall i :: 1 <= i < |items| ==> items[i] == items[1..][i - 1];
        Some([first] + rest)
      case (None, _) => None
      case (_, None) =>
        var i :| 0 <= i < |items[1..]| && decode(items[1..][i]).None?;
        assert items[i + 1] == items[1..][i];
        None
  }

  /** An array whose every element reads back as the value at the same
      index reads back as the whole list. */
  lemma {:induction false} DecodeAllEach<T>(items: seq<Json>, decode: Json -> Option<T>, xs: seq<T>)
    requires |items| == |xs|
    requires forall i :: 0 <= i < |items| ==> decode(items[i]) == Some(xs[i])
    ensures DecodeAll(items, decode) == Some(xs)
  {
    if items != [] {
      assert forall i :: 0 <= i < |items[1..]| ==> items[1..][i] == items[i + 1];
      DecodeAllEach(items[1..], decode, xs[1..]);
      assert [xs[0]] + xs[1..] == xs;
    }
  }

  /** `[HarvestEntry]`: fails when any entry fails, otherwise one object per entry, in order. */
  function EncodeEntries(es: seq<HarvestEntry>): (r: Option<Json>)
    ensures r.Some? <==> forall i :: 0 <= i < |es| ==> es[i].quantity.Finite?
    ensures r.Some? ==> r.value.JArray? && |r.value.items| == |es|
  {
    if forall i :: 0 <= i < |es| ==> es[i].quantity.Finite?
    then Some(JArray(seq(|es|, i requires 0 <= i < |es| => EncodeEntry(es[i]).value)))
    else None
  }

  /** An array decodes when every element does. */
  function DecodeEntries(j: Json): (r: Option<seq<HarvestEntry>>)
    ensures r.Some? ==> forall i :: 0 <= i < |r.value| ==> r.value[i].quantity.Finite?
  {
    if j.JArray? then DecodeAll(j.items, DecodeEntry) else None
  }

  lemma EntriesRoundTrip(es: seq<HarvestEntry>)
    requires forall i :: 0 <= i < |es| ==> es[i].quantity.Finite?
    ensures DecodeEntries(EncodeEntries(es).value) == Some(es)
  {
    var items := EncodeEntries(es).value.items;
    forall i | 0 <= i < |es|
      ensures DecodeEntry(items[i]) == Some(es[i])
    {
      EntryRoundTrip(es[i]);
    }
    DecodeAllEach(items, DecodeEntry, es);
  }

  /** `[FavoriteSpot]`: one object per spot, in order. */
  function EncodeSpots(ss: seq<FavoriteSpot>): (r: Json)
    ensures r.JArray? && |r.items| == |ss|
  {
    JArray(seq(|ss|, i requires 0 <= i < |ss| => EncodeSpot(ss[i])))
  }

  function DecodeSpots(j: Json): Option<seq<FavoriteSpot>> {
    if j.JArray? then DecodeAll(j.items, DecodeSpot) else None
  }

  lemma SpotsRoundTrip(ss: seq<FavoriteSpot>)
    ensures DecodeSpots(EncodeSpots(ss)) == Some(ss)
  {
    var items := EncodeSpots(ss).items;
    forall i | 0 <= i < |ss|
      ensures DecodeSpot(items[i]) == Some(ss[i])
    {
      SpotRoundTrip(ss[i]);
    }
    DecodeAllEach(items, DecodeSpot, ss);
  }
}
