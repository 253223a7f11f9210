/**
 * The journal app's records (`HarvestEntry`, `HarvestUnit`, `FavoriteSpot`,
 * `SpotType`) and the Foundation values they are made of.
 */
module Records {
  import opened Wrappers
  import opened Crypto

  /** A `UUID`; only its identity matters. */
  type Uuid = nat

  /** A `Date`, as whole seconds from a reference instant. */
  type Date = int

  /** Foundation `Data`. */
  type Bytes = seq<Byte>

  /** A Swift `Double`: a finite value or one of the IEEE 754 specials. */
  datatype Double = Finite(value: real) | PositiveInfinity | NegativeInfinity | NaN {
    /** `self > 0`; every comparison with NaN is false. */
    predicate IsPositive() {
      PositiveInfinity? || (Finite? && value > 0.0)
    }
  }

  /** `Int(d)` for a finite `d`: rounds toward zero, so the result has the
      sign of `d` and lies less than one away from it. */
  function TruncateToInt(d: Double): (r: int)
    requires d.Finite?
    ensures d.value >= 0.0 ==> 0 <= r && r as real <= d.value < r as real + 1.0
    ensures d.value < 0.0 ==> r <= 0 && r as real - 1.0 < d.value <= r as real
  {
    if d.value >= 0.0 then d.value.Floor else -((-d.value).Floor)
  }

  datatype HarvestUnit = Liters | Kilograms | Baskets

  datatype HarvestEntry = HarvestEntry(
    id: Uuid,
    date: Date,
    berryType: string,
    quantity: Double,
    unit: HarvestUnit,
    notes: string,
    imageData: Option<Bytes>)

  /** `SpotType`; the Swift field of this type is called `type`, a keyword here. */
  datatype SpotType = Crop | RareBerries

  datatype FavoriteSpot = FavoriteSpot(
    id: Uuid,
    createdAt: Date,
    name: string,
    directions: string,
    spotType: SpotType,
    imageData: Bytes)

  /** A picked `UIImage`, known here by what `jpegData(compressionQuality: 0.85)`
      gives for it: the JPEG bytes, or `nil` when the conversion fails. */
  datatype Picture = Picture(jpeg: Option<Bytes>)
}
