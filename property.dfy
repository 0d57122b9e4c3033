/** The immutable records of the catalogue (Models/Property.swift): a
    property, its two closed enumerations, its features, and the keyed
    encode/decode pair of its map coordinate.

    Swift `let` fields become datatype fields: a Dafny datatype value cannot
    be updated in place, so a record never changes after construction.
    `Double` prices and coordinates are modelled as `real` (they are only
    compared and copied), UUIDs as naturals. */
module PropertyModel {
  import opened Wrappers

  /** Property.PropertyType: String-backed, CaseIterable. */
  datatype PropertyType = House | Apartment | Condo | Townhouse | Land
  {
    /** The position of the case in declaration order. */
    function Index(): (i: nat)
      ensures i < 5
    {
      match this
      case House => 0
      case Apartment => 1
      case Condo => 2
      case Townhouse => 3
      case Land => 4
    }
  }

  /** Property.PropertyStatus: String-backed. */
  datatype PropertyStatus = ForSale | Pending | Sold

  /** CLLocationCoordinate2D */
  datatype Coordinate = Coordinate(latitude: real, longitude: real)

  datatype PropertyFeature = PropertyFeature(id: nat, name: string, icon: string)

  datatype Property = Property(
    id: nat,
    title: string,
    description: string,
    price: real,
    address: string,
    location: Coordinate,
    bedrooms: int,
    bathrooms: int,
    squareFootage: int,
    propertyType: PropertyType,
    images: seq<string>,
    features: seq<PropertyFeature>,
    status: PropertyStatus
  )

  /** `PropertyType.allCases`: every case exactly once, in declaration order. */
  function AllPropertyTypes(): (r: seq<PropertyType>)
    ensures |r| == 5
    ensures forall t: PropertyType :: t in r
    ensures forall i, j :: 0 <= i < j < |r| ==> r[i] != r[j]
    ensures forall i :: 0 <= i < |r| ==> r[i].Index() == i
  {
    var all := [House, Apartment, Condo, Townhouse, Land];
    assert forall t: PropertyType :: t in all by {
      forall t: PropertyType ensures t in all {
        assert all[t.Index()] == t;
      }
    }
    all
  }

  /** The String raw value Swift synthesises for each type (the case name). */
  function TypeRawValue(t: PropertyType): string
  {
    match t
    case House => "house"
    case Apartment => "apartment"
    case Condo => "condo"
    case Townhouse => "townhouse"
    case Land => "land"
  }

  /** `PropertyType(rawValue:)`: the case whose raw value is `s`, if any. */
  function TypeFromRawValue(s: string): (r: Option<PropertyType>)
    ensures r.Some? ==> TypeRawValue(r.value) == s
  {
    if s == "house" then Some(House)
    else if s == "apartment" then Some(Apartment)
    else if s == "condo" then Some(Condo)
    else if s == "townhouse" then Some(Townhouse)
    else if s == "land" then Some(Land)
    else None
  }

  /** Raw values identify the type: reading back a written raw value gives
      the same case, and every raw value that reads succeeds is the one
      written for the case read. */
  lemma TypeRawValueRoundTrip(t: PropertyType, s: string)
    ensures TypeFromRawValue(TypeRawValue(t)) == Some(t)
    ensures TypeFromRawValue(s) == Some(t) <==> s == TypeRawValue(t)
  {
    match t
    case House =>
    case Apartment =>
    case Condo =>
    case Townhouse =>
    case Land =>
  }

  function StatusRawValue(s: PropertyStatus): string
  {
    match s
    case ForSale => "forSale"
    case Pending => "pending"
    case Sold => "sold"
  }

  function StatusFromRawValue(s: string): (r: Option<PropertyStatus>)
    ensures r.Some? ==> StatusRawValue(r.value) == s
  {
    if s == "forSale" then Some(ForSale)
    else if s == "pending" then Some(Pending)
    else if s == "sold" then Some(Sold)
    else None
  }

  lemma StatusRawValueRoundTrip(st: PropertyStatus, s: string)
    ensures StatusFromRawValue(StatusRawValue(st)) == Some(st)
    ensures StatusFromRawValue(s) == Some(st) <==> s == StatusRawValue(st)
  {
    match st
    case ForSale =>
    case Pending =>
    case Sold =>
  }

  // ---------------------------------------------------------------------
  // The keyed container of the Codable extension of CLLocationCoordinate2D.

  /** A value stored under a key: a number, a string (which a
      `decode(Double.self, …)` refuses as a type mismatch) or null (which
      it refuses as a missing value). */
  datatype Value = Number(n: real) | Text(s: string) | Null

  /** The errors `init(from:)` can throw: the payload is not a keyed
      container, or the entry under a key is absent, null or not a number. */
  datatype DecodingError =
    | NotKeyedContainer
    | KeyNotFound(key: string)
    | ValueNotFound(key: string)
    | TypeMismatch(key: string)

  /** A keyed container: what the encoder writes and the decoder reads. */
  type Container = map<string, Value>

  /** What a decoder is handed: a keyed container, an unkeyed one, or a
      single value. */
  datatype Payload = Keyed(entries: Container) | Unkeyed(items: seq<Value>) | Single(value: Value)

  /** The two coding keys. */
  const LatitudeKey: string := "latitude"
  const LongitudeKey: string := "longitude"

  /** `encode(to:)`: latitude under "latitude", longitude under "longitude". */
  function EncodeCoordinate(c: Coordinate): (m: Container)
    ensures m.Keys == {LatitudeKey, LongitudeKey}
    ensures m[LatitudeKey] == Number(c.latitude) && m[LongitudeKey] == Number(c.longitude)
  {
    map[LatitudeKey := Number(c.latitude), LongitudeKey := Number(c.longitude)]
  }

  /** `container.decode(Double.self, forKey:)`. */
  function DecodeNumber(m: Container, key: string): (r: Result<real, DecodingError>)
    ensures r.Success? <==> key in m && m[key].Number?
    ensures r.Success? ==> m[key] == Number(r.value)
    ensures r.Failure? ==> !r.error.NotKeyedContainer? && r.error.key == key
  {
    if key !in m then Failure(KeyNotFound(key))
    else match m[key]
      case Number(n) => Success(n)
      case Text(_) => Failure(TypeMismatch(key))
      case Null => Failure(ValueNotFound(key))
  }

  /** `init(from:)`: the payload must be a keyed container; latitude is
      read first, so its error is the one thrown when both keys are
      unusable. */
  function DecodeCoordinate(p: Payload): Result<Coordinate, DecodingError>
  {
    match p
    case Unkeyed(_) => Failure(NotKeyedContainer)
    case Single(_) => Failure(NotKeyedContainer)
    case Keyed(m) =>
      match DecodeNumber(m, LatitudeKey)
      case Failure(e) => Failure(e)
      case Success(latitude) =>
        match DecodeNumber(m, LongitudeKey)
        case Failure(e) => Failure(e)
        case Success(longitude) => Success(Coordinate(latitude, longitude))
  }

  /** Decoding what was encoded gives the coordinate back. */
  lemma DecodeEncodeCoordinate(c: Coordinate)
    ensures DecodeCoordinate(Keyed(EncodeCoordinate(c))) == Success(c)
  {
  }

  /** The error thrown for each unusable payload: anything but a keyed
      container is a type mismatch of the container itself; then the first
      unusable key, latitude before longitude, decides between keyNotFound
      (absent), valueNotFound (null) and typeMismatch (not a number). */
  lemma DecodeErrors(p: Payload)
    ensures !p.Keyed? ==> DecodeCoordinate(p) == Failure(NotKeyedContainer)
    ensures p.Keyed? && LatitudeKey !in p.entries ==>
              DecodeCoordinate(p) == Failure(KeyNotFound(LatitudeKey))
    ensures p.Keyed? && LatitudeKey in p.entries && p.entries[LatitudeKey].Null? ==>
              DecodeCoordinate(p) == Failure(ValueNotFound(LatitudeKey))
    ensures p.Keyed? && LatitudeKey in p.entries && p.entries[LatitudeKey].Text? ==>
              DecodeCoordinate(p) == Failure(TypeMismatch(LatitudeKey))
    ensures p.Keyed? && LatitudeKey in p.entries && p.entries[LatitudeKey].Number? ==>
              (LongitudeKey !in p.entries ==> DecodeCoordinate(p) == Failure(KeyNotFound(LongitudeKey))) &&
              (LongitudeKey in p.entries && p.entries[LongitudeKey].Null? ==>
                 DecodeCoordinate(p) == Failure(ValueNotFound(LongitudeKey))) &&
              (LongitudeKey in p.entries && p.entries[LongitudeKey].Text? ==>
                 DecodeCoordinate(p) == Failure(TypeMismatch(LongitudeKey)))
  {
  }

  /** Decoding succeeds exactly when the payload is a keyed container whose
      two keys hold numbers; it then reads those two entries and nothing
      else, so re-encoding the result gives back the entries it read (other
      keys are ignored). */
  lemma DecodeSucceedsIff(p: Payload)
    ensures DecodeCoordinate(p).Success? <==>
              p.Keyed? &&
              LatitudeKey in p.entries && p.entries[LatitudeKey].Number? &&
              LongitudeKey in p.entries && p.entries[LongitudeKey].Number?
    ensures DecodeCoordinate(p).Success? ==>
              forall k :: k in EncodeCoordinate(DecodeCoordinate(p).value) ==>
                k in p.entries && p.entries[k] == EncodeCoordinate(DecodeCoordinate(p).value)[k]
  {
  }
}
