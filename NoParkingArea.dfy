/**
 * A fixed enforcement-camera location ("danger" area) as stored in Realm, the
 * DTO it is decoded from, and the string-or-number coordinate the feed uses.
 */
module NoParkingAreas {
  import opened Wrappers
  import opened Numerics
  import opened Foreign

  /** No-parking areas are indexed in thousandths of a degree, rounded. */
  const IndexScale: real := 1000.0

  /** Geohash length stored for clustering. */
  const GeohashLength: nat := 5

  /** The index a no-parking area stores for one coordinate. */
  function CoordinateIndex(c: real): (r: int)
    ensures c * IndexScale - 0.5 <= r as real <= c * IndexScale + 0.5
    ensures 0.0 <= c ==> 0 <= r
    ensures c <= 0.0 ==> r <= 0
  {
    RoundHalfAway(c * IndexScale)
  }

  class NoParkingArea {
    var address: string
    var latitude: real
    var longitude: real
    var district: string
    var descriptionText: string
    var latInt: int
    var lngInt: int
    var geohash: string

    /** Realm's `Object()`: every stored property at its default. */
    constructor Empty()
      ensures address == "" && district == "" && descriptionText == ""
      ensures latitude == 0.0 && longitude == 0.0
      ensures latInt == 0 && lngInt == 0 && geohash == ""
    {
      address, latitude, longitude, district, descriptionText := "", 0.0, 0.0, "", "";
      latInt, lngInt, geohash := 0, 0, "";
    }

    /** The convenience initialiser: stores the fields and computes the search fields. */
    constructor (address: string, latitude: real, longitude: real, district: string,
                 descriptionText: string, encode: GeohashEncoder)
      ensures this.address == address && this.latitude == latitude && this.longitude == longitude
      ensures this.district == district && this.descriptionText == descriptionText
      ensures latInt == RoundHalfAway(latitude * IndexScale)
      ensures lngInt == RoundHalfAway(longitude * IndexScale)
      ensures geohash == encode(latitude, longitude, GeohashLength)
      ensures Indexed(encode)
    {
      this.address := address;
      this.latitude := latitude;
      this.longitude := longitude;
      this.district := district;
      this.descriptionText := descriptionText;
      latInt := RoundHalfAway(latitude * 1000.0);
      lngInt := RoundHalfAway(longitude * 1000.0);
      geohash := encode(latitude, longitude, 5);
    }

    /** The search fields agree with the coordinates. */
    ghost predicate Indexed(encode: GeohashEncoder)
      reads this
    {
      && latInt == CoordinateIndex(latitude)
      && lngInt == CoordinateIndex(longitude)
      && geohash == encode(latitude, longitude, GeohashLength)
    }

    /**
     * `prepareIndexing`: recompute the search fields from the coordinates. On an
     * object that is already indexed (one built by the convenience initialiser,
     * say) it changes nothing.
     */
    method PrepareIndexing(encode: GeohashEncoder)
      modifies this`latInt, this`lngInt, this`geohash
      ensures Indexed(encode)
      ensures old(Indexed(encode)) ==> unchanged(this)
    {
      latInt := RoundHalfAway(latitude * 1000.0);
      lngInt := RoundHalfAway(longitude * 1000.0);
      geohash := encode(latitude, longitude, 5);
    }
  }

  // ---- The coordinate as the feed delivers it ----

  /** `StringOrDouble`: the feed writes coordinates sometimes as numbers, sometimes as text. */
  datatype StringOrDouble = Text(str: string) | Number(dbl: real) {
    /** `value`: the number itself, or whatever `Double(str)` makes of the text. */
    function Value(parse: DoubleParser): (r: Option<real>)
      ensures Number? ==> r == Some(dbl)
      ensures Text? ==> r == parse(str)
      ensures r.None? ==> Text?
    {
      match this
      case Text(s) => parse(s)
      case Number(d) => Some(d)
    }
  }

  /** A single JSON value, as far as the decoder distinguishes it. */
  datatype Json = JNumber(n: real) | JString(s: string) | JOther

  datatype DecodeError = TypeMismatch

  /** `init(from:)`: a number decodes as `.double`, failing that a string as `.string`, anything else is an error. */
  function Decode(j: Json): (r: Result<StringOrDouble, DecodeError>)
    ensures r.Ok? <==> !j.JOther?
    ensures j.JNumber? ==> r == Ok(Number(j.n))
  {
    match j
    case JNumber(n) => Ok(Number(n))
    case JString(s) => Ok(Text(s))
    case JOther => Err(TypeMismatch)
  }

  /** `encode(to:)`: each case as its own JSON kind. */
  function Encode(v: StringOrDouble): (j: Json)
    ensures !j.JOther?
  {
    match v
    case Number(d) => JNumber(d)
    case Text(s) => JString(s)
  }

  /** Decoding what was encoded gives the value back. */
  lemma DecodeEncode(v: StringOrDouble)
    ensures Decode(Encode(v)) == Ok(v)
  {
  }

  /** Encoding what was decoded gives the JSON back. */
  lemma EncodeDecode(j: Json)
    requires Decode(j).Ok?
    ensures Encode(Decode(j).value) == j
  {
  }

  // ---- The DTO ----

  datatype NoParkingAreaDTO = NoParkingAreaDTO(
    address: string, latitudeRaw: StringOrDouble, longitudeRaw: StringOrDouble,
    district: string, descriptionText: string)
  {
    /** The DTO's `latitude`: the coerced value, or 0 when it does not coerce. */
    function Latitude(parse: DoubleParser): (r: real)
      ensures latitudeRaw.Number? ==> r == latitudeRaw.dbl
      ensures latitudeRaw.Value(parse).Some? ==> r == latitudeRaw.Value(parse).value
      ensures latitudeRaw.Value(parse).None? ==> r == 0.0
    {
      latitudeRaw.Value(parse).GetOr(0.0)
    }

    /** The DTO's `longitude`: the coerced value, or 0 when it does not coerce. */
    function Longitude(parse: DoubleParser): (r: real)
      ensures longitudeRaw.Number? ==> r == longitudeRaw.dbl
      ensures longitudeRaw.Value(parse).Some? ==> r == longitudeRaw.Value(parse).value
      ensures longitudeRaw.Value(parse).None? ==> r == 0.0
    {
      longitudeRaw.Value(parse).GetOr(0.0)
    }
  }

  /**
   * A DTO coordinate is the number the feed sent when it sent a number, the
   * parsed text when the text parses, and 0 otherwise.
   */
  lemma DtoCoordinates(dto: NoParkingAreaDTO, parse: DoubleParser)
    ensures dto.latitudeRaw.Number? ==> dto.Latitude(parse) == dto.latitudeRaw.dbl
    ensures dto.latitudeRaw.Text? ==>
      dto.Latitude(parse) == (if parse(dto.latitudeRaw.str).Some? then parse(dto.latitudeRaw.str).value else 0.0)
    ensures dto.longitudeRaw.Number? ==> dto.Longitude(parse) == dto.longitudeRaw.dbl
    ensures dto.longitudeRaw.Text? ==>
      dto.Longitude(parse) == (if parse(dto.longitudeRaw.str).Some? then parse(dto.longitudeRaw.str).value else 0.0)
  {
  }

  /** `NoParkingAreaDTO.toRealmObject`: a fresh object with the DTO's fields, then indexed. */
  method ToRealmObject(dto: NoParkingAreaDTO, parse: DoubleParser, encode: GeohashEncoder)
    returns (obj: NoParkingArea)
    ensures fresh(obj)
    ensures obj.address == dto.address && obj.district == dto.district
    ensures obj.descriptionText == dto.descriptionText
    ensures obj.latitude == dto.Latitude(parse) && obj.longitude == dto.Longitude(parse)
    ensures obj.Indexed(encode)
  {
    obj := new NoParkingArea.Empty();
    obj.address := dto.address;
    obj.latitude := dto.Latitude(parse);
    obj.longitude := dto.Longitude(parse);
    obj.district := dto.district;
    obj.descriptionText := dto.descriptionText;
    obj.PrepareIndexing(encode);
  }
}
