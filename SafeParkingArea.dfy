/**
 * A public parking lot ("safe" area) as stored in Realm, the DTO it is decoded
 * from, and the indexing step that fills its search fields.
 */
module SafeParkingAreas {
  import opened Wrappers
  import opened Numerics
  import opened Foreign

  /** Safe areas are indexed in thousandths of a degree. */
  const IndexScale: real := 1000.0

  /** Geohash length stored for clustering. */
  const GeohashLength: nat := 5

  /** The fields of a safe area that indexing never touches. */
  datatype SafeDetails = SafeDetails(
    name: string, address: string, code: string,
    placeKind: string, operationKind: string,
    isPaid: bool, isNightFree: bool, isHolidayFree: bool,
    weekdayStart: Option<string>, weekdayEnd: Option<string>,
    weekendStart: Option<string>, weekendEnd: Option<string>,
    holidayStart: Option<string>, holidayEnd: Option<string>,
    baseCharge: Option<int>, baseTime: Option<int>, extraCharge: Option<int>,
    extraUnitMinutes: Option<int>, dailyMaxCharge: Option<int>,
    latitude: Option<real>, longitude: Option<real>)

  class SafeParkingArea {
    var name: string
    var address: string
    var code: string
    var placeKind: string
    var operationKind: string
    var isPaid: bool
    var isNightFree: bool
    var isHolidayFree: bool
    var weekdayStart: Option<string>
    var weekdayEnd: Option<string>
    var weekendStart: Option<string>
    var weekendEnd: Option<string>
    var holidayStart: Option<string>
    var holidayEnd: Option<string>
    var baseCharge: Option<int>
    var baseTime: Option<int>
    var extraCharge: Option<int>
    var extraUnitMinutes: Option<int>
    var dailyMaxCharge: Option<int>
    var latitude: Option<real>
    var longitude: Option<real>
    var latIndex: Option<int>
    var lngIndex: Option<int>
    var geohash: Option<string>

    /** A record whose stored fields are `d` and whose search fields are still nil. */
    constructor (d: SafeDetails)
      ensures Details() == d
      ensures latIndex == None && lngIndex == None && geohash == None
    {
      name, address, code, placeKind, operationKind := d.name, d.address, d.code, d.placeKind, d.operationKind;
      isPaid, isNightFree, isHolidayFree := d.isPaid, d.isNightFree, d.isHolidayFree;
      weekdayStart, weekdayEnd, weekendStart, weekendEnd := d.weekdayStart, d.weekdayEnd, d.weekendStart, d.weekendEnd;
      holidayStart, holidayEnd := d.holidayStart, d.holidayEnd;
      baseCharge, baseTime, extraCharge := d.baseCharge, d.baseTime, d.extraCharge;
      extraUnitMinutes, dailyMaxCharge := d.extraUnitMinutes, d.dailyMaxCharge;
      latitude, longitude := d.latitude, d.longitude;
      latIndex, lngIndex, geohash := None, None, None;
    }

    function Details(): SafeDetails
      reads this
    {
      SafeDetails(name, address, code, placeKind, operationKind,
              isPaid, isNightFree, isHolidayFree,
              weekdayStart, weekdayEnd, weekendStart, weekendEnd, holidayStart, holidayEnd,
              baseCharge, baseTime, extraCharge, extraUnitMinutes, dailyMaxCharge,
              latitude, longitude)
    }

    /** Both coordinates are present and the search fields agree with them. */
    ghost predicate Indexed(encode: GeohashEncoder)
      reads this
    {
      && latitude.Some? && longitude.Some?
      && latIndex == Some(Trunc(latitude.value * IndexScale))
      && lngIndex == Some(Trunc(longitude.value * IndexScale))
      && geohash == Some(encode(latitude.value, longitude.value, GeohashLength))
    }

    /**
     * `prepareIndexing`: with both coordinates present, store their truncated
     * thousandth-degree indices and the 5-character geohash; otherwise do nothing.
     */
    method PrepareIndexing(encode: GeohashEncoder)
      modifies this`latIndex, this`lngIndex, this`geohash
      ensures latitude.None? || longitude.None? ==>
        latIndex == old(latIndex) && lngIndex == old(lngIndex) && geohash == old(geohash)
      ensures latitude.Some? && longitude.Some? ==> Indexed(encode)
    {
      if latitude.None? || longitude.None? {
        return;
      }
      var lat, lng := latitude.value, longitude.value;
      latIndex := Some(Trunc(lat * IndexScale));
      lngIndex := Some(Trunc(lng * IndexScale));
      geohash := Some(encode(lat, lng, GeohashLength));
    }
  }

  /** The record as it arrives in the city's parking-lot JSON feed. */
  datatype SafeParkingAreaDTO = SafeParkingAreaDTO(
    name: string, address: string, code: string,
    placeKind: string, operationKind: string,
    isPaid: string, isNightFree: string, isHolidayFree: string,
    weekdayStart: Option<string>, weekdayEnd: Option<string>,
    weekendStart: Option<string>, weekendEnd: Option<string>,
    holidayStart: Option<string>, holidayEnd: Option<string>,
    baseCharge: Option<int>, baseTime: Option<int>, extraCharge: Option<int>,
    extraUnitMinutes: Option<int>, dailyMaxCharge: Option<int>,
    latitude: Option<real>, longitude: Option<real>)

  /** The stored fields a DTO maps to: strings copied, each flag true exactly when it reads "Y". */
  function DetailsOf(dto: SafeParkingAreaDTO): SafeDetails {
    SafeDetails(dto.name, dto.address, dto.code, dto.placeKind, dto.operationKind,
                dto.isPaid == "Y", dto.isNightFree == "Y", dto.isHolidayFree == "Y",
                dto.weekdayStart, dto.weekdayEnd, dto.weekendStart, dto.weekendEnd,
                dto.holidayStart, dto.holidayEnd,
                dto.baseCharge, dto.baseTime, dto.extraCharge, dto.extraUnitMinutes, dto.dailyMaxCharge,
                dto.latitude, dto.longitude)
  }

  /**
   * `SafeParkingAreaDTO.toRealmObject`: a fresh object carrying the DTO's fields,
   * the three "Y"/"N" flags turned into booleans, then indexed.
   */
  method ToRealmObject(dto: SafeParkingAreaDTO, encode: GeohashEncoder) returns (obj: SafeParkingArea)
    ensures fresh(obj)
    ensures obj.Details() == DetailsOf(dto)
    ensures obj.isPaid <==> dto.isPaid == "Y"
    ensures obj.isNightFree <==> dto.isNightFree == "Y"
    ensures obj.isHolidayFree <==> dto.isHolidayFree == "Y"
    ensures dto.latitude.Some? && dto.longitude.Some? ==> obj.Indexed(encode)
    ensures dto.latitude.None? || dto.longitude.None? ==>
      obj.latIndex == None && obj.lngIndex == None && obj.geohash == None
  {
    obj := new SafeParkingArea(DetailsOf(dto));
    obj.PrepareIndexing(encode);
  }
}
