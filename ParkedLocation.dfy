/** The user's saved parking spot. */
module ParkedLocations {
  import opened Wrappers
  import opened Numerics

  /** Parked locations are indexed in ten-thousandths of a degree, rounded. */
  const IndexScale: real := 10000.0

  /** A point in time, as seconds since a fixed reference date. */
  type Date = real

  class ParkedLocation {
    var latitude: real
    var longitude: real
    var title: string
    var latInt: int
    var lngInt: int
    var imagePath: Option<string>
    var savedDate: Date

    /**
     * The convenience initialiser. The source's `date` defaults to the current
     * time; here the caller passes it.
     */
    constructor (latitude: real, longitude: real, title: string, imagePath: Option<string>, date: Date)
      ensures this.latitude == latitude && this.longitude == longitude
      ensures this.title == title && this.imagePath == imagePath && savedDate == date
      ensures latInt == RoundHalfAway(latitude * IndexScale)
      ensures lngInt == RoundHalfAway(longitude * IndexScale)
    {
      this.latitude := latitude;
      this.longitude := longitude;
      this.title := title;
      this.imagePath := imagePath;
      savedDate := date;
      latInt := RoundHalfAway(latitude * 10000.0);
      lngInt := RoundHalfAway(longitude * 10000.0);
    }
  }
}
