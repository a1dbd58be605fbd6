/** Plain data declarations shared by several core files. */
module Model {

  /** `CLLocationCoordinate2D` / `Coordinate`, in degrees. */
  datatype Coordinate = Coordinate(latitude: real, longitude: real)

  /** `NOAAURLS`: the links a points document gives for a location. */
  datatype NoaaUrls = NoaaUrls(observationStations: string)
}
