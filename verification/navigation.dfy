/** The navigation response a scan produces, as typed records, and the JSON
    object each record stands for on the wire. */
module Navigation {
  import opened Json

  /** A pixel position on the map image. */
  datatype Point = Point(x: int, y: int)

  datatype Dimensions = Dimensions(width: int, height: int)

  /** The rectangle every path point and every tracked position must stay in. */
  datatype Bounds = Bounds(minX: int, maxX: int, minY: int, maxY: int)

  /** The path drawn on the map, with the calibration the client uses to turn
      detected steps into progress along it. The calibration factors are
      floating-point in the client and are carried here as opaque reals. */
  datatype PathGeometry = PathGeometry(
    imageDimensions: Dimensions,
    points: seq<Point>,
    pathString: string,
    clampBounds: Bounds,
    stepCalibration: real,
    pixelsPerMeter: real,
    stepProgress: real,
    allowedDeviation: int)

  datatype Destination = Destination(
    id: string,
    title: string,
    totalSteps: int,
    distanceMeters: real,
    pathAngle: int,
    svgPath: PathGeometry)

  datatype NavigationInfo = NavigationInfo(
    building: string,
    mapImage: string,
    startNode: Point,
    stageDestination: Destination)

  /** What the scanned code resolved to. */
  datatype ScannedLocation = ScannedLocation(
    qrCode: string,
    scannedLocation: string,
    area: string,
    targetZone: string,
    isValid: bool,
    name: string,
    timestamp: string,
    mapImage: string)

  /** Where the response came from. */
  datatype Metadata = Metadata(backendUsed: bool, source: string, note: string)

  datatype NavigationResponse = NavigationResponse(
    success: bool,
    scannedData: ScannedLocation,
    navigation: NavigationInfo,
    metadata: Metadata)

  predicate Within(p: Point, b: Bounds) {
    b.minX <= p.x <= b.maxX && b.minY <= p.y <= b.maxY
  }

  /** Every point of the path lies inside the clamp bounds. */
  predicate PointsClamped(g: PathGeometry) {
    forall i :: 0 <= i < |g.points| ==> Within(g.points[i], g.clampBounds)
  }

  function PointJson(p: Point): Json {
    JObject(map["x" := Num(p.x), "y" := Num(p.y)])
  }

  function PointsJson(ps: seq<Point>): Json {
    JArray(seq(|ps|, i requires 0 <= i < |ps| => PointJson(ps[i])))
  }

  function GeometryJson(g: PathGeometry): Json {
    JObject(map[
      "imageDimensions" := JObject(map["width" := Num(g.imageDimensions.width),
                                       "height" := Num(g.imageDimensions.height)]),
      "points" := PointsJson(g.points),
      "pathString" := JString(g.pathString),
      "clampBounds" := JObject(map["minX" := Num(g.clampBounds.minX), "maxX" := Num(g.clampBounds.maxX),
                                   "minY" := Num(g.clampBounds.minY), "maxY" := Num(g.clampBounds.maxY)]),
      "stepCalibration" := JNumber(g.stepCalibration),
      "pixelsPerMeter" := JNumber(g.pixelsPerMeter),
      "stepProgress" := JNumber(g.stepProgress),
      "allowedDeviation" := Num(g.allowedDeviation)])
  }

  function DestinationJson(d: Destination): Json {
    JObject(map[
      "id" := JString(d.id),
      "title" := JString(d.title),
      "totalSteps" := Num(d.totalSteps),
      "distanceMeters" := JNumber(d.distanceMeters),
      "pathAngle" := Num(d.pathAngle),
      "svgPath" := GeometryJson(d.svgPath)])
  }

  function NavigationJson(n: NavigationInfo): Json {
    JObject(map[
      "building" := JString(n.building),
      "mapImage" := JString(n.mapImage),
      "startNode" := PointJson(n.startNode),
      "stageDestination" := DestinationJson(n.stageDestination)])
  }

  function ScannedJson(s: ScannedLocation): Json {
    JObject(map[
      "qrCode" := JString(s.qrCode),
      "scannedLocation" := JString(s.scannedLocation),
      "area" := JString(s.area),
      "targetZone" := JString(s.targetZone),
      "isValid" := JBool(s.isValid),
      "name" := JString(s.name),
      "timestamp" := JString(s.timestamp),
      "mapImage" := JString(s.mapImage)])
  }

  function MetadataJson(m: Metadata): Json {
    JObject(map[
      "backendUsed" := JBool(m.backendUsed),
      "source" := JString(m.source),
      "note" := JString(m.note)])
  }

  /** The object literal a response record is written as. */
  function ResponseJson(r: NavigationResponse): Json {
    JObject(map[
      "success" := JBool(r.success),
      "scannedData" := ScannedJson(r.scannedData),
      "navigation" := NavigationJson(r.navigation),
      "metadata" := MetadataJson(r.metadata)])
  }
}
