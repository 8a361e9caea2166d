/** The offline fallback: the complete navigation response the client builds
    on its own when the backend cannot be used (getOfflineFallbackData). */
module Fallback {
  import opened Decimal
  import opened Navigation

  /** The map asset bundled with the app; both copies in the record name it. */
  const MapImage := "auditorium_map.png"
  const FallbackSource := "offline_fallback"
  const SensorNote := "Navigation will use device sensors (pedometer, gyroscope, magnetometer)"

  /** The generated path: `PointCount` points, from (150, 280) upwards in
      steps of 20 pixels. */
  const PointCount := 13
  const StartX := 150
  const StartY := 280
  const PointSpacing := 20
  const PathString := "M150,280 L150,40"
  const StageBounds := Bounds(145, 155, 40, 280)

  /** `Array.from({length}, mapFn)`: element i is `mapFn(i)`. */
  function ArrayFrom<T>(length: nat, mapFn: nat -> T): (r: seq<T>)
    ensures |r| == length
    ensures forall i :: 0 <= i < length ==> r[i] == mapFn(i)
  {
    if length == 0 then [] else ArrayFrom(length - 1, mapFn) + [mapFn(length - 1)]
  }

  function StagePoint(i: nat): Point {
    Point(StartX, StartY - i * PointSpacing)
  }

  function StagePoints(): seq<Point> {
    ArrayFrom(PointCount, StagePoint)
  }

  function StageGeometry(): PathGeometry {
    PathGeometry(
      imageDimensions := Dimensions(300, 300),
      points := StagePoints(),
      pathString := PathString,
      clampBounds := StageBounds,
      stepCalibration := 0.7619,
      pixelsPerMeter := 7.5,
      stepProgress := 5.714,
      allowedDeviation := 25)
  }

  /** getOfflineFallbackData: `now` stands for the ISO timestamp the client
      reads from its clock. */
  function OfflineFallbackData(qrData: string, now: string): (r: NavigationResponse)
    ensures r.success
    ensures r.scannedData.qrCode == qrData && r.scannedData.timestamp == now
    ensures r.navigation.mapImage == MapImage && r.scannedData.mapImage == MapImage
    ensures !r.metadata.backendUsed && r.metadata.source == FallbackSource
    ensures |r.navigation.stageDestination.svgPath.points| == PointCount
    ensures PointsClamped(r.navigation.stageDestination.svgPath)
  {
    NavigationResponse(
      success := true,
      scannedData := ScannedLocation(
        qrCode := qrData,
        scannedLocation := "auditorium_main_gate",
        area := "Auditorium",
        targetZone := "auditorium",
        isValid := true,
        name := "GD Birla Auditorium Main Entrance",
        timestamp := now,
        mapImage := MapImage),
      navigation := NavigationInfo(
        building := "Auditorium",
        mapImage := MapImage,
        startNode := Point(0, 0),
        stageDestination := Destination(
          id := "aud_stage",
          title := "Auditorium Stage",
          totalSteps := 42,
          distanceMeters := 32.0,
          pathAngle := 171,
          svgPath := StageGeometry())),
      metadata := Metadata(false, FallbackSource, SensorNote))
  }

  /** The record with the two scan-specific fields replaced. */
  function Restamp(r: NavigationResponse, qrData: string, now: string): NavigationResponse {
    r.(scannedData := r.scannedData.(qrCode := qrData, timestamp := now))
  }

  /** Apart from the scanned code and the timestamp, the fallback is the same
      record whatever was scanned and whenever. */
  lemma FallbackOnlyVariesInScan(q1: string, t1: string, q2: string, t2: string)
    ensures OfflineFallbackData(q1, t1) == Restamp(OfflineFallbackData(q2, t2), q1, t1)
    ensures OfflineFallbackData(q1, t1).navigation == OfflineFallbackData(q2, t2).navigation
  {
  }

  /** Point i sits at (150, 280 - 20 i). */
  lemma StagePointsClosedForm()
    ensures |StagePoints()| == 13
    ensures forall i :: 0 <= i < 13 ==> StagePoints()[i] == Point(150, 280 - 20 * i)
  {
  }

  /** Consecutive points are 20 pixels apart vertically and share x. */
  lemma StagePointsEvenlySpaced()
    ensures forall i :: 0 <= i < |StagePoints()| - 1 ==>
      StagePoints()[i + 1].x == StagePoints()[i].x &&
      StagePoints()[i].y - StagePoints()[i + 1].y == PointSpacing
  {
  }

  /** The SVG path descriptor of a straight segment between two points with
      non-negative coordinates. */
  function SvgLine(a: Point, b: Point): string
    requires a.x >= 0 && a.y >= 0 && b.x >= 0 && b.y >= 0
  {
    "M" + Render(a.x) + "," + Render(a.y) + " L" + Render(b.x) + "," + Render(b.y)
  }

  /** The path string draws exactly the segment from the first generated
      point to the last one: (150, 280) to (150, 40). */
  lemma PathStringSpansPoints()
    ensures StagePoints()[0] == Point(150, 280)
    ensures StagePoints()[|StagePoints()| - 1] == Point(150, 40)
    ensures PathString == SvgLine(StagePoints()[0], StagePoints()[|StagePoints()| - 1])
  {
    assert Render(150) == "150";
    assert Render(280) == "280";
    assert Render(40) == "40";
  }
}
