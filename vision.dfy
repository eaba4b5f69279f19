/**
 * The records the face detector hands over. The detector itself is external;
 * only the fields the normaliser reads are kept.
 */
module Vision {

  /** A point in source-image pixels (a `PointF`, idealised as reals). */
  datatype Point = Point(x: real, y: real)

  /** A facial landmark: the detector's numeric type and its position. */
  datatype Landmark = Landmark(kind: int, position: Point)

  /**
   * A detected face. `eulerZ` is the roll and `eulerY` the yaw, in degrees;
   * a probability below zero means the detector did not compute it.
   */
  datatype Face = Face(
    id: int,
    eulerY: real,
    eulerZ: real,
    smilingProbability: real,
    leftEyeOpenProbability: real,
    rightEyeOpenProbability: real,
    landmarks: seq<Landmark>,
    position: Point,
    width: real,
    height: real)
}
