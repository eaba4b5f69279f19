/**
 * The face-geometry normaliser: turns a detected face into a bridge record in
 * output coordinates, and the two facing-dependent rewrites applied to that
 * record afterwards (mirroring for the front camera, angle inversion for the
 * back camera).
 */
module FaceDetectorUtils {
  import opened Bridge
  import opened Vision

  /** Record keys of the landmarks, indexed by the detector's landmark type. */
  const LandmarkNames: seq<string> := [
    "bottomMouthPosition", "leftCheekPosition", "leftEarPosition", "leftEarTipPosition",
    "leftEyePosition", "leftMouthPosition", "noseBasePosition", "rightCheekPosition",
    "rightEarPosition", "rightEarTipPosition", "rightEyePosition", "rightMouthPosition"
  ]

  /** The keys a serialized face may carry besides its landmark entries. */
  const FixedKeys: set<string> := {
    "faceID", "rollAngle", "yawAngle", "smilingProbability",
    "leftEyeOpenProbability", "rightEyeOpenProbability", "bounds"
  }

  /** The table has twelve different names, none of them a fixed key. */
  lemma LandmarkNamesDistinct()
    ensures |LandmarkNames| == 12
    ensures forall i, j :: 0 <= i < j < |LandmarkNames| ==> LandmarkNames[i] != LandmarkNames[j]
    ensures forall i :: 0 <= i < |LandmarkNames| ==> LandmarkNames[i] !in FixedKeys
  {
  }

  /** No fixed key is a landmark name. */
  lemma FixedKeysAreNotLandmarkNames()
    ensures forall k :: k in FixedKeys ==> k !in LandmarkNames
  {
    LandmarkNamesDistinct();
  }

  /** No landmark name is a fixed key. */
  lemma LandmarkNameNotFixed(t: int)
    requires 0 <= t < |LandmarkNames|
    ensures LandmarkNames[t] !in FixedKeys
  {
    LandmarkNamesDistinct();
  }

  /** Different landmark types are stored under different names. */
  lemma LandmarkNameInjective(a: int, b: int)
    requires 0 <= a < |LandmarkNames| && 0 <= b < |LandmarkNames| && a != b
    ensures LandmarkNames[a] != LandmarkNames[b]
  {
    LandmarkNamesDistinct();
    if a < b {
      assert LandmarkNames[a] != LandmarkNames[b];
    } else {
      assert LandmarkNames[b] != LandmarkNames[a];
    }
  }

  /** Every landmark type indexes the name table (the lookup would fail otherwise). */
  predicate KnownLandmarks(landmarks: seq<Landmark>)
  {
    forall i :: 0 <= i < |landmarks| ==> 0 <= landmarks[i].kind < |LandmarkNames|
  }

  /** Landmark `i` is the last one of its type in the list. */
  predicate LastOfKind(landmarks: seq<Landmark>, i: int)
  {
    0 <= i < |landmarks| &&
    forall j :: i < j < |landmarks| ==> landmarks[j].kind != landmarks[i].kind
  }

  /** A source-pixel coordinate moved into output space: shifted, then scaled. */
  function Scaled(v: real, shift: int, scale: real): real
  {
    (v - shift as real) * scale
  }

  /** A source-pixel length in output space. */
  function ScaledLength(length: real, scale: real): real
  {
    length * scale
  }

  /** With a non-zero scale the output coordinate determines the source coordinate. */
  lemma ScaledInverse(v: real, shift: int, scale: real)
    requires scale != 0.0
    ensures Scaled(v, shift, scale) / scale + shift as real == v
  {
  }

  /** A record holding a double `x`, the shape the mirroring helpers read. */
  predicate IsPosition(v: Value)
  {
    v.MapV? && HasReal(v.m, "x")
  }

  /** Every landmark name present holds a position record. */
  predicate LandmarksArePositions(face: map<string, Value>)
  {
    forall k :: k in face && k in LandmarkNames ==> IsPosition(face[k])
  }

  /** A landmark position as an `{x, y}` record in output space. */
  function MapFromPoint(point: Point, scale: real, shiftX: int, shiftY: int): map<string, Value>
  {
    map["x" := RealV(Scaled(point.x, shiftX, scale)), "y" := RealV(Scaled(point.y, shiftY, scale))]
  }

  /**
   * The record is a position holding exactly `x` and `y`, and with a non-zero
   * scale the source point can be read back from it.
   */
  lemma MapFromPointInverse(point: Point, scale: real, shiftX: int, shiftY: int)
    requires scale != 0.0
    ensures var r := MapFromPoint(point, scale, shiftX, shiftY);
      && r.Keys == {"x", "y"} && IsPosition(MapV(r)) && r["y"].RealV?
      && r["x"].r / scale + shiftX as real == point.x
      && r["y"].r / scale + shiftY as real == point.y
  {
    ScaledInverse(point.x, shiftX, scale);
    ScaledInverse(point.y, shiftY, scale);
  }

  /** With scale 1 and no shift the record holds the point's own coordinates. */
  lemma MapFromPointUnscaled(point: Point)
    ensures MapFromPoint(point, 1.0, 0, 0) == map["x" := RealV(point.x), "y" := RealV(point.y)]
  {
    assert Scaled(point.x, 0, 1.0) == point.x;
    assert Scaled(point.y, 0, 1.0) == point.y;
  }

  /** The `bounds` record: an origin point and a size. */
  function BoundsRecord(x: real, y: real, width: real, height: real): map<string, Value>
  {
    map[
      "origin" := MapV(map["x" := RealV(x), "y" := RealV(y)]),
      "size" := MapV(map["width" := RealV(width), "height" := RealV(height)])
    ]
  }

  /** `b` is a bounds record with origin `(x, y)` and size `width` by `height`. */
  predicate BoundsAre(b: Value, x: real, y: real, width: real, height: real)
  {
    && b.MapV? && b.m.Keys == {"origin", "size"}
    && b.m["origin"].MapV? && b.m["origin"].m.Keys == {"x", "y"}
    && b.m["origin"].m["x"] == RealV(x) && b.m["origin"].m["y"] == RealV(y)
    && b.m["size"].MapV? && b.m["size"].m.Keys == {"width", "height"}
    && b.m["size"].m["width"] == RealV(width) && b.m["size"].m["height"] == RealV(height)
  }

  /** Identifier, angles and the probabilities the detector computed. */
  function FaceHeader(face: Face): (r: map<string, Value>)
    ensures r.Keys <= FixedKeys
  {
    var m0 := map[
      "faceID" := IntV(face.id),
      "rollAngle" := RealV(face.eulerZ),
      "yawAngle" := RealV(face.eulerY)
    ];
    var m1 := if face.smilingProbability >= 0.0
      then m0["smilingProbability" := RealV(face.smilingProbability)] else m0;
    var m2 := if face.leftEyeOpenProbability >= 0.0
      then m1["leftEyeOpenProbability" := RealV(face.leftEyeOpenProbability)] else m1;
    if face.rightEyeOpenProbability >= 0.0
      then m2["rightEyeOpenProbability" := RealV(face.rightEyeOpenProbability)] else m2
  }

  /**
   * `encoded` after putting each landmark, in list order, under its type's
   * name: every key already there stays, and only landmark names are added.
   */
  function PutLandmarks(encoded: map<string, Value>, landmarks: seq<Landmark>, scale: real, shiftX: int, shiftY: int): map<string, Value>
    requires KnownLandmarks(landmarks)
    decreases |landmarks|
  {
    if landmarks == [] then encoded
    else
      var last := landmarks[|landmarks| - 1];
      PutLandmarks(encoded, landmarks[..|landmarks| - 1], scale, shiftX, shiftY)
        [LandmarkNames[last.kind] := MapV(MapFromPoint(last.position, scale, shiftX, shiftY))]
  }

  /** Putting landmarks keeps every key already there, adds only landmark names, and leaves other keys alone. */
  lemma {:induction false} PutLandmarksKeys(encoded: map<string, Value>, landmarks: seq<Landmark>, scale: real, shiftX: int, shiftY: int)
    requires KnownLandmarks(landmarks)
    ensures var r := PutLandmarks(encoded, landmarks, scale, shiftX, shiftY);
      && encoded.Keys <= r.Keys
      && (forall k :: k in r && k !in encoded ==> k in LandmarkNames)
      && (forall k :: k in encoded && k !in LandmarkNames ==> r[k] == encoded[k])
    decreases |landmarks|
  {
    if landmarks != [] {
      PutLandmarksKeys(encoded, landmarks[..|landmarks| - 1], scale, shiftX, shiftY);
    }
  }

  /** A landmark name ends up present exactly when it was already, or some landmark has that type. */
  lemma {:induction false} LandmarkEntryPresent(encoded: map<string, Value>, landmarks: seq<Landmark>, scale: real, shiftX: int, shiftY: int, t: int)
    requires KnownLandmarks(landmarks) && 0 <= t < |LandmarkNames|
    ensures LandmarkNames[t] in PutLandmarks(encoded, landmarks, scale, shiftX, shiftY)
      <==> LandmarkNames[t] in encoded || exists i :: 0 <= i < |landmarks| && landmarks[i].kind == t
    decreases |landmarks|
  {
    if landmarks != [] {
      var n := |landmarks|;
      var prefix := landmarks[..n - 1];
      var lastKind := landmarks[n - 1].kind;
      var earlier := PutLandmarks(encoded, prefix, scale, shiftX, shiftY);
      assert PutLandmarks(encoded, landmarks, scale, shiftX, shiftY)
        == earlier[LandmarkNames[lastKind] := MapV(MapFromPoint(landmarks[n - 1].position, scale, shiftX, shiftY))];
      if lastKind == t {
        assert landmarks[n - 1].kind == t;
      } else {
        LandmarkEntryPresent(encoded, prefix, scale, shiftX, shiftY, t);
        LandmarkNameInjective(t, lastKind);
        assert (exists i :: 0 <= i < n && landmarks[i].kind == t)
          == (exists i :: 0 <= i < n - 1 && prefix[i].kind == t) by {
          forall i | 0 <= i < n - 1 ensures prefix[i] == landmarks[i] { }
        }
      }
    }
  }

  /** A later landmark of a type overwrites an earlier one: the last of its type is what stays. */
  lemma {:induction false} LandmarkEntryIsLastOfKind(encoded: map<string, Value>, landmarks: seq<Landmark>, scale: real, shiftX: int, shiftY: int, i: int)
    requires KnownLandmarks(landmarks) && LastOfKind(landmarks, i)
    ensures LandmarkNames[landmarks[i].kind] in PutLandmarks(encoded, landmarks, scale, shiftX, shiftY)
    ensures PutLandmarks(encoded, landmarks, scale, shiftX, shiftY)[LandmarkNames[landmarks[i].kind]]
      == MapV(MapFromPoint(landmarks[i].position, scale, shiftX, shiftY))
    decreases |landmarks|
  {
    var n := |landmarks|;
    var prefix := landmarks[..n - 1];
    var earlier := PutLandmarks(encoded, prefix, scale, shiftX, shiftY);
    var lastName := LandmarkNames[landmarks[n - 1].kind];
    assert PutLandmarks(encoded, landmarks, scale, shiftX, shiftY)
      == earlier[lastName := MapV(MapFromPoint(landmarks[n - 1].position, scale, shiftX, shiftY))];
    if i < n - 1 {
      assert prefix[i] == landmarks[i];
      assert LastOfKind(prefix, i);
      LandmarkEntryIsLastOfKind(encoded, prefix, scale, shiftX, shiftY, i);
      LandmarkNameInjective(landmarks[i].kind, landmarks[n - 1].kind);
    }
  }

  /** Every landmark entry that was put is a position record. */
  lemma {:induction false} LandmarkEntriesArePositions(encoded: map<string, Value>, landmarks: seq<Landmark>, scale: real, shiftX: int, shiftY: int)
    requires KnownLandmarks(landmarks)
    requires LandmarksArePositions(encoded)
    ensures LandmarksArePositions(PutLandmarks(encoded, landmarks, scale, shiftX, shiftY))
    decreases |landmarks|
  {
    if landmarks != [] {
      LandmarkEntriesArePositions(encoded, landmarks[..|landmarks| - 1], scale, shiftX, shiftY);
    }
  }

  /**
   * The record `serializeFace` builds: identifier and angles, the computed
   * probabilities, the landmarks under their table names and the bounding
   * box, all coordinates in output space.
   */
  function SerializedFace(face: Face, scale: real, shiftX: int, shiftY: int): (r: map<string, Value>)
    requires KnownLandmarks(face.landmarks)
  {
    PutLandmarks(FaceHeader(face), face.landmarks, scale, shiftX, shiftY)
      ["bounds" := MapV(BoundsRecord(
        Scaled(face.position.x, shiftX, scale), Scaled(face.position.y, shiftY, scale),
        ScaledLength(face.width, scale), ScaledLength(face.height, scale)))]
  }

  /** The fixed keys other than `bounds` come from the header alone: landmarks never overwrite them. */
  lemma SerializedFaceKeepsHeader(face: Face, scale: real, shiftX: int, shiftY: int, k: string)
    requires KnownLandmarks(face.landmarks) && k in FixedKeys && k != "bounds"
    ensures k in SerializedFace(face, scale, shiftX, shiftY) <==> k in FaceHeader(face)
    ensures k in FaceHeader(face) ==> SerializedFace(face, scale, shiftX, shiftY)[k] == FaceHeader(face)[k]
  {
    FixedKeysAreNotLandmarkNames();
    PutLandmarksKeys(FaceHeader(face), face.landmarks, scale, shiftX, shiftY);
  }

  /** Identifier and both angles are always present, copied without any check. */
  lemma SerializedFaceHeader(face: Face, scale: real, shiftX: int, shiftY: int)
    requires KnownLandmarks(face.landmarks)
    ensures var r := SerializedFace(face, scale, shiftX, shiftY);
      && "faceID" in r && r["faceID"] == IntV(face.id)
      && "rollAngle" in r && r["rollAngle"] == RealV(face.eulerZ)
      && "yawAngle" in r && r["yawAngle"] == RealV(face.eulerY)
  {
    SerializedFaceKeepsHeader(face, scale, shiftX, shiftY, "faceID");
    SerializedFaceKeepsHeader(face, scale, shiftX, shiftY, "rollAngle");
    SerializedFaceKeepsHeader(face, scale, shiftX, shiftY, "yawAngle");
  }

  /** A probability is present exactly when the detector computed it (it is not negative), and then unchanged. */
  lemma SerializedFaceProbabilities(face: Face, scale: real, shiftX: int, shiftY: int)
    requires KnownLandmarks(face.landmarks)
    ensures var r := SerializedFace(face, scale, shiftX, shiftY);
      && ("smilingProbability" in r) == (face.smilingProbability >= 0.0)
      && (face.smilingProbability >= 0.0 ==> r["smilingProbability"] == RealV(face.smilingProbability))
      && ("leftEyeOpenProbability" in r) == (face.leftEyeOpenProbability >= 0.0)
      && (face.leftEyeOpenProbability >= 0.0 ==> r["leftEyeOpenProbability"] == RealV(face.leftEyeOpenProbability))
      && ("rightEyeOpenProbability" in r) == (face.rightEyeOpenProbability >= 0.0)
      && (face.rightEyeOpenProbability >= 0.0 ==> r["rightEyeOpenProbability"] == RealV(face.rightEyeOpenProbability))
  {
    SerializedFaceKeepsHeader(face, scale, shiftX, shiftY, "smilingProbability");
    SerializedFaceKeepsHeader(face, scale, shiftX, shiftY, "leftEyeOpenProbability");
    SerializedFaceKeepsHeader(face, scale, shiftX, shiftY, "rightEyeOpenProbability");
  }

  /** The bounding box: origin shifted and scaled, size scaled. */
  lemma SerializedFaceBounds(face: Face, scale: real, shiftX: int, shiftY: int)
    requires KnownLandmarks(face.landmarks)
    ensures "bounds" in SerializedFace(face, scale, shiftX, shiftY)
    ensures BoundsAre(SerializedFace(face, scale, shiftX, shiftY)["bounds"],
      Scaled(face.position.x, shiftX, scale), Scaled(face.position.y, shiftY, scale),
      ScaledLength(face.width, scale), ScaledLength(face.height, scale))
  {
  }

  /** A landmark name is present exactly when some landmark of that type was detected. */
  lemma SerializedFaceLandmarkKeys(face: Face, scale: real, shiftX: int, shiftY: int, t: int)
    requires KnownLandmarks(face.landmarks) && 0 <= t < |LandmarkNames|
    ensures LandmarkNames[t] in SerializedFace(face, scale, shiftX, shiftY)
      <==> exists i :: 0 <= i < |face.landmarks| && face.landmarks[i].kind == t
  {
    LandmarkNameNotFixed(t);
    LandmarkEntryPresent(FaceHeader(face), face.landmarks, scale, shiftX, shiftY, t);
  }

  /** No key other than the fixed ones and the landmark names is ever emitted. */
  lemma SerializedFaceKeys(face: Face, scale: real, shiftX: int, shiftY: int)
    requires KnownLandmarks(face.landmarks)
    ensures forall k :: k in SerializedFace(face, scale, shiftX, shiftY) ==> k in FixedKeys || k in LandmarkNames
  {
    PutLandmarksKeys(FaceHeader(face), face.landmarks, scale, shiftX, shiftY);
  }

  /** The landmark stored under a type's name is the last landmark of that type, scaled and shifted. */
  lemma SerializedLandmark(face: Face, scale: real, shiftX: int, shiftY: int, i: int)
    requires KnownLandmarks(face.landmarks) && LastOfKind(face.landmarks, i)
    ensures LandmarkNames[face.landmarks[i].kind] in SerializedFace(face, scale, shiftX, shiftY)
    ensures SerializedFace(face, scale, shiftX, shiftY)[LandmarkNames[face.landmarks[i].kind]]
      == MapV(MapFromPoint(face.landmarks[i].position, scale, shiftX, shiftY))
  {
    LandmarkEntryIsLastOfKind(FaceHeader(face), face.landmarks, scale, shiftX, shiftY, i);
  }

  /**
   * `serializeFace(face, scale, shiftX, shiftY)`: puts identifier, angles and
   * computed probabilities, then each landmark in list order, then the bounds.
   */
  method SerializeFace(face: Face, scale: real, shiftX: int, shiftY: int) returns (encoded: map<string, Value>)
    requires KnownLandmarks(face.landmarks)
    ensures encoded == SerializedFace(face, scale, shiftX, shiftY)
  {
    encoded := map[];
    encoded := encoded["faceID" := IntV(face.id)];
    encoded := encoded["rollAngle" := RealV(face.eulerZ)];
    encoded := encoded["yawAngle" := RealV(face.eulerY)];
    if face.smilingProbability >= 0.0 {
      encoded := encoded["smilingProbability" := RealV(face.smilingProbability)];
    }
    if face.leftEyeOpenProbability >= 0.0 {
      encoded := encoded["leftEyeOpenProbability" := RealV(face.leftEyeOpenProbability)];
    }
    if face.rightEyeOpenProbability >= 0.0 {
      encoded := encoded["rightEyeOpenProbability" := RealV(face.rightEyeOpenProbability)];
    }
    ghost var header := encoded;
    assert header == FaceHeader(face);

    var i := 0;
    while i < |face.landmarks|
      invariant 0 <= i <= |face.landmarks|
      invariant encoded == PutLandmarks(header, face.landmarks[..i], scale, shiftX, shiftY)
    {
      var landmark := face.landmarks[i];
      assert face.landmarks[..i + 1][..i] == face.landmarks[..i];
      encoded := encoded[LandmarkNames[landmark.kind] := MapV(MapFromPoint(landmark.position, scale, shiftX, shiftY))];
      i := i + 1;
    }
    assert face.landmarks[..i] == face.landmarks;

    var bounds := BoundsRecord(
      Scaled(face.position.x, shiftX, scale), Scaled(face.position.y, shiftY, scale),
      ScaledLength(face.width, scale), ScaledLength(face.height, scale));
    encoded := encoded["bounds" := MapV(bounds)];
  }

  /** `serializeFace(face)`: the record in raw source-image coordinates (scale 1, no shift). */
  method SerializeFaceUnscaled(face: Face) returns (encoded: map<string, Value>)
    requires KnownLandmarks(face.landmarks)
    ensures encoded == SerializedFace(face, 1.0, 0, 0)
    ensures "bounds" in encoded
    ensures BoundsAre(encoded["bounds"], face.position.x, face.position.y, face.width, face.height)
    ensures forall i :: LastOfKind(face.landmarks, i) ==>
      LandmarkNames[face.landmarks[i].kind] in encoded &&
      encoded[LandmarkNames[face.landmarks[i].kind]]
        == MapV(map["x" := RealV(face.landmarks[i].position.x), "y" := RealV(face.landmarks[i].position.y)])
  {
    encoded := SerializeFace(face, 1.0, 0, 0);
    SerializedFaceBounds(face, 1.0, 0, 0);
    forall i | LastOfKind(face.landmarks, i)
      ensures LandmarkNames[face.landmarks[i].kind] in encoded
      ensures encoded[LandmarkNames[face.landmarks[i].kind]]
        == MapV(map["x" := RealV(face.landmarks[i].position.x), "y" := RealV(face.landmarks[i].position.y)])
    {
      SerializedLandmark(face, 1.0, 0, 0, i);
    }
  }

  // Front camera: mirroring about the source image's vertical midline.

  /** `valueMirroredHorizontally`: back to source pixels, reflect about the width, rescale. */
  function ValueMirroredHorizontally(elementX: real, containerWidth: int, scale: real): (r: real)
    requires scale != 0.0
    ensures r == ScaledLength(containerWidth as real, scale) - elementX
  {
    var originalX := elementX / scale;
    var mirroredX := containerWidth as real - originalX;
    mirroredX * scale
  }

  /** Mirroring a coordinate twice gives it back. */
  lemma ValueMirrorInvolution(elementX: real, containerWidth: int, scale: real)
    requires scale != 0.0
    ensures ValueMirroredHorizontally(ValueMirroredHorizontally(elementX, containerWidth, scale), containerWidth, scale) == elementX
  {
  }

  /** `positionTranslatedHorizontally`: a copy of the record with only `x` moved by `translateX`. */
  function PositionTranslatedHorizontally(position: map<string, Value>, translateX: real): map<string, Value>
    requires HasReal(position, "x")
  {
    position["x" := RealV(position["x"].r + translateX)]
  }

  /** Translation copies the record and changes only `x`, by `translateX`. */
  lemma PositionTranslatedContents(position: map<string, Value>, translateX: real)
    requires HasReal(position, "x")
    ensures var r := PositionTranslatedHorizontally(position, translateX);
      && r.Keys == position.Keys
      && r["x"] == RealV(position["x"].r + translateX)
      && forall k :: k in position && k != "x" ==> r[k] == position[k]
  {
  }

  /** Translating back by the opposite amount gives the record back. */
  lemma PositionTranslateInverse(position: map<string, Value>, translateX: real)
    requires HasReal(position, "x")
    ensures HasReal(PositionTranslatedHorizontally(position, translateX), "x")
    ensures PositionTranslatedHorizontally(PositionTranslatedHorizontally(position, translateX), -translateX) == position
  {
    var back := PositionTranslatedHorizontally(PositionTranslatedHorizontally(position, translateX), -translateX);
    assert back["x"] == position["x"];
  }

  /** `positionMirroredHorizontally`: a copy of the record with only `x` mirrored. */
  function PositionMirroredHorizontally(position: map<string, Value>, containerWidth: int, scale: real): map<string, Value>
    requires HasReal(position, "x") && scale != 0.0
  {
    position["x" := RealV(ValueMirroredHorizontally(position["x"].r, containerWidth, scale))]
  }

  /** Mirroring copies the record and changes only `x`, to its reflection `W * s - x`. */
  lemma PositionMirroredContents(position: map<string, Value>, containerWidth: int, scale: real)
    requires HasReal(position, "x") && scale != 0.0
    ensures var r := PositionMirroredHorizontally(position, containerWidth, scale);
      && r.Keys == position.Keys
      && r["x"] == RealV(ScaledLength(containerWidth as real, scale) - position["x"].r)
      && forall k :: k in position && k != "x" ==> r[k] == position[k]
  {
  }

  /** The shape `rotateFaceX` reads: bounds with an origin `x` and a size `width`, and position records under landmark names. */
  predicate RotatableFace(face: map<string, Value>)
  {
    && HasMap(face, "bounds")
    && HasMap(face["bounds"].m, "origin") && HasReal(face["bounds"].m["origin"].m, "x")
    && HasMap(face["bounds"].m, "size") && HasReal(face["bounds"].m["size"].m, "width")
    && LandmarksArePositions(face)
  }

  /** The new bounds: origin mirrored, then moved left by the box width; everything else copied. */
  function RotatedBounds(bounds: map<string, Value>, sourceWidth: int, scale: real): map<string, Value>
    requires HasMap(bounds, "origin") && HasReal(bounds["origin"].m, "x")
    requires HasMap(bounds, "size") && HasReal(bounds["size"].m, "width")
    requires scale != 0.0
  {
    var mirroredOrigin := PositionMirroredHorizontally(bounds["origin"].m, sourceWidth, scale);
    var translateX := -bounds["size"].m["width"].r;
    bounds["origin" := MapV(PositionTranslatedHorizontally(mirroredOrigin, translateX))]
  }

  /**
   * `face` after the first `count` names of the table have been visited: each
   * one present is replaced by its mirrored position. The table names are
   * distinct, so each entry is still the original one when its name comes up.
   */
  function MirrorLandmarks(face: map<string, Value>, count: nat, sourceWidth: int, scale: real): (r: map<string, Value>)
    requires count <= |LandmarkNames| && LandmarksArePositions(face) && scale != 0.0
    ensures r.Keys == face.Keys
  {
    if count == 0 then face
    else
      var visited := MirrorLandmarks(face, count - 1, sourceWidth, scale);
      var landmarkName := LandmarkNames[count - 1];
      if landmarkName in face
      then visited[landmarkName := MapV(PositionMirroredHorizontally(face[landmarkName].m, sourceWidth, scale))]
      else visited
  }

  /** A visited landmark is mirrored once, an unvisited one is untouched. */
  lemma {:induction false} MirrorLandmarksAt(face: map<string, Value>, count: nat, sourceWidth: int, scale: real, i: int)
    requires count <= |LandmarkNames| && LandmarksArePositions(face) && scale != 0.0
    requires 0 <= i < |LandmarkNames| && LandmarkNames[i] in face
    ensures MirrorLandmarks(face, count, sourceWidth, scale)[LandmarkNames[i]]
      == if i < count then MapV(PositionMirroredHorizontally(face[LandmarkNames[i]].m, sourceWidth, scale))
         else face[LandmarkNames[i]]
  {
    if count > 0 {
      MirrorLandmarksAt(face, count - 1, sourceWidth, scale, i);
      if i != count - 1 {
        LandmarkNameInjective(i, count - 1);
      }
    }
  }

  /** Keys outside the table are never touched. */
  lemma {:induction false} MirrorLandmarksOthers(face: map<string, Value>, count: nat, sourceWidth: int, scale: real, k: string)
    requires count <= |LandmarkNames| && LandmarksArePositions(face) && scale != 0.0
    requires k in face && k !in LandmarkNames
    ensures MirrorLandmarks(face, count, sourceWidth, scale)[k] == face[k]
  {
    if count > 0 {
      MirrorLandmarksOthers(face, count - 1, sourceWidth, scale, k);
      assert LandmarkNames[count - 1] in LandmarkNames;
    }
  }

  /** The record after `rotateFaceX`; `RotatedFaceAt` and `RotatedFaceBounds` state what it holds. */
  function RotatedFace(face: map<string, Value>, sourceWidth: int, scale: real): (r: map<string, Value>)
    requires RotatableFace(face) && scale != 0.0
    ensures r.Keys == face.Keys
  {
    MirrorLandmarks(face, |LandmarkNames|, sourceWidth, scale)
      ["bounds" := MapV(RotatedBounds(face["bounds"].m, sourceWidth, scale))]
  }

  /** Outside the box, a rotated face has every landmark point mirrored and every other key kept. */
  lemma RotatedFaceAt(face: map<string, Value>, sourceWidth: int, scale: real, k: string)
    requires RotatableFace(face) && scale != 0.0 && k in face && k != "bounds"
    ensures RotatedFace(face, sourceWidth, scale)[k]
      == if k in LandmarkNames then MapV(PositionMirroredHorizontally(face[k].m, sourceWidth, scale)) else face[k]
  {
    if k in LandmarkNames {
      var i :| 0 <= i < |LandmarkNames| && LandmarkNames[i] == k;
      MirrorLandmarksAt(face, |LandmarkNames|, sourceWidth, scale, i);
    } else {
      MirrorLandmarksOthers(face, |LandmarkNames|, sourceWidth, scale, k);
    }
  }

  /** The rotated box: origin `x` mirrored and moved left by the box width, everything else in it kept. */
  lemma RotatedFaceBounds(face: map<string, Value>, sourceWidth: int, scale: real)
    requires RotatableFace(face) && scale != 0.0
    ensures var b, b' := face["bounds"].m, RotatedFace(face, sourceWidth, scale)["bounds"];
      && b'.MapV? && b'.m.Keys == b.Keys
      && b'.m["size"] == b["size"]
      && b'.m["origin"].MapV? && b'.m["origin"].m.Keys == b["origin"].m.Keys
      && b'.m["origin"].m["x"] == RealV(ValueMirroredHorizontally(b["origin"].m["x"].r, sourceWidth, scale) - b["size"].m["width"].r)
      && (forall k :: k in b["origin"].m && k != "x" ==> b'.m["origin"].m[k] == b["origin"].m[k])
      && (forall k :: k in b && k != "origin" ==> b'.m[k] == b[k])
  {
  }

  /** A rotated face can be rotated again. */
  lemma RotatedFaceRotatable(face: map<string, Value>, sourceWidth: int, scale: real)
    requires RotatableFace(face) && scale != 0.0
    ensures RotatableFace(RotatedFace(face, sourceWidth, scale))
  {
    var r := RotatedFace(face, sourceWidth, scale);
    RotatedFaceBounds(face, sourceWidth, scale);
    FixedKeysAreNotLandmarkNames();
    forall k | k in r && k in LandmarkNames ensures IsPosition(r[k]) {
      RotatedFaceAt(face, sourceWidth, scale, k);
    }
  }

  /** Rotating a face twice gives the original record back: the box correction cancels out. */
  lemma RotateFaceXInvolution(face: map<string, Value>, sourceWidth: int, scale: real)
    requires RotatableFace(face) && scale != 0.0
    ensures RotatableFace(RotatedFace(face, sourceWidth, scale))
    ensures RotatedFace(RotatedFace(face, sourceWidth, scale), sourceWidth, scale) == face
  {
    RotatedFaceRotatable(face, sourceWidth, scale);
    var once := RotatedFace(face, sourceWidth, scale);
    var twice := RotatedFace(once, sourceWidth, scale);
    forall k | k in face ensures twice[k] == face[k] {
      if k == "bounds" {
        RotatedFaceBounds(face, sourceWidth, scale);
        RotatedFaceBounds(once, sourceWidth, scale);
        var b, b2 := face[k].m, twice[k].m;
        var o, o2 := b["origin"].m, b2["origin"].m;
        assert o2["x"] == o["x"];
        assert o2 == o;
        assert b2 == b;
      } else {
        RotatedFaceAt(face, sourceWidth, scale, k);
        RotatedFaceAt(once, sourceWidth, scale, k);
        if k in LandmarkNames {
          PositionMirrorInvolution(face[k].m, sourceWidth, scale);
        }
      }
    }
  }

  /** Mirroring a position record twice gives it back. */
  lemma PositionMirrorInvolution(position: map<string, Value>, containerWidth: int, scale: real)
    requires HasReal(position, "x") && scale != 0.0
    ensures PositionMirroredHorizontally(PositionMirroredHorizontally(position, containerWidth, scale), containerWidth, scale) == position
  {
    var twice := PositionMirroredHorizontally(PositionMirroredHorizontally(position, containerWidth, scale), containerWidth, scale);
    assert twice["x"] == position["x"];
  }

  /** A serialized face has every part `rotateFaceX` reads. */
  lemma SerializedFaceRotatable(face: Face, scale: real, shiftX: int, shiftY: int)
    requires KnownLandmarks(face.landmarks)
    ensures RotatableFace(SerializedFace(face, scale, shiftX, shiftY))
  {
    FixedKeysAreNotLandmarkNames();
    LandmarkEntriesArePositions(FaceHeader(face), face.landmarks, scale, shiftX, shiftY);
  }

  /**
   * `rotateFaceX`: computes the new bounds, mirrors every landmark present in
   * `face` itself, then stores the new bounds in `face`.
   */
  method RotateFaceX(face: WritableMap, sourceWidth: int, scale: real) returns (rotated: WritableMap)
    requires RotatableFace(face.entries) && scale != 0.0
    modifies face
    ensures rotated == face
    ensures face.entries == RotatedFace(old(face.entries), sourceWidth, scale)
  {
    var faceBounds := face.entries["bounds"].m;
    var oldOrigin := faceBounds["origin"].m;
    var mirroredOrigin := PositionMirroredHorizontally(oldOrigin, sourceWidth, scale);
    var translateX := -faceBounds["size"].m["width"].r;
    var translatedMirroredOrigin := PositionTranslatedHorizontally(mirroredOrigin, translateX);
    var newBounds := faceBounds["origin" := MapV(translatedMirroredOrigin)];

    for j := 0 to |LandmarkNames|
      invariant face.entries == MirrorLandmarks(old(face.entries), j, sourceWidth, scale)
    {
      var landmarkName := LandmarkNames[j];
      if landmarkName in face.entries {
        MirrorLandmarksAt(old(face.entries), j, sourceWidth, scale, j);
        var mirroredPosition := PositionMirroredHorizontally(face.entries[landmarkName].m, sourceWidth, scale);
        face.entries := face.entries[landmarkName := MapV(mirroredPosition)];
      }
    }

    face.entries := face.entries["bounds" := MapV(newBounds)];
    rotated := face;
  }

  // Back camera: the angles change direction.

  /** `q` rounded toward zero, as Java's double remainder divides. */
  function Truncated(q: real): int
  {
    if q >= 0.0 then q.Floor else -((-q).Floor)
  }

  /** Truncation stays on the zero side of `q`, less than one away. */
  lemma TruncatedBounds(q: real)
    ensures q >= 0.0 ==> 0.0 <= q - Truncated(q) as real < 1.0
    ensures q <= 0.0 ==> -1.0 < q - Truncated(q) as real <= 0.0
  {
  }

  /** Java's `x % 360` on doubles: the remainder of truncating division, with the sign of `x`. */
  function Remainder360(x: real): (r: real)
    ensures x >= 0.0 ==> 0.0 <= r < 360.0
    ensures x <= 0.0 ==> -360.0 < r <= 0.0
    ensures ((x - r) / 360.0).Floor as real == (x - r) / 360.0
  {
    var t := Truncated(x / 360.0);
    TruncatedBounds(x / 360.0);
    assert (x - (x - 360.0 * t as real)) / 360.0 == t as real;
    x - 360.0 * t as real
  }

  /** One angle as `changeAnglesDirection` rewrites it: `(-a + 360) % 360`. */
  function InvertedAngle(a: real): (r: real)
    ensures a <= 360.0 ==> 0.0 <= r < 360.0
    ensures 0.0 < a < 360.0 ==> r == 360.0 - a
    ensures -360.0 < a <= 0.0 ==> r == -a
  {
    Remainder360(-a + 360.0)
  }

  /** On [0, 360) inverting an angle twice gives it back. */
  lemma InvertedAngleInvolution(a: real)
    requires 0.0 <= a < 360.0
    ensures InvertedAngle(InvertedAngle(a)) == a
  {
  }

  /** The record after `changeAnglesDirection`: roll and yaw inverted, nothing else touched. */
  function AnglesInverted(face: map<string, Value>): map<string, Value>
    requires HasReal(face, "rollAngle") && HasReal(face, "yawAngle")
  {
    face["rollAngle" := RealV(InvertedAngle(face["rollAngle"].r))]
        ["yawAngle" := RealV(InvertedAngle(face["yawAngle"].r))]
  }

  /**
   * After the inversion both angles are still doubles, in [0, 360) whenever
   * they were at most 360 before, and every other key is untouched.
   */
  lemma AnglesInvertedContents(face: map<string, Value>)
    requires HasReal(face, "rollAngle") && HasReal(face, "yawAngle")
    ensures var r := AnglesInverted(face);
      && r.Keys == face.Keys
      && HasReal(r, "rollAngle") && HasReal(r, "yawAngle")
      && (face["rollAngle"].r <= 360.0 ==> 0.0 <= r["rollAngle"].r < 360.0)
      && (face["yawAngle"].r <= 360.0 ==> 0.0 <= r["yawAngle"].r < 360.0)
      && (forall k :: k in face && k != "rollAngle" && k != "yawAngle" ==> r[k] == face[k])
  {
    var r := AnglesInverted(face);
    assert r["rollAngle"] == RealV(InvertedAngle(face["rollAngle"].r));
  }

  /** With both angles in [0, 360), inverting twice gives the original record back. */
  lemma AnglesInvertedInvolution(face: map<string, Value>)
    requires HasReal(face, "rollAngle") && HasReal(face, "yawAngle")
    requires 0.0 <= face["rollAngle"].r < 360.0 && 0.0 <= face["yawAngle"].r < 360.0
    ensures AnglesInverted(AnglesInverted(face)) == face
  {
    InvertedAngleInvolution(face["rollAngle"].r);
    InvertedAngleInvolution(face["yawAngle"].r);
    var twice := AnglesInverted(AnglesInverted(face));
    assert twice["rollAngle"] == face["rollAngle"];
    assert twice["yawAngle"] == face["yawAngle"];
  }

  /** `changeAnglesDirection`: rewrites roll and yaw in `face` itself. */
  method ChangeAnglesDirection(face: WritableMap) returns (changed: WritableMap)
    requires HasReal(face.entries, "rollAngle") && HasReal(face.entries, "yawAngle")
    modifies face
    ensures changed == face
    ensures face.entries == AnglesInverted(old(face.entries))
  {
    face.entries := face.entries["rollAngle" := RealV(Remainder360(-face.entries["rollAngle"].r + 360.0))];
    face.entries := face.entries["yawAngle" := RealV(Remainder360(-face.entries["yawAngle"].r + 360.0))];
    changed := face;
  }
}
