/**
 * The event that carries one frame's detected faces to JavaScript: its pooled
 * construction, its coalescing key and the payload it serializes, in which
 * every face goes through the face-geometry normaliser and then through
 * exactly one facing-dependent rewrite.
 */
module CameraEvents {
  import opened Bridge
  import opened Vision
  import opened FaceDetectorUtils

  /** `Short.MAX_VALUE`, the largest coalescing key. */
  const ShortMax: int := 32767

  /** The camera-view library's code for the front (selfie) camera. */
  const FacingFront: int := 1

  /** Size of the analysed image and the camera it came from. */
  datatype ImageDimensions = ImageDimensions(width: int, height: int, facing: int)

  /**
   * What serializing a frame demands: every landmark type indexes the name
   * table, and a front-camera frame has a non-zero scale to mirror with.
   */
  predicate FacesSerializable(faces: seq<Face>, dimensions: ImageDimensions, scale: real)
  {
    && (forall i :: 0 <= i < |faces| ==> KnownLandmarks(faces[i].landmarks))
    && (dimensions.facing == FacingFront ==> scale != 0.0)
  }

  /** One face as it is sent: serialized, then mirrored (front camera) or with its angles inverted (any other camera). */
  function EventFace(face: Face, dimensions: ImageDimensions, scale: real, shiftX: int, shiftY: int): map<string, Value>
    requires KnownLandmarks(face.landmarks)
    requires dimensions.facing == FacingFront ==> scale != 0.0
  {
    var serialized := SerializedFace(face, scale, shiftX, shiftY);
    if dimensions.facing == FacingFront then
      SerializedFaceRotatable(face, scale, shiftX, shiftY);
      RotatedFace(serialized, dimensions.width, scale)
    else
      SerializedFaceHeader(face, scale, shiftX, shiftY);
      AnglesInverted(serialized)
  }

  /** The `faces` array of the payload: each face of the frame, in order. */
  function EventFaces(faces: seq<Face>, dimensions: ImageDimensions, scale: real, shiftX: int, shiftY: int): seq<Value>
    requires FacesSerializable(faces, dimensions, scale)
    decreases |faces|
  {
    if faces == [] then []
    else
      var last := |faces| - 1;
      EventFaces(faces[..last], dimensions, scale, shiftX, shiftY)
        + [MapV(EventFace(faces[last], dimensions, scale, shiftX, shiftY))]
  }

  /** The payload lists one record per detected face. */
  lemma {:induction false} EventFacesLength(faces: seq<Face>, dimensions: ImageDimensions, scale: real, shiftX: int, shiftY: int)
    requires FacesSerializable(faces, dimensions, scale)
    ensures |EventFaces(faces, dimensions, scale, shiftX, shiftY)| == |faces|
    decreases |faces|
  {
    if faces != [] {
      var prefix := faces[..|faces| - 1];
      assert FacesSerializable(prefix, dimensions, scale);
      EventFacesLength(prefix, dimensions, scale, shiftX, shiftY);
    }
  }

  /** Record `i` of the payload comes from face `i`: every face appears at its own position. */
  lemma {:induction false} EventFacesAt(faces: seq<Face>, dimensions: ImageDimensions, scale: real, shiftX: int, shiftY: int, i: int)
    requires FacesSerializable(faces, dimensions, scale) && 0 <= i < |faces|
    ensures |EventFaces(faces, dimensions, scale, shiftX, shiftY)| == |faces|
    ensures EventFaces(faces, dimensions, scale, shiftX, shiftY)[i] == MapV(EventFace(faces[i], dimensions, scale, shiftX, shiftY))
    decreases |faces|
  {
    EventFacesLength(faces, dimensions, scale, shiftX, shiftY);
    var last := |faces| - 1;
    var prefix := faces[..last];
    assert FacesSerializable(prefix, dimensions, scale);
    EventFacesLength(prefix, dimensions, scale, shiftX, shiftY);
    if i < last {
      EventFacesAt(prefix, dimensions, scale, shiftX, shiftY, i);
      assert prefix[i] == faces[i];
    }
  }

  /**
   * Exactly one rewrite runs, chosen by the facing alone. Front camera: the
   * angles are left as detected and the box is mirrored about the source
   * image and re-anchored. Other cameras: the angles are inverted and the box
   * stays as serialized.
   */
  lemma ExactlyOneTransform(face: Face, dimensions: ImageDimensions, scale: real, shiftX: int, shiftY: int)
    requires KnownLandmarks(face.landmarks)
    requires dimensions.facing == FacingFront ==> scale != 0.0
    ensures var r := EventFace(face, dimensions, scale, shiftX, shiftY);
      && "rollAngle" in r && "yawAngle" in r && "bounds" in r
      && (dimensions.facing == FacingFront ==>
          && r["rollAngle"] == RealV(face.eulerZ)
          && r["yawAngle"] == RealV(face.eulerY)
          && BoundsAre(r["bounds"],
               ValueMirroredHorizontally(Scaled(face.position.x, shiftX, scale), dimensions.width, scale)
                 - ScaledLength(face.width, scale),
               Scaled(face.position.y, shiftY, scale),
               ScaledLength(face.width, scale), ScaledLength(face.height, scale)))
      && (dimensions.facing != FacingFront ==>
          && r["rollAngle"] == RealV(InvertedAngle(face.eulerZ))
          && r["yawAngle"] == RealV(InvertedAngle(face.eulerY))
          && BoundsAre(r["bounds"],
               Scaled(face.position.x, shiftX, scale), Scaled(face.position.y, shiftY, scale),
               ScaledLength(face.width, scale), ScaledLength(face.height, scale)))
  {
    var serialized := SerializedFace(face, scale, shiftX, shiftY);
    SerializedFaceHeader(face, scale, shiftX, shiftY);
    SerializedFaceBounds(face, scale, shiftX, shiftY);
    if dimensions.facing == FacingFront {
      SerializedFaceRotatable(face, scale, shiftX, shiftY);
      RotatedFaceBounds(serialized, dimensions.width, scale);
      RotatedFaceAt(serialized, dimensions.width, scale, "rollAngle");
      RotatedFaceAt(serialized, dimensions.width, scale, "yawAngle");
      FixedKeysAreNotLandmarkNames();
    }
  }

  /** A sample detection: face 7 with roll 10 and yaw 20, no probabilities, its left eye at (50, 60), its box at (10, 20) sized 30 by 40. */
  const SampleFace: Face :=
    Face(7, 20.0, 10.0, -1.0, -1.0, -1.0, [Landmark(4, Point(50.0, 60.0))], Point(10.0, 20.0), 30.0, 40.0)

  /** The sample face serialized with scale 2 and no shift. */
  const SampleRecord: map<string, Value> := map[
    "faceID" := IntV(7),
    "rollAngle" := RealV(10.0),
    "yawAngle" := RealV(20.0),
    "leftEyePosition" := MapV(map["x" := RealV(100.0), "y" := RealV(120.0)]),
    "bounds" := MapV(map[
      "origin" := MapV(map["x" := RealV(20.0), "y" := RealV(40.0)]),
      "size" := MapV(map["width" := RealV(60.0), "height" := RealV(80.0)])])]

  /** Serializing the sample: every coordinate doubled, no probability keys. */
  lemma SampleSerialized()
    ensures SerializedFace(SampleFace, 2.0, 0, 0) == SampleRecord
  {
    assert SampleFace.landmarks[..0] == [];
  }

  /** Back camera: roll 10 becomes 350, yaw 20 becomes 340, the geometry stays. */
  lemma BackCameraExample()
    ensures EventFace(SampleFace, ImageDimensions(480, 640, 0), 2.0, 0, 0)
      == SampleRecord["rollAngle" := RealV(350.0)]["yawAngle" := RealV(340.0)]
  {
    SampleSerialized();
    assert InvertedAngle(10.0) == 350.0;
    assert InvertedAngle(20.0) == 340.0;
  }

  /**
   * Front camera of a 480-pixel-wide image: the angles stay, the eye is
   * mirrored about the scaled width 960 and keeps its name, and the box is
   * mirrored and moved left by its width.
   */
  lemma FrontCameraExample()
    ensures EventFace(SampleFace, ImageDimensions(480, 640, FacingFront), 2.0, 0, 0)
      == SampleRecord
        ["leftEyePosition" := MapV(map["x" := RealV(860.0), "y" := RealV(120.0)])]
        ["bounds" := MapV(map[
          "origin" := MapV(map["x" := RealV(880.0), "y" := RealV(40.0)]),
          "size" := MapV(map["width" := RealV(60.0), "height" := RealV(80.0)])])]
  {
    SampleSerialized();
    SampleRotated();
  }

  /** The serialized sample has every part `rotateFaceX` reads. */
  lemma SampleRotatable()
    ensures RotatableFace(SampleRecord)
  {
    SampleSerialized();
    SerializedFaceRotatable(SampleFace, 2.0, 0, 0);
  }

  /** The sample's box mirrored about 960: origin 20 goes to 940, minus the width 60. */
  lemma SampleRotatedBounds()
    ensures RotatableFace(SampleRecord)
    ensures RotatedFace(SampleRecord, 480, 2.0)["bounds"] == MapV(map[
      "origin" := MapV(map["x" := RealV(880.0), "y" := RealV(40.0)]),
      "size" := MapV(map["width" := RealV(60.0), "height" := RealV(80.0)])])
  {
    SampleRotatable();
    RotatedFaceBounds(SampleRecord, 480, 2.0);
    assert ValueMirroredHorizontally(20.0, 480, 2.0) == 940.0;
    var b := RotatedFace(SampleRecord, 480, 2.0)["bounds"].m;
    assert b["origin"] == MapV(map["x" := RealV(880.0), "y" := RealV(40.0)]);
  }

  /** The sample's eye mirrored about 960: x 100 goes to 860. */
  lemma SampleRotatedEye()
    ensures RotatableFace(SampleRecord)
    ensures RotatedFace(SampleRecord, 480, 2.0)["leftEyePosition"] == MapV(map["x" := RealV(860.0), "y" := RealV(120.0)])
  {
    SampleRotatable();
    assert "leftEyePosition" == LandmarkNames[4];
    RotatedFaceAt(SampleRecord, 480, 2.0, "leftEyePosition");
    var eye := map["x" := RealV(100.0), "y" := RealV(120.0)];
    assert SampleRecord["leftEyePosition"] == MapV(eye);
    assert ValueMirroredHorizontally(100.0, 480, 2.0) == 860.0;
    assert PositionMirroredHorizontally(eye, 480, 2.0) == eye["x" := RealV(860.0)];
    assert eye["x" := RealV(860.0)] == map["x" := RealV(860.0), "y" := RealV(120.0)];
  }

  /** Mirroring the serialized sample for a 480-pixel-wide image at scale 2. */
  lemma SampleRotated()
    ensures RotatableFace(SampleRecord)
    ensures RotatedFace(SampleRecord, 480, 2.0)
      == SampleRecord
        ["leftEyePosition" := MapV(map["x" := RealV(860.0), "y" := RealV(120.0)])]
        ["bounds" := MapV(map[
          "origin" := MapV(map["x" := RealV(880.0), "y" := RealV(40.0)]),
          "size" := MapV(map["width" := RealV(60.0), "height" := RealV(80.0)])])]
  {
    SampleRotatedBounds();
    SampleRotatedEye();
    FixedKeysAreNotLandmarkNames();
    RotatedFaceAt(SampleRecord, 480, 2.0, "faceID");
    RotatedFaceAt(SampleRecord, 480, 2.0, "rollAngle");
    RotatedFaceAt(SampleRecord, 480, 2.0, "yawAngle");
  }

  /**
   * One pass of the `serializeEventData` loop: serializes the face into a
   * bridge map, then rewrites that map in place according to the facing.
   */
  method SerializeFrameFace(face: Face, dimensions: ImageDimensions, scale: real, shiftX: int, shiftY: int)
    returns (entries: map<string, Value>)
    requires KnownLandmarks(face.landmarks)
    requires dimensions.facing == FacingFront ==> scale != 0.0
    ensures entries == EventFace(face, dimensions, scale, shiftX, shiftY)
  {
    var serialized := SerializeFace(face, scale, shiftX, shiftY);
    var serializedFace := new WritableMap(serialized);
    if dimensions.facing == FacingFront {
      SerializedFaceRotatable(face, scale, shiftX, shiftY);
      serializedFace := RotateFaceX(serializedFace, dimensions.width, scale);
    } else {
      SerializedFaceHeader(face, scale, shiftX, shiftY);
      serializedFace := ChangeAnglesDirection(serializedFace);
    }
    entries := serializedFace.entries;
  }

  /** The payload `serializeEventData` builds for a frame. */
  function EventPayload(viewTag: int, faces: seq<Face>, dimensions: ImageDimensions, scale: real, shiftX: int, shiftY: int): map<string, Value>
    requires FacesSerializable(faces, dimensions, scale)
  {
    map[
      "type" := StrV("face"),
      "faces" := ArrayV(EventFaces(faces, dimensions, scale, shiftX, shiftY)),
      "target" := IntV(viewTag)
    ]
  }

  /**
   * A faces-detected event. Instances are pooled and re-initialised, so every
   * field is state that `Init` overwrites.
   */
  class FacesDetectedEvent {
    var viewTag: int
    var faces: seq<Face>
    var dimensions: ImageDimensions
    var scale: real
    var shiftX: int
    var shiftY: int

    /** A blank event, as the pool creates it before `Init`. */
    constructor ()
      ensures viewTag == 0 && faces == [] && dimensions == ImageDimensions(0, 0, 0)
      ensures scale == 0.0 && shiftX == 0 && shiftY == 0
    {
      viewTag := 0;
      faces := [];
      dimensions := ImageDimensions(0, 0, 0);
      scale := 0.0;
      shiftX := 0;
      shiftY := 0;
    }

    /** `init`: every field is overwritten, so nothing of an earlier frame survives reuse. */
    method Init(viewTag: int, faces: seq<Face>, dimensions: ImageDimensions, scale: real, shiftX: int, shiftY: int)
      modifies this
      ensures this.viewTag == viewTag && this.faces == faces && this.dimensions == dimensions
      ensures this.scale == scale && this.shiftX == shiftX && this.shiftY == shiftY
    {
      this.viewTag := viewTag;
      this.faces := faces;
      this.dimensions := dimensions;
      this.scale := scale;
      this.shiftX := shiftX;
      this.shiftY := shiftY;
    }

    /**
     * `obtain`: reuses the event the pool hands back (`pooled`), or makes a
     * new one when the pool is empty, and initialises it for this frame.
     */
    static method Obtain(pooled: FacesDetectedEvent?, viewTag: int, faces: seq<Face>, dimensions: ImageDimensions,
                         scale: real, shiftX: int, shiftY: int) returns (event: FacesDetectedEvent)
      modifies pooled
      ensures pooled != null ==> event == pooled
      ensures pooled == null ==> fresh(event)
      ensures event.viewTag == viewTag && event.faces == faces && event.dimensions == dimensions
      ensures event.scale == scale && event.shiftX == shiftX && event.shiftY == shiftY
    {
      if pooled == null {
        event := new FacesDetectedEvent();
      } else {
        event := pooled;
      }
      event.Init(viewTag, faces, dimensions, scale, shiftX, shiftY);
    }

    /** `getCoalescingKey`: the number of faces, capped at `Short.MAX_VALUE`. */
    function CoalescingKey(): (key: int)
      reads this
      ensures 0 <= key <= ShortMax
      ensures key == if |faces| > ShortMax then ShortMax else |faces|
    {
      if |faces| > ShortMax then ShortMax else |faces|
    }

    /** What the event sends for its frame. */
    predicate Serializable()
      reads this
    {
      FacesSerializable(faces, dimensions, scale)
    }

    /**
     * `serializeEventData`: serializes each face, rewrites it in a bridge map
     * according to the facing, pushes it, then wraps the list with the event
     * type and the target view.
     */
    method SerializeEventData() returns (event: map<string, Value>)
      requires Serializable()
      ensures event == EventPayload(viewTag, faces, dimensions, scale, shiftX, shiftY)
    {
      var facesList: seq<Value> := [];
      for i := 0 to |faces|
        invariant facesList == EventFaces(faces[..i], dimensions, scale, shiftX, shiftY)
      {
        var serializedFace := SerializeFrameFace(faces[i], dimensions, scale, shiftX, shiftY);
        assert faces[..i + 1][..i] == faces[..i];
        facesList := facesList + [MapV(serializedFace)];
      }
      assert faces[..|faces|] == faces;

      event := map[];
      event := event["type" := StrV("face")];
      event := event["faces" := ArrayV(facesList)];
      event := event["target" := IntV(viewTag)];
    }
  }

  /**
   * Two events share a coalescing key exactly when they carry the same number
   * of faces or both carry at least `Short.MAX_VALUE`: a change in the face
   * count below the cap is never coalesced away.
   */
  lemma CoalescingKeySeparatesCounts(a: FacesDetectedEvent, b: FacesDetectedEvent)
    ensures a.CoalescingKey() == b.CoalescingKey()
      <==> |a.faces| == |b.faces| || (|a.faces| >= ShortMax && |b.faces| >= ShortMax)
  {
  }

  /** The payload holds the event type, the target view and one record per face, in order. */
  lemma EventPayloadContents(viewTag: int, faces: seq<Face>, dimensions: ImageDimensions, scale: real, shiftX: int, shiftY: int)
    requires FacesSerializable(faces, dimensions, scale)
    ensures var p := EventPayload(viewTag, faces, dimensions, scale, shiftX, shiftY);
      && p.Keys == {"type", "faces", "target"}
      && p["type"] == StrV("face") && p["target"] == IntV(viewTag)
      && p["faces"].ArrayV? && |p["faces"].a| == |faces|
      && forall i :: 0 <= i < |faces| ==> p["faces"].a[i] == MapV(EventFace(faces[i], dimensions, scale, shiftX, shiftY))
  {
    EventFacesLength(faces, dimensions, scale, shiftX, shiftY);
    forall i | 0 <= i < |faces|
      ensures EventFaces(faces, dimensions, scale, shiftX, shiftY)[i] == MapV(EventFace(faces[i], dimensions, scale, shiftX, shiftY))
    {
      EventFacesAt(faces, dimensions, scale, shiftX, shiftY, i);
    }
  }
}
