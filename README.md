# Face-geometry normaliser of react-native-camera (Android), in Dafny

This project models how the Android side of react-native-camera turns the
faces found by the Mobile Vision detector into the `onFacesDetected` event
payload, and proves properties of that model.

Two source files are covered.

- `FaceDetectorUtils.java`:
  - `serializeFace` builds a bridge record from a detected face:
    - identifier and angles;
    - each probability the detector computed;
    - the landmarks under the names of a fixed 12-entry table;
    - a bounding box.
    Every coordinate is shifted and scaled into output space.
  - `rotateFaceX` (front camera) mirrors the record in place about the source
    image width. It also moves the box origin left by the box width.
  - `changeAnglesDirection` (back camera) rewrites roll and yaw in place as
    `(-a + 360) % 360`.
- `FacesDetectedEvent.java`:
  - the pooled event object and its `init`;
  - the coalescing key, which caps the face count at `Short.MAX_VALUE`;
  - `serializeEventData`, which serializes every face, applies exactly one of
    the two rewrites depending on the facing, and wraps the list as
    `{type: "face", faces, target}`.

Modules:

- `Bridge` (`bridge.dfy`): bridge values.
  - A `Value` datatype (int, double, string, nested map, array).
  - `WritableMap`, a class whose `entries` field the in-place operations
    update.
- `Vision` (`vision.dfy`): the detector's face and landmark records, with
  only the fields that are read.
- `FaceDetectorUtils` (`face_detector_utils.dfy`): the normaliser.
  - The source's step-by-step code is kept as methods:
    - `SerializeFace` with its landmark loop;
    - `RotateFaceX` with its loop over the name table;
    - `ChangeAnglesDirection`.
  - Each method is proved equal to a specification function:
    `SerializedFace`, `RotatedFace` or `AnglesInverted`.
  - Lemmas about those functions state what the source promises.
- `CameraEvents` (`faces_detected_event.dfy`): the event.
  - A class `FacesDetectedEvent` with the fields `init` overwrites.
  - The loop `SerializeEventData`, proved equal to the payload function
    `EventPayload`. The body of one pass is the method `SerializeFrameFace`.
  - Two worked frames: the same face through the back and the front camera.

Java's `%` on doubles is a truncated remainder: the result has the sign of the
dividend. It is modelled as `Remainder360`. So for an angle above 360,
`changeAnglesDirection` yields a negative angle. `InvertedAngle` states the
range `[0, 360)` only for angles up to 360.

Applying `rotateFaceX` twice gives back the record it started from,
`RotateFaceXInvolution`:

- the mirror `x -> W*s - x` is its own inverse;
- the origin becomes `W*s - x - w`, and rotating again gives
  `W*s - (W*s - x - w) - w = x`;
- the box size never changes.

Callers still apply it once per face. The model proves the round trip but does
not rely on it.

## Model

| member | source | states |
|---|---|---|
| FaceDetectorUtils.LandmarkNamesDistinct | android/src/main/java/org/reactnative/facedetector/FaceDetectorUtils.java:14-18 | the name table has twelve pairwise different entries, none of them one of the fixed record keys |
| FaceDetectorUtils.FixedKeysAreNotLandmarkNames | android/src/main/java/org/reactnative/facedetector/FaceDetectorUtils.java:14-18 | no fixed key (`faceID`, angles, probabilities, `bounds`) can be overwritten by a landmark |
| FaceDetectorUtils.LandmarkNameNotFixed | android/src/main/java/org/reactnative/facedetector/FaceDetectorUtils.java:14-18 | no landmark name is a fixed key |
| FaceDetectorUtils.LandmarkNameInjective | android/src/main/java/org/reactnative/facedetector/FaceDetectorUtils.java:14-18 | different landmark types are stored under different names |
| FaceDetectorUtils.ScaledInverse | android/src/main/java/org/reactnative/facedetector/FaceDetectorUtils.java:94-98 | with a non-zero scale, `(v - shift) * scale` determines the source coordinate `v` |
| FaceDetectorUtils.MapFromPointInverse | android/src/main/java/org/reactnative/facedetector/FaceDetectorUtils.java:94-99 | `mapFromPoint` yields exactly the keys `x` and `y`, and the point can be read back from them when the scale is non-zero |
| FaceDetectorUtils.MapFromPointUnscaled | android/src/main/java/org/reactnative/facedetector/FaceDetectorUtils.java:94-99 | with scale 1 and no shift the record holds the raw point |
| FaceDetectorUtils.FaceHeader | android/src/main/java/org/reactnative/facedetector/FaceDetectorUtils.java:27-39 | the header puts only fixed keys |
| FaceDetectorUtils.PutLandmarksKeys | android/src/main/java/org/reactnative/facedetector/FaceDetectorUtils.java:41-43 | the landmark loop keeps every key already present, adds only table names, and leaves every non-landmark key unchanged |
| FaceDetectorUtils.LandmarkEntryPresent | android/src/main/java/org/reactnative/facedetector/FaceDetectorUtils.java:41-43 | a name is present after the loop iff it was before or some landmark has that type |
| FaceDetectorUtils.LandmarkEntryIsLastOfKind | android/src/main/java/org/reactnative/facedetector/FaceDetectorUtils.java:41-43 | a later landmark of a type overwrites an earlier one: the entry is the last landmark of its type, scaled and shifted |
| FaceDetectorUtils.LandmarkEntriesArePositions | android/src/main/java/org/reactnative/facedetector/FaceDetectorUtils.java:41-43 | every landmark entry is a record holding a double `x` |
| FaceDetectorUtils.SerializedFaceKeepsHeader | android/src/main/java/org/reactnative/facedetector/FaceDetectorUtils.java:27-43 | in the result, a fixed key other than `bounds` is present iff the header put it, with the header's value |
| FaceDetectorUtils.SerializedFaceHeader | android/src/main/java/org/reactnative/facedetector/FaceDetectorUtils.java:27-29 | `faceID`, `rollAngle` and `yawAngle` are always present and equal the id, the Z angle and the Y angle, unchecked |
| FaceDetectorUtils.SerializedFaceProbabilities | android/src/main/java/org/reactnative/facedetector/FaceDetectorUtils.java:31-39 | each probability key is present iff its value is at least 0, and then holds that value |
| FaceDetectorUtils.SerializedFaceBounds | android/src/main/java/org/reactnative/facedetector/FaceDetectorUtils.java:45-57 | the bounds hold origin `((px - shiftX)*s, (py - shiftY)*s)` and size `(w*s, h*s)`, nothing else |
| FaceDetectorUtils.SerializedFaceLandmarkKeys | android/src/main/java/org/reactnative/facedetector/FaceDetectorUtils.java:41-43 | the name of type `t` is present iff some detected landmark has type `t` |
| FaceDetectorUtils.SerializedFaceKeys | android/src/main/java/org/reactnative/facedetector/FaceDetectorUtils.java:24-60 | every emitted key is a fixed key or a landmark name |
| FaceDetectorUtils.SerializedLandmark | android/src/main/java/org/reactnative/facedetector/FaceDetectorUtils.java:41-43 | the entry under a type's name is `mapFromPoint` of the last landmark of that type |
| FaceDetectorUtils.SerializeFace | android/src/main/java/org/reactnative/facedetector/FaceDetectorUtils.java:24-60 | the successive puts and the landmark loop build exactly `SerializedFace` |
| FaceDetectorUtils.SerializeFaceUnscaled | android/src/main/java/org/reactnative/facedetector/FaceDetectorUtils.java:20-22 | the one-argument overload is the scale 1, no shift case: raw bounds and raw landmark points |
| FaceDetectorUtils.ValueMirroredHorizontally | android/src/main/java/org/reactnative/facedetector/FaceDetectorUtils.java:115-119 | `(W - x/s) * s` equals `W*s - x` for a non-zero scale |
| FaceDetectorUtils.ValueMirrorInvolution | android/src/main/java/org/reactnative/facedetector/FaceDetectorUtils.java:115-119 | mirroring a coordinate twice gives it back |
| FaceDetectorUtils.PositionTranslatedContents | android/src/main/java/org/reactnative/facedetector/FaceDetectorUtils.java:101-106 | the copy has the same keys, `x + translateX` under `x`, and every other entry unchanged |
| FaceDetectorUtils.PositionTranslateInverse | android/src/main/java/org/reactnative/facedetector/FaceDetectorUtils.java:101-106 | translating by `t` and then by `-t` gives the record back |
| FaceDetectorUtils.PositionMirroredContents | android/src/main/java/org/reactnative/facedetector/FaceDetectorUtils.java:108-113 | the copy has the same keys, `W*s - x` under `x`, and every other entry (`y` included) unchanged |
| FaceDetectorUtils.PositionMirrorInvolution | android/src/main/java/org/reactnative/facedetector/FaceDetectorUtils.java:108-113 | mirroring a position record twice gives it back |
| FaceDetectorUtils.MirrorLandmarks | android/src/main/java/org/reactnative/facedetector/FaceDetectorUtils.java:75-81 | visiting table names never adds or removes a key |
| FaceDetectorUtils.MirrorLandmarksAt | android/src/main/java/org/reactnative/facedetector/FaceDetectorUtils.java:75-81 | after visiting the first `count` names, a present landmark is mirrored once if visited and untouched otherwise |
| FaceDetectorUtils.MirrorLandmarksOthers | android/src/main/java/org/reactnative/facedetector/FaceDetectorUtils.java:75-81 | keys outside the table are never touched by the loop |
| FaceDetectorUtils.RotatedFace | android/src/main/java/org/reactnative/facedetector/FaceDetectorUtils.java:62-86 | rotation keeps the key set: absent landmarks stay absent |
| FaceDetectorUtils.RotatedFaceAt | android/src/main/java/org/reactnative/facedetector/FaceDetectorUtils.java:75-81 | every present landmark has its `x` mirrored, with no width correction; identifier, angles and probabilities are untouched |
| FaceDetectorUtils.RotatedFaceBounds | android/src/main/java/org/reactnative/facedetector/FaceDetectorUtils.java:63-73 | the new origin `x` is the mirrored old origin `x` minus the box width; origin `y`, the size and all other bounds entries are unchanged |
| FaceDetectorUtils.RotatedFaceRotatable | android/src/main/java/org/reactnative/facedetector/FaceDetectorUtils.java:62-86 | a rotated face still has every part `rotateFaceX` reads |
| FaceDetectorUtils.RotateFaceXInvolution | android/src/main/java/org/reactnative/facedetector/FaceDetectorUtils.java:62-86 | rotating a face twice gives the original record back |
| FaceDetectorUtils.SerializedFaceRotatable | android/src/main/java/org/reactnative/facedetector/FaceDetectorUtils.java:24-60 | a serialized face has the bounds and position records `rotateFaceX` reads |
| FaceDetectorUtils.RotateFaceX | android/src/main/java/org/reactnative/facedetector/FaceDetectorUtils.java:62-86 | mutates the caller's map into `RotatedFace` of its old contents and returns that same map |
| FaceDetectorUtils.Remainder360 | android/src/main/java/org/reactnative/facedetector/FaceDetectorUtils.java:89-90 | Java's `% 360` on doubles: it differs from its argument by a whole multiple of 360, lies in `[0, 360)` for a non-negative argument and in `(-360, 0]` for a non-positive one |
| FaceDetectorUtils.InvertedAngle | android/src/main/java/org/reactnative/facedetector/FaceDetectorUtils.java:89-90 | for angles up to 360 the result lies in `[0, 360)`; it is `360 - a` on `(0, 360)` and `-a` on `(-360, 0]` |
| FaceDetectorUtils.InvertedAngleInvolution | android/src/main/java/org/reactnative/facedetector/FaceDetectorUtils.java:89-90 | on `[0, 360)` inverting an angle twice gives it back |
| FaceDetectorUtils.AnglesInvertedContents | android/src/main/java/org/reactnative/facedetector/FaceDetectorUtils.java:88-92 | only roll and yaw change, both stay doubles in `[0, 360)` when they were at most 360, and every other key is kept |
| FaceDetectorUtils.AnglesInvertedInvolution | android/src/main/java/org/reactnative/facedetector/FaceDetectorUtils.java:88-92 | with both angles in `[0, 360)`, inverting twice gives the record back |
| FaceDetectorUtils.ChangeAnglesDirection | android/src/main/java/org/reactnative/facedetector/FaceDetectorUtils.java:88-92 | mutates the caller's map into `AnglesInverted` of its old contents and returns that same map |
| CameraEvents.EventFacesLength | android/src/main/java/org/reactnative/camera/events/FacesDetectedEvent.java:86-97 | the face list has exactly one entry per detected face |
| CameraEvents.EventFacesAt | android/src/main/java/org/reactnative/camera/events/FacesDetectedEvent.java:86-97 | entry `i` of the face list comes from face `i`, so the faces keep their index order |
| CameraEvents.SerializeFrameFace | android/src/main/java/org/reactnative/camera/events/FacesDetectedEvent.java:89-95 | one pass of the loop: serializing into a bridge map and rewriting that map in place yields exactly the record `EventFace` describes |
| CameraEvents.ExactlyOneTransform | android/src/main/java/org/reactnative/camera/events/FacesDetectedEvent.java:90-95 | front camera: angles as detected and the box mirrored and re-anchored; any other camera: angles inverted and the box as serialized |
| CameraEvents.SampleSerialized | android/src/main/java/org/reactnative/facedetector/FaceDetectorUtils.java:24-60 | a sample face at scale 2 serializes to the record with every coordinate doubled and no probability keys |
| CameraEvents.BackCameraExample | android/src/main/java/org/reactnative/camera/events/FacesDetectedEvent.java:89-95 | back camera: roll 10 becomes 350, yaw 20 becomes 340, and the geometry is untouched |
| CameraEvents.SampleRotatable | android/src/main/java/org/reactnative/facedetector/FaceDetectorUtils.java:62-68 | the sample record has what `rotateFaceX` reads |
| CameraEvents.SampleRotatedBounds | android/src/main/java/org/reactnative/facedetector/FaceDetectorUtils.java:63-73 | the sample box at `x = 20`, width 60, mirrored about 960 has its origin at 880 |
| CameraEvents.SampleRotatedEye | android/src/main/java/org/reactnative/facedetector/FaceDetectorUtils.java:75-81 | the sample eye at `x = 100` mirrored about 960 is at 860 and keeps its `leftEyePosition` name |
| CameraEvents.SampleRotated | android/src/main/java/org/reactnative/facedetector/FaceDetectorUtils.java:62-86 | the whole rotated sample record |
| CameraEvents.FrontCameraExample | android/src/main/java/org/reactnative/camera/events/FacesDetectedEvent.java:89-95 | front camera: angles unchanged, the eye and the box mirrored |
| CameraEvents.FacesDetectedEvent.constructor | android/src/main/java/org/reactnative/camera/events/FacesDetectedEvent.java:27 | a new event starts with empty or zero fields |
| CameraEvents.FacesDetectedEvent.Init | android/src/main/java/org/reactnative/camera/events/FacesDetectedEvent.java:45-59 | all fields are overwritten from the arguments, so a reused event keeps nothing of its previous frame |
| CameraEvents.FacesDetectedEvent.Obtain | android/src/main/java/org/reactnative/camera/events/FacesDetectedEvent.java:29-43 | returns the pooled event when there is one, a fresh one otherwise, initialised with the arguments |
| CameraEvents.FacesDetectedEvent.CoalescingKey | android/src/main/java/org/reactnative/camera/events/FacesDetectedEvent.java:66-73 | the key is the face count capped at 32767, and always lies in `[0, 32767]` |
| CameraEvents.CoalescingKeySeparatesCounts | android/src/main/java/org/reactnative/camera/events/FacesDetectedEvent.java:61-73 | two events share a key iff they have the same face count or both have at least 32767 faces |
| CameraEvents.FacesDetectedEvent.SerializeEventData | android/src/main/java/org/reactnative/camera/events/FacesDetectedEvent.java:85-104 | the loop with its per-face facing choice and the final puts build exactly `EventPayload` |
| CameraEvents.EventPayloadContents | android/src/main/java/org/reactnative/camera/events/FacesDetectedEvent.java:99-103 | the payload has exactly the keys `type` (`"face"`), `faces` (one record per face, in order) and `target` (the view tag) |

## Left out

- Java `double` and `float` arithmetic is idealised as `real`: rounding, NaN and infinities are not modelled. Neither is the widening of the detector's `float` values.
- ValueMirroredHorizontally: requires a non-zero scale. In Java a zero scale divides by zero and yields NaN rather than failing. `RotateFaceX`, `RotatedFace` and `EventFace` inherit this precondition on the front-camera path.
- SerializeFace: requires every landmark type to be in `0..11` (`KnownLandmarks`). For any other type Java throws `ArrayIndexOutOfBoundsException`, and the model does not represent that exception.
- RotateFaceX: requires the bounds, origin `x`, size `width` and landmark records that Java's `getMap`/`getDouble` read. Java would throw on a missing key or a wrong type.
- ChangeAnglesDirection: requires both angles to be doubles, for the same reason.
- Bridge maps never hold `null` values, so `hasKey` on a `null` entry is not distinguished.
- The `WritableArray` built by `serializeEventData` is a sequence of values. A pushed map enters it as its contents at push time.
- `SparseArray<Face>` is the sequence of its values in `valueAt` order. Its keys are never read.
- `Pools.SynchronizedPool`: `Obtain` takes the result of `acquire` as its parameter `pooled`. The pool itself, its concurrency and the release of events are not modelled.
- The `Event` base class: only the view tag that `super.init` stores is kept. The timestamp it reads from the system clock is not modelled.
- `getEventName` and `dispatch` hand the payload to the emitter. The event-name constant lives in `CameraViewManager`, which is not part of this model.
- `CameraView.FACING_FRONT` is taken to be 1, the camera-view library's value. `CameraView` is not part of this model.
- The Mobile Vision detector is not modelled. Its `Face` and `Landmark` objects are reduced to the fields that are read.
- CoalescingKey: computed as an `int`. The `(short)` cast can never truncate, because the count has been capped at 32767 before it.
