# Frozen-shoulder angle: verified model of the measurement core

This project models the decision logic of `utils/pose_utils.py`, the part of the
frozen-shoulder range-of-motion tool that turns detected body landmarks into a shoulder
angle and an annotated overlay:

- **Geometry** (`geometry.dfy`): `calculate_angle(a, b, c)`. It forms BA = a − b and
  BC = c − b. It returns None when the product of their norms is zero. Otherwise it clamps
  dot(BA, BC) / (|BA|·|BC|) into [−1, 1] and takes arccos in degrees. Points are integer
  pixels. The dot product and the squared norms are exact integers.
- **PoseSelection** (`pose_selection.dfy`): `landmark_to_pixel` and `compute_shoulder_angle`.
  The detector output is either absent or a map from landmark names to normalized landmarks.
  A side of exactly `"left"` selects the LEFT_* shoulder, elbow and hip. Any other side
  selects the RIGHT_* ones. The three points become the `shoulder`/`elbow`/`hip` position map.
  The angle is measured at the shoulder.
- **Annotation** (`annotation.dfy`): `annotate_image_pil`. The image is a `Canvas` object
  that records the draw calls made on it, in order: `Line(p, q, width)`,
  `Ellipse(box, colour)` and `Text(pos, text, colour)`. The method `AnnotateImage` draws onto a
  fresh canvas, with the outline loop kept as a loop. The function `Plan` specifies the
  resulting command sequence, and lemmas state what that sequence contains.
- **ShoulderPipeline** (`pipeline.dfy`): the selection output handed to the annotation, as
  `app.py` does it. It states the two end-to-end outcomes: no person detected, and a
  detected pose.

The floating-point steps are a `Numerics` value passed in by the caller. It holds two
functions: the float32 quotient dot/(|BA|·|BC|), and arccos in degrees. Treating the quotient
as a function of the exact dot product and squared norms is faithful while each component
product is exact in float32, which holds for pixel coordinates below 4096. The model assumes only
that arccos in degrees maps [−1, 1] into [0, 180] (`AcosInRange`). The symmetry lemma also
assumes that the float quotient does not depend on the order of the two norms (IEEE
multiplication is commutative). The one-decimal rendering of the angle in the label is a
caller-supplied function `fmt`.

Three behaviours of the source worth noting:
- The side is not rejected when it is neither `"left"` nor `"right"`. Every value other
  than `"left"` selects the right side.
- Landmark visibility is never consulted.
- The numeric label ends with the two characters U+00C2 U+00B0, as the source text spells
  the degree sign.

## Model

| member | source | states |
|---|---|---|
| Geometry.Sub | utils/pose_utils.py:36-37 | the difference vector is zero exactly when the two points coincide, and adding it back to the vertex gives the point |
| Geometry.Clamp | utils/pose_utils.py:44 | np.clip: the result lies in [lo, hi], equals t when t is already inside, and equals the nearer bound otherwise |
| Geometry.DenominatorZero | utils/pose_utils.py:39-41 | the product of the norms of BA and BC is zero exactly when one of the two vectors is the zero vector |
| Geometry.CauchySchwarz | utils/pose_utils.py:42-44 | dot(BA,BC)² ≤ \|BA\|²·\|BC\|²: the exact cosine already lies in [−1, 1], so the clamp only absorbs float rounding |
| Geometry.CalculateAngle | utils/pose_utils.py:27-46 | the result is None exactly when a == b or c == b; otherwise it lies in [0, 180] |
| Geometry.AngleIsArccosOfClampedCosine | utils/pose_utils.py:42-46 | for non-degenerate points the result is arccos-in-degrees of some value in [−1, 1], whatever the float quotient evaluates to |
| Geometry.CalculateAngleSymmetric | utils/pose_utils.py:36-45 | swapping a and c gives the same result |
| PoseSelection.Trunc | utils/pose_utils.py:25 | Python int(): truncation toward zero, so the result is within 1 of the input and on the zero side of it |
| PoseSelection.LandmarkToPixel | utils/pose_utils.py:24-25 | each pixel coordinate is within 1 of the normalized coordinate times the image size, on the zero side of it |
| PoseSelection.PixelInsideImage | utils/pose_utils.py:24-25 | a landmark with normalized coordinates in [0, 1] maps to a pixel in [0, width] × [0, height] |
| PoseSelection.SideLandmark | utils/pose_utils.py:59-66 | the chosen landmark is the requested joint, and it is a LEFT_* landmark exactly when side == "left" |
| PoseSelection.JointPixels | utils/pose_utils.py:68-73 | the position map has exactly the keys shoulder, elbow and hip, each holding the pixel of the side's landmark for that joint |
| PoseSelection.ComputeShoulderAngle | utils/pose_utils.py:48-73 | no pose gives (None, {}); a pose gives the three-key position map of the side's joints and the angle at the shoulder between elbow and hip |
| PoseSelection.ShoulderAngleUndetermined | utils/pose_utils.py:68-72 | with a pose, the angle is None exactly when the elbow or the hip pixel equals the shoulder pixel, and otherwise lies in [0, 180] |
| PoseSelection.SideSelection | utils/pose_utils.py:59-66 | "left" reads LEFT_SHOULDER/LEFT_ELBOW/LEFT_HIP; any other side reads the RIGHT_* landmarks |
| Annotation.AngleText | utils/pose_utils.py:107 | the label is "Angle: N/A" exactly when there is no angle, and always starts with "Angle: " |
| Annotation.MarkerBox | utils/pose_utils.py:98-104 | the marker box is 12 pixels wide and high and centred on the joint |
| Annotation.Canvas.constructor | utils/pose_utils.py:82-84 | a new image of the given size with nothing drawn on it yet |
| Annotation.Canvas.DrawLine | utils/pose_utils.py:93 | appends one line command and changes nothing else |
| Annotation.Canvas.DrawEllipse | utils/pose_utils.py:100 | appends one filled-ellipse command and changes nothing else |
| Annotation.Canvas.DrawText | utils/pose_utils.py:120 | appends one text command and changes nothing else |
| Annotation.DrawSkeleton | utils/pose_utils.py:92-95 | appends the shoulder–elbow and shoulder–hip lines, each only when both endpoints are present |
| Annotation.DrawMarkers | utils/pose_utils.py:97-104 | appends one marker per present joint, in the order shoulder, elbow, hip |
| Annotation.DrawLabel | utils/pose_utils.py:116-121 | appends the four outline passes (loop over the offsets) and then the white pass |
| Annotation.AnnotateImage | utils/pose_utils.py:75-123 | returns a fresh image of the given size whose draw commands are exactly `Plan` |
| Annotation.PlanOrdered | utils/pose_utils.py:92-121 | all lines come before all markers, and all markers before every label pass |
| Annotation.PlanLines | utils/pose_utils.py:92-95 | every line has width 4 and runs from the shoulder to the elbow or the hip; each line is present exactly when both its endpoints are |
| Annotation.PlanMarkers | utils/pose_utils.py:98-104 | a joint's radius-6 marker (shoulder red, elbow green, hip blue) is drawn when the joint is present, and no marker of its colour is drawn when it is absent |
| Annotation.PlanLabel | utils/pose_utils.py:106-121 | the last five commands are black passes at offsets (1,1), (1,−1), (−1,1), (−1,−1) of the anchor, then the white pass at the anchor; every text command carries the angle label |
| Annotation.PlanLabelAnchor | utils/pose_utils.py:109-121 | the final white label pass sits at (s.x + 10, s.y − 30) when the shoulder is present, else at (10, 10) |
| ShoulderPipeline.NoPersonDetected | app.py:200-206 | with no pose, the overlay is only the "Angle: N/A" label at (10, 10): four black passes and the white pass, for any side |
| ShoulderPipeline.PoseDetected | app.py:200-206 | with a pose, the overlay is 2 lines, 3 markers and 5 label passes, with the white label beside the shoulder showing the computed angle |

## Left out

- `detect_pose_landmarks` (utils/pose_utils.py:13-22) calls into the MediaPipe model. Its output appears only as an optional landmark map.
- PoseSelection.ComputeShoulderAngle requires a detected landmark map to hold every landmark name. MediaPipe always reports its full skeleton, and a missing landmark would raise in Python. Only the six landmarks the angle uses are named.
- PoseSelection.LandmarkToPixel idealises the float multiplication as an exact real product. Its `int()` truncation toward zero is modelled exactly. Coordinates outside [0, 1] are allowed.
- Geometry.CalculateAngle does not model float32 arithmetic, `np.linalg.norm`, `np.arccos` or `np.degrees`. Their values come from the caller's `Numerics`. Concrete angles such as 90° or 45° are therefore not proved. The model assumes that the float product of two norms of non-zero integer vectors is non-zero, which holds for pixel-sized coordinates.
- Annotation.AngleText takes the `{angle:.1f}` formatting as the caller's `fmt` function.
- The BGR-to-RGB conversion (`cv2.cvtColor`) and PIL rasterisation are not modelled. The image is a record of draw commands. The default ink of the skeleton lines is left to the imaging library.
- Font loading and its fallback (utils/pose_utils.py:111-114) are not modelled. The font does not affect which commands are issued.
- The `results` and `side` arguments of `annotate_image_pil` are unused by the source and are not parameters of `AnnotateImage`.
- `pil_image_to_bytes` (utils/pose_utils.py:125-129) and the Streamlit page in app.py (upload, decoding, session state, messages, download button) are I/O and UI.
