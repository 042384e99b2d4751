# JointsUpdate — a Dafny model

`JointsUpdate` is a Unity behaviour. It drives a rigged avatar from the
skeleton that the Extreme Motion camera SDK tracks. Each camera frame goes
through the same steps:

- A frame gate accepts the frame (`MyDataFrameReady`). It keeps only frames
  whose id is newer than the last one, or the reset id 1, and copies the ten
  tracked joints into a snapshot.
- `Update` then visits the ten joints in a fixed order. For every tracked
  joint it does three things:
  - it writes the joint's position into a sliding window of K+1 samples;
  - it filters that window, with an exponentially weighted moving average or
    with double exponential smoothing;
  - once the window is full, it rotates the model's bone towards the filtered
    positions and shifts the window.
- The joints of the reference bone also keep a window of image positions.
  Their filtered length feeds a proximity estimate: a baseline is captured,
  and then the ratio of the current length to the baseline is used.
- The driving joint (Spine or HipCenter) keeps a third window. It translates
  the model's root in X and Z by the smoothed image motion, relative to a
  baseline frozen on the first full window.

The model has one module per concern:

- `Geometry`: vectors, and the float operations (`exp`, `magnitude`,
  divide) as abstract functions with the laws the proofs use.
- `Skeleton`: joint types, the traversal order, the configuration, and which
  joints have which buffers.
- `SlidingWindow`: the three window disciplines: the rotation window, the
  scale window, and the never-shifted translation window.
- `WeightedAverage`: `smoothVector`, `vectorWeight`, `getMaxT`.
- `DoubleExponential`: `smoothVectorDEInit`, `smoothVectorDE`.
- `FrameGate`: the frame-id gate.
- `Proximity`: `calculateScaleFiltered`, `calculateTranslationInZ`.
- `RootTranslation`: the image-to-world mapping and the root translation
  block.
- `Retarget`: bone directions, and the rotations `RotateJoint` requests.
- `JointFilters`: one joint's filter state, window invariants and step.
- `Behaviour`: the whole per-frame behaviour as functions on a `State`
  value, with the invariant `StateOk` proved to hold initially and to be
  kept by every joint visit.
- `Pipeline`: the class `JointsUpdate`. Its fields are those of the
  behaviour, and its methods mirror the source's methods and blocks. Each
  method is proved to change the state exactly as the `Behaviour` function
  of the same step says, so `Valid()`, the class invariant, is kept across
  `Update`.

The model follows the code as written, including where it behaves
differently from what a reader of the code might expect:

- The proximity baseline is captured while the smoothed reference bone
  settles (JointsUpdate.cs:1360-1372). Capture ends with the fifth non-zero
  bone, counted over all calls and not consecutively: a zero bone in between
  neither counts nor restarts the count
  (`Proximity.CaptureEndsAfterFiveNonZero`). The model's test for a zero
  bone is exact (see "## Left out").
- Frame id 1 marks a reset or resume of the tracker (JointsUpdate.cs:401).
  Such a frame is always accepted, but nothing else is reset: only
  `lastFrameID` and the snapshot change, and the proximity and translation
  baselines stay as they were (`FrameGate.Gate`,
  `Pipeline.JointsUpdate.DataFrameReady`).
- `smoothVector` takes `t[k]` as the current observation and the earlier
  slots as the preceding ones (JointsUpdate.cs:715). That holds only for the
  rotation window, which once full is the last K+1 samples:
  - The scale window is written after the index increment. Slot 0 stays zero
    while it fills, and sample K-1 is not seen until 2K+1 samples have
    arrived (`SlidingWindow.Effective`, `SlidingWindow.ScaleFirstFullWindow`,
    `SlidingWindow.ScaleWindowCatchesUp`).
  - The translation window is never shifted. It holds the zero slot 0, the
    K-1 samples written while filling, and the newest sample
    (`SlidingWindow.FrozenWindow`).
- The root's Z is written on every full-window visit of the driving joint,
  as `pelvisFirst.z + delta.z * scale.z`, whatever `scaleOrTranslateInZAxis`
  is. The flag only chooses whether the sample's z is `DEPTH_CONSTANT` or
  `calculateTranslationInZ` (JointsUpdate.cs:538-546, `Behaviour.Depth`).
- `firstDistanceFromCamera` is computed from `pelvisFirstPosition` before
  the translation block sets it, so on the first full frame it uses the zero
  vector (`Behaviour.Depth`, `Behaviour.TranslationOk`).
- Double exponential smoothing produces no output for the first two samples.
  `smoothVectorDEInit` runs at index 1 and output starts with the third
  sample (`DoubleExponential.PassThroughLevel`,
  `JointFilters.RotationFiltered`).

Two quirks of `RotateJoint` are kept as written and stated as lemmas:

- ShoulderCenter's three rotations each use the direction of a different
  bone than the one their target measures
  (`Retarget.ShoulderCenterBonesRotated`).
- The head's target points from the head to ShoulderCenter, against its
  bone (`Retarget.HeadRotationReversed`).

## Model

| member | source | states |
|---|---|---|
| Skeleton.OrderIndex | JointsUpdate.cs:376-385 | indexOfJointType gives each joint the position at which it appears in the traversal order |
| Skeleton.JointOrderIsPermutation | JointsUpdate.cs:188-200 | jointTypesArray lists all ten joints, each exactly once, and indexOfJointType inverts it |
| Skeleton.ScalePair | JointsUpdate.cs:1333-1358 | the two joints whose difference is the reference bone are distinct joints of that bone, and both have a textureJointsFiltered entry |
| Skeleton.TranslationJoint | JointsUpdate.cs:514-522 | the driving joint typeT (Spine by default, HipCenter for AccordingToHips) always has a translation buffer |
| Skeleton.ScaleFilteringDefinedFor | JointsUpdate.cs:313-328 | every joint of the reference bone has both a scale buffer and a textureJointsFiltered entry exactly when the bone is Torso or HeadSpine; for the other bones a lookup fails |
| SlidingWindow.Shift | JointsUpdate.cs:596-597 | the shift moves every sample one slot towards the front and keeps the last sample in place |
| SlidingWindow.ShiftLeft | JointsUpdate.cs:596-597 | the in-place loop computes exactly that shift |
| SlidingWindow.RotationFill | JointsUpdate.cs:615-629 | writing at the fill index and moving on keeps the window equal to the samples seen, followed by zeros |
| SlidingWindow.RotationFull | JointsUpdate.cs:464-597 | once full, the window the filter sees is the last K+1 samples, and the shift restores the invariant for the next frame |
| SlidingWindow.Effective | JointsUpdate.cs:1189-1209 | the scale history as the scale buffer sees it: slot 0 is zero and sample K-1 is lost, because the write follows the index increment |
| SlidingWindow.ScaleFill | JointsUpdate.cs:629-663 | a scale sample written while filling lands one slot past the rotation sample, and the scale window invariant is kept |
| SlidingWindow.ScaleFull | JointsUpdate.cs:1195-1207 | once full, the scale window is the last K+1 entries of the effective history, and its shift keeps the invariant |
| SlidingWindow.ScaleFirstFullWindow | JointsUpdate.cs:1189-1209 | the first full scale window is zero, then samples 0..K-2, then sample K: sample K-1 is skipped |
| SlidingWindow.ScaleWindowCatchesUp | JointsUpdate.cs:1189-1209 | from 2K+1 samples on, the scale window equals the last K+1 samples |
| SlidingWindow.FrozenWindow | JointsUpdate.cs:553-557 | the never-shifted translation window: zero first, the newest sample last, K+1 entries |
| SlidingWindow.TranslationFill | JointsUpdate.cs:679-692 | a translation sample written while filling keeps the translation window invariant |
| SlidingWindow.TranslationFull | JointsUpdate.cs:553-557 | once full, only the last slot of the translation window ever changes, and it holds the newest sample |
| WeightedAverage.MaxSpreadUpToIsMaximum | JointsUpdate.cs:756-776 | the running maximum is at least every distance from the newest sample and equals one of them |
| WeightedAverage.GetMaxT | JointsUpdate.cs:756-776 | getMaxT returns the largest distance between the newest sample and an older one, and that distance occurs in the window |
| WeightedAverage.Weight | JointsUpdate.cs:743-746 | every weight is positive, and the newest sample has weight 1 |
| WeightedAverage.WeightDecays | JointsUpdate.cs:743-746 | for positive HConst and maxT, an older sample weighs strictly less than a newer one |
| WeightedAverage.TotalWeight | JointsUpdate.cs:725-732 | the divisor sum2 is at least 1 on a non-empty window, so the average is defined |
| WeightedAverage.SmoothVector | JointsUpdate.cs:717-733 | the accumulation loop returns the weighted average of the window, with maxT taken from getMaxT |
| WeightedAverage.WeightedSumOfConstant | JointsUpdate.cs:725-730 | on a constant window, sum1 is the constant scaled by the total weight |
| WeightedAverage.ConstantWindow | JointsUpdate.cs:717-733 | a window of identical samples averages to that sample, whatever maxT is |
| WeightedAverage.StillSums | JointsUpdate.cs:725-730 | with maxT 0 every weight is 1, so sum1 is the plain sum and sum2 the sample count |
| WeightedAverage.StillWindowIsMean | JointsUpdate.cs:717-746 | with maxT 0 the weighted average is the arithmetic mean |
| WeightedAverage.ConstantWindowIsStill | JointsUpdate.cs:756-776 | a constant window has maxT 0 |
| WeightedAverage.ConstantWindowAverage | JointsUpdate.cs:717-776 | smoothVector returns the sample itself when the whole window holds it |
| DoubleExponential.Initial | JointsUpdate.cs:788-793 | after initialisation the level is X0 and the forecast level + trend is X1 |
| DoubleExponential.Smoothed | JointsUpdate.cs:808-811 | alpha 1 returns the observation, alpha 0 the forecast, and an observation on the forecast is returned unchanged |
| DoubleExponential.Advance | JointsUpdate.cs:808-819 | the new level is the smoothed value; gamma 0 keeps the trend, and gamma 1 replaces it with the level's change |
| DoubleExponential.Outputs | JointsUpdate.cs:808-819 | the filter returns one smoothed value per observation |
| DoubleExponential.ForecastIsFixedPoint | JointsUpdate.cs:808-819 | an observation equal to the forecast advances the level to it and keeps the trend, for any alpha and gamma |
| DoubleExponential.TracksStraightLine | JointsUpdate.cs:808-819 | samples on the filter's forecast line are returned exactly, for any alpha and gamma |
| DoubleExponential.InitialLagsOneStep | JointsUpdate.cs:618-625 | on uniform motion the first smoothed value lags the observation by (1 - alpha) times one step |
| DoubleExponential.PassThroughLevel | JointsUpdate.cs:615-629 | with alpha 1, once the filter has run its level is the newest sample |
| FrameGate.Gate | JointsUpdate.cs:400-404 | a frame is accepted exactly when its id is newer than the last one or is the reset id 1; the last id then becomes that id, and otherwise stays |
| FrameGate.FirstFrameAccepted | JointsUpdate.cs:222-223 | starting from lastFrameID -1, the first frame with a non-negative id is accepted |
| FrameGate.FinalIsLastAccepted | JointsUpdate.cs:400-404 | after a stream of frames, lastFrameID is the id of the last accepted frame, or the initial id if none was accepted |
| FrameGate.AcceptedIncreaseUntilReset | JointsUpdate.cs:400-404 | accepted ids strictly increase, except at a reset to 1 |
| FrameGate.NoResetKeepsMaximum | JointsUpdate.cs:400-404 | without a reset, lastFrameID is the largest id seen |
| FrameGate.ResetAlwaysLands | JointsUpdate.cs:401-404 | a reset frame is always accepted and sets lastFrameID to 1 |
| FrameGate.AcceptedEndsWithReset | JointsUpdate.cs:401-404 | a stream ending with a reset frame ends with an accepted reset |
| Proximity.CaptureStep | JointsUpdate.cs:1361-1373 | while capturing, the baseline takes the current bone and the index counts only non-zero bones; afterwards nothing changes; the capture invariant is kept |
| Proximity.Coefficient | JointsUpdate.cs:1326-1384 | the coefficient is 1 while capturing; afterwards it is non-negative, zero exactly for a zero bone, and times the baseline length gives the bone length |
| Proximity.CoefficientIsRatio | JointsUpdate.cs:1374-1377 | with a homogeneous magnitude, a bone s times the baseline gives coefficient s |
| Proximity.RunAppend | JointsUpdate.cs:1361-1373 | one more call extends a run of calls by one capture step |
| Proximity.RunCounts | JointsUpdate.cs:1361-1373 | the index is the number of non-zero bones seen, capped at five, and capture ends exactly when it reaches five |
| Proximity.CaptureEndsAfterFiveNonZero | JointsUpdate.cs:1365-1370 | from Start, capture ends exactly when five non-zero bones have been seen, consecutive or not |
| Proximity.BaselineFrozen | JointsUpdate.cs:1374-1380 | once capture has ended, the baseline never changes again |
| Proximity.TranslationInZ | JointsUpdate.cs:1223-1241 | coefficient 1 gives DEPTH_CONSTANT; otherwise zT is DEPTH_CONSTANT minus the change of distance d / coeff - d |
| Proximity.TranslationInZDirection | JointsUpdate.cs:1223-1241 | a growing bone (user closer) puts zT above DEPTH_CONSTANT, and a shrinking one below |
| RootTranslation.ImageX | JointsUpdate.cs:532 | the horizontal mapping is invertible and maps [0, 1] onto [-1, 1] |
| RootTranslation.ImageY | JointsUpdate.cs:533 | the vertical mapping flips the axis, is invertible, and maps [0, 1] onto [-1, 1] |
| RootTranslation.ImagePoint | JointsUpdate.cs:532-553 | the buffered sample carries the depth it was given |
| RootTranslation.ImagePointInjective | JointsUpdate.cs:532-533 | distinct image positions give distinct samples |
| RootTranslation.RootPosition | JointsUpdate.cs:574-577 | the root keeps its Y; with no offset, X and Z are the frozen pelvis position |
| RootTranslation.RootFollowsSmoothedMotion | JointsUpdate.cs:569-577 | between two calibrated frames the root moves in X and Z by exactly the scaled motion of the smoothed image position |
| RootTranslation.Translated | JointsUpdate.cs:561-577 | the first call freezes both baselines with zero offset; later calls keep them; the offset is always the smoothed position minus its baseline |
| RootTranslation.TranslateFilling | JointsUpdate.cs:679-692 | a sample buffered while filling keeps the translation state |
| RootTranslation.TranslateFull | JointsUpdate.cs:553-577 | the translation block on a full window keeps the state: the baseline is the first full window's average, and the root sits at the latest offset |
| Retarget.BoneDirections | JointsUpdate.cs:872-880 | boneDirection[i] is child minus parent of the i-th bone, in bind pose, for the nine bones |
| Retarget.ParentBone | JointsUpdate.cs:859-880 | every joint but HipCenter is the child of some bone |
| Retarget.BonesFormTree | JointsUpdate.cs:859-880 | the nine bones form a tree rooted at HipCenter: each joint has exactly one parent bone, and parents come earlier in the traversal order |
| Retarget.Requests | JointsUpdate.cs:977-1076 | hands get no rotation and the head gets one only with transmissionOnHead; ShoulderCenter gets three rotations and every other joint one; every request names an existing bone |
| Retarget.SingleRotationsMatchTheirBone | JointsUpdate.cs:979-1065 | for HipCenter, Spine, and both shoulders and elbows, the direction rotated is that of the bone the target measures |
| Retarget.HeadRotationReversed | JointsUpdate.cs:1018-1030 | the head's target points from the head to ShoulderCenter, opposite to the bone direction it is paired with, and is boosted in X |
| Retarget.ShoulderCenterBonesRotated | JointsUpdate.cs:999-1017 | each of ShoulderCenter's three rotations pairs its target with the direction of another of the three bones |
| Retarget.BindPose | JointsUpdate.cs:853-854 | every joint starts at its bind-pose rotation |
| Retarget.Aligns | JointsUpdate.cs:977-1076 | one from-to rotation per request, from that request's bone direction to its target |
| Retarget.ComposeAppends | JointsUpdate.cs:1139-1152 | right-multiplying rotations appends their steps and keeps the joint's starting rotation |
| JointFilters.Position | JointsUpdate.cs:452-454 | the sample keeps X and Y, and its Z is minus the absolute depth |
| JointFilters.ImageSample | JointsUpdate.cs:1191-1195 | the scale sample is the mapped image point at DEPTH_CONSTANT |
| JointFilters.NextIndex | JointsUpdate.cs:464-629 | the fill index moves on by one while filling and stays at K once full |
| JointFilters.InitialJointState | JointsUpdate.cs:288-361 | each joint's zeroed windows, index and filter entries satisfy its invariant |
| JointFilters.RotationFiltered | JointsUpdate.cs:464-629 | rotation filtering moves the index on, leaves the texture entry alone, and leaves the smoothing state alone under the moving average |
| JointFilters.Settled | JointsUpdate.cs:596-597 | the rotation window keeps its length across the shift |
| JointFilters.RotationStep | JointsUpdate.cs:464-629 | a rotation sample keeps the joint's invariant: under the moving average the filtered position is the average of the last K+1 samples, under double exponential smoothing it is the level of the filter over every sample |
| JointFilters.RotationStepFull | JointsUpdate.cs:464-597 | the full-window branch, followed by the shift, keeps the rotation invariant |
| JointFilters.RotationStepFilling | JointsUpdate.cs:615-629 | the filling branch, including smoothVectorDEInit at index 1, keeps the rotation invariant |
| JointFilters.ScaleFiltered | JointsUpdate.cs:1189-1209 | scaleFiltering changes only textureJointsFiltered, and only on a full buffer |
| JointFilters.ScaleStep | JointsUpdate.cs:1189-1209 | a scale sample keeps the scale invariant: textureJointsFiltered is the average of the scale window once it is full |
| JointFilters.Record | JointsUpdate.cs:449-692 | a tracked joint records one position sample, and one image sample if it belongs to the reference bone |
| JointFilters.Filtered | JointsUpdate.cs:464-663 | a step moves the joint's fill index on |
| JointFilters.Written | JointsUpdate.cs:464-663 | a step keeps the windows' lengths, and the scale window of a joint off the reference bone is untouched |
| JointFilters.JointStep | JointsUpdate.cs:449-663 | a tracked sample keeps the joint's invariant |
| JointFilters.JointRotationStep | JointsUpdate.cs:464-629 | the joint step keeps the rotation half of the invariant |
| JointFilters.JointScaleStep | JointsUpdate.cs:481-663 | the joint step keeps the scale half of the invariant for a reference-bone joint |
| JointFilters.RotationBlock | JointsUpdate.cs:468-474 | the rotation block moves the index on and leaves the scale window alone |
| JointFilters.ScaleBlock | JointsUpdate.cs:1189-1209 | the scale block leaves the rotation window and the index alone |
| JointFilters.ShiftBlock | JointsUpdate.cs:596-597 | the shift changes only the rotation window, and keeps its length |
| JointFilters.Blocks | JointsUpdate.cs:464-663 | the blocks keep the joint's record well-shaped and move its index on |
| JointFilters.Stepped | JointsUpdate.cs:464-663 | the record after the blocks is the filtered state and the written windows together |
| JointFilters.JointsOkStep | JointsUpdate.cs:442-663 | stepping one joint keeps every joint's invariant |
| Behaviour.ModelPositions | JointsUpdate.cs:1162-1177 | jointPosition reads each joint's filtered model position |
| Behaviour.ShiftKeepsFiltered | JointsUpdate.cs:592-597 | shifting a window changes neither the filtered positions nor the reference bone |
| Behaviour.Zeros | JointsUpdate.cs:302-321 | a new buffer holds K+1 zero vectors |
| Behaviour.InitialState | JointsUpdate.cs:226-390 | the state Start leaves is ready for Update |
| Behaviour.InitialJoints | JointsUpdate.cs:288-361 | every joint starts with index 0, zeroed windows and zero filter entries |
| Behaviour.InitialStateOk | JointsUpdate.cs:226-390 | the invariant holds of the state Start leaves |
| Behaviour.Buffered | JointsUpdate.cs:687-692 | buffering a translation sample keeps the window's length and the capture state |
| Behaviour.Depth | JointsUpdate.cs:538-546 | with scaleOrTranslateInZAxis the depth is DEPTH_CONSTANT and nothing changes; otherwise only the capture and the first distance change |
| Behaviour.Place | JointsUpdate.cs:553-577 | placing the root keeps the window's length and the capture state |
| Behaviour.TranslationStep | JointsUpdate.cs:514-587 | the translation block keeps the window's length and the capture invariant |
| Behaviour.StepJoints | JointsUpdate.cs:464-663 | a joint's step changes that joint's record only |
| Behaviour.FillingStep | JointsUpdate.cs:609-700 | the filling branch keeps the state ready for the next joint |
| Behaviour.FullStep | JointsUpdate.cs:464-607 | the full-window branch keeps the state ready for the next joint |
| Behaviour.FillingStepIs | JointsUpdate.cs:609-700 | the filling branch runs the joint's blocks, records its samples, and buffers a translation sample for the driving joint only |
| Behaviour.FullStepIs | JointsUpdate.cs:464-607 | the full-window branch filters, rotates the model's joint, shifts the window, and moves the root for the driving joint only |
| Behaviour.Visit | JointsUpdate.cs:449-705 | visiting a joint records its samples exactly when it is tracked |
| Behaviour.RecordFrame | JointsUpdate.cs:442-706 | the samples recorded by the first n joints of the traversal, for every joint |
| Behaviour.VisitFrame | JointsUpdate.cs:442-706 | the traversal keeps the state ready and records the frame's samples |
| Behaviour.BufferedOk | JointsUpdate.cs:668-692 | buffering the driving joint's sample while filling keeps the translation invariant |
| Behaviour.TranslationStepOk | JointsUpdate.cs:514-587 | the translation block on a full window keeps the translation invariant |
| Behaviour.FillingTranslationOk | JointsUpdate.cs:609-700 | the filling branch keeps the translation invariant |
| Behaviour.FillingStepOk | JointsUpdate.cs:609-700 | the filling branch keeps the invariant |
| Behaviour.FullTranslationOk | JointsUpdate.cs:464-607 | the full-window branch keeps the translation invariant |
| Behaviour.FullStepOk | JointsUpdate.cs:464-607 | the full-window branch keeps the invariant |
| Behaviour.VisitOk | JointsUpdate.cs:449-705 | visiting one joint, tracked or not, keeps the invariant |
| Behaviour.VisitFrameOk | JointsUpdate.cs:442-706 | the traversal of the ten joints keeps the invariant |
| Behaviour.VisitFrameStepOk | JointsUpdate.cs:442-706 | each turn of the traversal keeps the invariant |
| Behaviour.RecordFrameUpTo | JointsUpdate.cs:442-706 | after the first n joints, a joint's history has changed exactly when it came among them and was tracked |
| Behaviour.RecordFrameOnce | JointsUpdate.cs:442-706 | over one frame, every tracked joint records exactly one position sample and every untracked joint none |
| Pipeline.Snapshot | JointsUpdate.cs:411-420 | the snapshot holds every joint's tracked data from the frame |
| Pipeline.JointsUpdate.constructor | JointsUpdate.cs:226-390 | Start leaves the initial state, with the invariant established, and boneDirection from the bind pose |
| Pipeline.JointsUpdate.DataFrameReady | JointsUpdate.cs:394-425 | lastFrameID follows the gate; the snapshot is replaced exactly when the frame is accepted |
| Pipeline.JointsUpdate.SmoothVectorDEInit | JointsUpdate.cs:788-793 | only the joint's smoothing state changes, to the initial level and trend |
| Pipeline.JointsUpdate.SmoothVectorDE | JointsUpdate.cs:808-819 | returns the smoothed value and advances only the joint's smoothing state |
| Pipeline.JointsUpdate.RotateJointWithAngle | JointsUpdate.cs:1139-1152 | the joint's local rotation is right-multiplied by the from-to rotation, and no other rotation changes |
| Pipeline.JointsUpdate.JointPosition | JointsUpdate.cs:1174-1177 | reads the joint's filtered model position |
| Pipeline.JointsUpdate.RotateJoint | JointsUpdate.cs:937-1131 | the joint's rotation gets exactly the from-to rotations its requests name, in order |
| Pipeline.JointsUpdate.RotateShoulderCenter | JointsUpdate.cs:999-1017 | ShoulderCenter's rotation gets its three from-to rotations, in the source's order |
| Pipeline.JointsUpdate.FilterRotation | JointsUpdate.cs:464-629 | the joint's record becomes the rotation block's result; nothing else changes |
| Pipeline.JointsUpdate.FilterRotationFull | JointsUpdate.cs:468-474 | the full-window filter updates only the joint's filter entries |
| Pipeline.JointsUpdate.FilterRotationFilling | JointsUpdate.cs:615-629 | the filling filter updates only the joint's filter entries |
| Pipeline.JointsUpdate.ScaleFiltering | JointsUpdate.cs:1189-1209 | the joint's record becomes the scale block's result |
| Pipeline.JointsUpdate.CalculateScaleFiltered | JointsUpdate.cs:1326-1384 | returns the coefficient for the current reference bone and advances the capture by one step |
| Pipeline.JointsUpdate.CalculateTranslationInZ | JointsUpdate.cs:1223-1241 | returns zT for the coefficient of the current reference bone |
| Pipeline.JointsUpdate.MoveRoot | JointsUpdate.cs:561-577 | the root block's fields move as Translated says |
| Pipeline.JointsUpdate.TranslationDepth | JointsUpdate.cs:538-546 | the depth and the new capture state are those of Depth |
| Pipeline.JointsUpdate.PlaceTranslation | JointsUpdate.cs:553-577 | buffering, smoothing and root placement give the state Place describes |
| Pipeline.JointsUpdate.TranslateRoot | JointsUpdate.cs:524-577 | the translation block gives the state TranslationStep describes |
| Pipeline.JointsUpdate.BufferTranslation | JointsUpdate.cs:679-693 | the filling translation write gives the state Buffered describes |
| Pipeline.JointsUpdate.FilterJoint | JointsUpdate.cs:464-663 | the joint's record and samples become those of the blocks |
| Pipeline.JointsUpdate.ShiftRotation | JointsUpdate.cs:596-597 | only the joint's rotation window is shifted |
| Pipeline.JointsUpdate.FilterAndTranslate | JointsUpdate.cs:464-587 | filtering, then the translation block for the driving joint only |
| Pipeline.JointsUpdate.RotateAndShift | JointsUpdate.cs:592-597 | rotates the model's joint from the filtered positions, then shifts the window |
| Pipeline.JointsUpdate.UpdateFull | JointsUpdate.cs:464-607 | the full-window branch, field by field |
| Pipeline.JointsUpdate.UpdateFilling | JointsUpdate.cs:609-700 | the filling branch, field by field |
| Pipeline.JointsUpdate.UpdateFullStep | JointsUpdate.cs:464-607 | the full-window branch changes the state exactly as FullStep says |
| Pipeline.JointsUpdate.UpdateFillingStep | JointsUpdate.cs:609-700 | the filling branch changes the state exactly as FillingStep says |
| Pipeline.JointsUpdate.UpdateJoint | JointsUpdate.cs:449-705 | visiting one joint changes the state exactly as Visit says |
| Pipeline.JointsUpdate.VisitJoints | JointsUpdate.cs:442-706 | the loop over jointTypesArray changes the state exactly as VisitFrame says |
| Pipeline.JointsUpdate.Update | JointsUpdate.cs:436-707 | without a Head entry nothing changes; otherwise every joint of the snapshot is visited in order; the class invariant is kept |

## Left out

- Unity transforms and quaternions: a rotation is a symbolic composition of
  from-to steps. `TransformDirection`, `InverseTransformDirection` and
  `FromToRotation` (including the identity for degenerate input) are not
  computed.
- Proximity.CaptureStep: the test for a zero bone is exact equality with
  the zero vector. Unity's `Vector3 !=` (JointsUpdate.cs:1365) treats a
  vector whose squared length is below 1e-10 as zero. So a tiny non-zero
  bone counts as a capture here but not in Unity, and it can become the
  baseline. The same holds for `Proximity.NonZeroCount` and
  `Pipeline.JointsUpdate.CalculateScaleFiltered`.
- Floating point: vectors have real coordinates. `Math.Pow(Math.E, ·)`,
  `Vector3.magnitude` and float division are abstract functions with the
  laws the proofs need (`Geometry.Sound`), not IEEE arithmetic.
- `calculateTrackedSkltModelSkltRatio` and the `localScale` write that uses
  it (JointsUpdate.cs:603-607, 1252-1316) are not part of this model. They
  set the avatar's uniform scale from bone ratios and feed nothing back into
  the filters. The root position is modelled as if nothing but the
  translation block moved it. In Unity the scale write rescales the
  hierarchy that holds the root joint, so the world position read back at
  JointsUpdate.cs:565 and 576 can change with the ratio.
- `CalculateTextureParams`, `OnGUI`, `frameRateCalc` and `Debug.Log` only
  produce display output.
- The sphere game objects (`SetActive`, their positions) are display output
  too.
- `Camera.main.transform.position.z` is a parameter (`cameraZ`) of `Update`.
- The SDK callback registration, the threading between the callback and
  `Update`, and `DataFrame` disposal are left out. `Update` reads the
  snapshot once at its start.
- Commented-out code (JointsUpdate.cs:882-922, 1084-1129) is not modelled.
- `Skeleton.ValidConfig` excludes configurations on which the code throws:
  - The WristElbow and SpineShoulder reference bones (and the `default`
    case) make `scaleFiltering` or `calculateScaleFiltered` look up a key
    that `CreateJoints` never adds. `Skeleton.ScaleFilteringDefinedFor`
    proves that exactly Torso and HeadSpine are safe.
  - A window size K of 0 makes `getMaxT` read `t[-1]` (JointsUpdate.cs:762),
    so `ValidConfig` requires K >= 1.
  - The fill index is an unbounded `nat`. The source's `short`
    `jointsLastIndex` (JointsUpdate.cs:208) would wrap for K >= 32768, and
    the next buffer write would throw.
  - Neither exclusion matters in use: the header comment at
    JointsUpdate.cs:49 recommends K = 5-10 for the moving average and at
    least 3 for double exponential smoothing.
- Buffers are sequences rather than arrays, so aliasing between the
  temporary `tmp…Buffer` references and the dictionaries is not modelled.
  The source never relies on it.
- The per-joint dictionaries (`jointsLastIndex`, `jointsModelFiltered`,
  `textureJointsFiltered`, `trend`, `prevSmoothedVector`, and the buffers)
  are zipped into one `JointRecord` per joint. A `textureFiltered` entry
  exists for every joint, rather than for the six keys `CreateJoints` adds;
  only the reference bone's joints ever read or write it.
- Only the driving joint's translation buffer is kept. The other one that
  `CreateJoints` allocates is never written for a fixed configuration.
- `skeletonInit`'s base rotations are symbolic (`Retarget.Bind`). The model's
  bind-pose joint positions are a parameter of the constructor.
- `jointPosition(int)` (JointsUpdate.cs:1162-1165) has no caller in the
  modelled code; `jointPosition(JointType)` is modelled.
