# Cube face detector: a Dafny model

This project models the orientation pipeline of `MPU6050_Testing/main_mpu6050_Sparkfun.py`.
The program runs on an RP2040 board with an MPU6050 accelerometer and one neopixel, mounted in a cube.

- It keeps moving-average lists of the last `numAvgValues` (25) accelerometer readings per axis.
- It turns the averaged reading into tilt angles theta and phi.
- It classifies the tilt as one of the six cube faces, or 0 when no face matches.
- It reports a face only when the last 25 classifications agree.
- It lights the pixel in that face's colour, dimmed to brightness 0.1.

Modules, one per part of the program:

- `Maybe`: the `Option` datatype, Python's `None` in the lists.
- `Angles`: the `angleDiff` lambda over real degrees. Python's float `%` has the sign of the divisor; here it is `Mod360`, proved equal to `x - 360 * floor(x / 360)`. The lemmas prove that `AngleDiff` is:
  - the unique value in [-180, 180) congruent to `start - stop`;
  - the shortest such rotation;
  - antisymmetric, except at the half turn;
  - subject to the triangle inequality.
- `Classifier`: `getPlatonicCubeFaceIdx` as the if/elif chain `FaceIdx`.
  - It is proved equal to a first-match search `FirstBin` over an independent bin table (`BinOf`, `InBin`).
  - Lemmas over that table cover the bin centres, the inclusive bound, and the priority order at wide tolerances.
  - They also show that below a tolerance of 45 the order does not matter.
- `Windows`: the fixed-length lists.
  - `Push` is `pop(0)` followed by `append`.
  - `Window(fill, n, h)` is `[fill] * n` after the values `h` were pushed, with its closed form proved.
  - `Stable` is the "all entries identical" test of `getSmoothedFaceIdx`.
- `Colours`: the colour constants, `adjColor`, the face-to-colour table and the dispatch.
- `Tracker`: the class `FaceTracker`, standing for the program's module-level state.
  - Its fields are the four lists, a reading counter and the pixel colour. A ghost `faces` records every face computed.
  - `Valid()` ties each list to `Window` over the history of values pushed onto it.
  - The methods mirror `updateAccelList`, `preallocateAccelList`, `getSmoothedAccel`, `getDownwardFaceIndex`, `updateFaceIdx`, `getSmoothedFaceIdx` and one iteration of the main loop.

Inputs the model takes as parameters of the class:

- `sensor(k)` is the k-th accelerometer reading `getSensorAccel` returns.
- `tilt(v)` is the trigonometry of `getAccelTiltAngle`.

Behaviour of the code worth knowing:

- `angleDiff` maps into [-180, 180). At the half turn, both argument orders give -180 (`AngleDiffAntisymmetric`).
- A bin centre is classified as its own face only below tolerance 90. Face 2's centre is classified as face 2 below 180 (`UpAtCentre`), and face 1's centre at any tolerance (`DownAtCentre`). From 90 on, the first test wins: `WideToleranceFavoursFaceOne` shows the centre of face 3 and the pole phi = 0 at theta = 0 reported as face 1. The program itself uses 20.
- A zero acceleration vector makes `getAccelTiltAngle` divide by zero (line 89). That step belongs to the trigonometry, which is not part of this model.
- The loop guard of `preallocateAccelList` tests the X list, then the Y list twice, and never the Z list. The three lists fill in lockstep (`AxesInLockstep`), so Z is filled all the same. `Preallocate` keeps the guard as written and proves Z free of `None` afterwards.

## Model

| member | source | states |
|---|---|---|
| Angles.Mod360 | MPU6050_Testing/main_mpu6050_Sparkfun.py:68 | Python's `% 360` on a float lies in [0, 360) |
| Angles.Mod360IsFloorMod | MPU6050_Testing/main_mpu6050_Sparkfun.py:68 | the remainder equals Python's floor formula `x - 360 * floor(x / 360)` |
| Angles.Mod360Congruent | MPU6050_Testing/main_mpu6050_Sparkfun.py:68 | the remainder differs from its argument by whole turns |
| Angles.AngleDiff | MPU6050_Testing/main_mpu6050_Sparkfun.py:68 | `angleDiff(start, stop)` lies in [-180, 180) |
| Angles.AngleDiffCongruent | MPU6050_Testing/main_mpu6050_Sparkfun.py:68 | `angleDiff(start, stop)` is congruent to `start - stop` modulo 360 |
| Angles.AngleDiffUnique | MPU6050_Testing/main_mpu6050_Sparkfun.py:68 | any value in [-180, 180) congruent to `start - stop` is `angleDiff(start, stop)` |
| Angles.AngleDiffExact | MPU6050_Testing/main_mpu6050_Sparkfun.py:68 | a difference already in [-180, 180) is returned unchanged |
| Angles.AngleDiffShortest | MPU6050_Testing/main_mpu6050_Sparkfun.py:68 | no angle congruent to `start - stop` has a smaller magnitude: it is the shortest rotation |
| Angles.AngleDiffAntisymmetric | MPU6050_Testing/main_mpu6050_Sparkfun.py:68 | swapping the arguments negates the result, except that -180 maps to itself |
| Angles.AngleDiffTriangle | MPU6050_Testing/main_mpu6050_Sparkfun.py:68 | the circular distance between two centres is at most the sum of an angle's distances to them |
| Classifier.Near | MPU6050_Testing/main_mpu6050_Sparkfun.py:69-80 | (definition) one test of the chain: `abs(angleDiff(angle, centre)) <= angleCheck`, inclusive |
| Classifier.NearSymmetric | MPU6050_Testing/main_mpu6050_Sparkfun.py:68-80 | an angle is near a centre exactly when the centre is near the angle: the circular distance has no direction |
| Classifier.FaceIdx | MPU6050_Testing/main_mpu6050_Sparkfun.py:65-83 | the classifier returns a face index in 0..6 |
| Classifier.FirstBin | MPU6050_Testing/main_mpu6050_Sparkfun.py:69-82 | the first-match search over the bin table returns 0 exactly when no bin holds the tilt, and otherwise the first bin that holds it |
| Classifier.FaceIdxIsFirstBin | MPU6050_Testing/main_mpu6050_Sparkfun.py:65-83 | the if/elif chain equals the first-match search over the bin table in the order 1..6 |
| Classifier.NoFaceIffNoBin | MPU6050_Testing/main_mpu6050_Sparkfun.py:67-83 | face 0 is returned exactly when none of the six conditions holds |
| Classifier.FirstMatchWins | MPU6050_Testing/main_mpu6050_Sparkfun.py:69-80 | a returned face's condition holds and no earlier face's condition holds |
| Classifier.FirstMatchIs | MPU6050_Testing/main_mpu6050_Sparkfun.py:69-80 | a face whose condition holds, with no earlier condition holding, is the one returned |
| Classifier.DownAtCentre | MPU6050_Testing/main_mpu6050_Sparkfun.py:69-70 | theta = 0, phi = 90 gives face 1 for every tolerance >= 0 |
| Classifier.UpAtCentre | MPU6050_Testing/main_mpu6050_Sparkfun.py:71-72 | theta = 180, phi = 90 gives face 2 for tolerances in [0, 180) |
| Classifier.SideOneAtCentre | MPU6050_Testing/main_mpu6050_Sparkfun.py:73-74 | theta = -90, phi = 90 gives face 3 for tolerances in [0, 90) |
| Classifier.SideTwoAtCentre | MPU6050_Testing/main_mpu6050_Sparkfun.py:75-76 | theta = 90, phi = 90 gives face 4 for tolerances in [0, 90) |
| Classifier.PoleFaces | MPU6050_Testing/main_mpu6050_Sparkfun.py:77-80 | phi = 0 gives face 5 and phi = 180 gives face 6 for any theta, for tolerances in [0, 90) |
| Classifier.WideToleranceFavoursFaceOne | MPU6050_Testing/main_mpu6050_Sparkfun.py:69-80 | from tolerance 90 on, the centre of face 3 (theta = -90, phi = 90) and the pole phi = 0 at theta = 0 are reported as face 1, because the first match wins |
| Classifier.InclusiveBound | MPU6050_Testing/main_mpu6050_Sparkfun.py:69 | a tilt exactly `angleCheck` away in both angles still matches: the bounds are inclusive |
| Classifier.DownFaceWindow | MPU6050_Testing/main_mpu6050_Sparkfun.py:69-70 | with phi = 90 and theta in (-180, 180], face 1 is returned exactly when abs(theta) <= angleCheck, for every angleCheck |
| Classifier.CentresApart | MPU6050_Testing/main_mpu6050_Sparkfun.py:69-80 | bin centres between 90 and 270 degrees apart are at least 90 degrees apart round the circle |
| Classifier.BinsDisjoint | MPU6050_Testing/main_mpu6050_Sparkfun.py:69-80 | below tolerance 45, no tilt satisfies two faces' conditions |
| Classifier.OrderIrrelevant | MPU6050_Testing/main_mpu6050_Sparkfun.py:65-83 | below tolerance 45, a face is returned exactly when its own condition holds, whatever the order |
| Windows.Push | MPU6050_Testing/main_mpu6050_Sparkfun.py:111-119 | `pop(0)` then `append(x)` keeps the length, shifts every entry one place towards the front and puts x last |
| Windows.Window | MPU6050_Testing/main_mpu6050_Sparkfun.py:31-34 | a list created as `[fill] * n` keeps length n through any number of updates |
| Windows.WindowPush | MPU6050_Testing/main_mpu6050_Sparkfun.py:127-130 | one more update of a list is the list of the history extended by one value |
| Windows.WindowAt | MPU6050_Testing/main_mpu6050_Sparkfun.py:104-119 | entry i holds the initial fill until n - i values have been pushed, and afterwards the value pushed n - 1 - i updates ago |
| Windows.WindowFull | MPU6050_Testing/main_mpu6050_Sparkfun.py:104-119 | once n values have been pushed, the list is exactly the last n of them in order |
| Windows.FillRemains | MPU6050_Testing/main_mpu6050_Sparkfun.py:132-136 | a fill value that is never pushed is still in the list exactly while fewer than n values have been pushed |
| Windows.Stable | MPU6050_Testing/main_mpu6050_Sparkfun.py:123-125 | a nonzero result is the value of every entry of the list |
| Windows.StableIffConstant | MPU6050_Testing/main_mpu6050_Sparkfun.py:123-125 | a nonzero face f is reported exactly when the list holds f and nothing else |
| Windows.StableWindow | MPU6050_Testing/main_mpu6050_Sparkfun.py:121-130 | over the face list, a nonzero face f is reported exactly when the last `numAvgValues` faces computed all were f |
| Windows.StableWhileFilling | MPU6050_Testing/main_mpu6050_Sparkfun.py:34 | until `numAvgValues` faces have been computed, the initial zeros keep the reported face at 0 |
| Colours.AdjColor | MPU6050_Testing/main_mpu6050_Sparkfun.py:54-55 | every channel is the largest integer not above the channel times the brightness, and the length is kept |
| Colours.FullBrightnessIsIdentity | MPU6050_Testing/main_mpu6050_Sparkfun.py:54-55 | the default brightness 1.0 returns an integer colour unchanged |
| Colours.ZeroBrightnessIsOff | MPU6050_Testing/main_mpu6050_Sparkfun.py:54-55 | brightness 0 turns every channel off |
| Colours.DimmingBounds | MPU6050_Testing/main_mpu6050_Sparkfun.py:50-55 | a brightness in [0, 1] keeps each non-negative channel between 0 and its original value |
| Colours.Palette | MPU6050_Testing/main_mpu6050_Sparkfun.py:43-49 | the colour for each face 0..6 has three channels, each fully on (255) or off (0), and is off exactly for face 0 |
| Colours.FaceColour | MPU6050_Testing/main_mpu6050_Sparkfun.py:151-164 | the dispatch writes a three-channel colour exactly for faces 0..6 |
| Colours.DimmedPalette | MPU6050_Testing/main_mpu6050_Sparkfun.py:43-50 | at brightness 0.1 the seven colours become off, [25, 0, 0], [25, 25, 0], [0, 25, 0], [0, 25, 25], [0, 0, 25] and [25, 0, 25] |
| Colours.ColourIdentifiesFace | MPU6050_Testing/main_mpu6050_Sparkfun.py:151-164 | at brightness 0.1 different faces light the pixel in different colours |
| Tracker.Sum | MPU6050_Testing/main_mpu6050_Sparkfun.py:99-101 | Python's `sum` over a list of floats: 0 for the empty list, entries added from the left |
| Tracker.Mean | MPU6050_Testing/main_mpu6050_Sparkfun.py:99-101 | (definition) `sum(list) / len(list)` of a non-empty list |
| Tracker.SumWithin | MPU6050_Testing/main_mpu6050_Sparkfun.py:99-101 | the sum of a list lies between its length times the lower and the upper bound of its entries |
| Tracker.MeanWithin | MPU6050_Testing/main_mpu6050_Sparkfun.py:99-101 | the moving average lies within the range of the values averaged |
| Tracker.MeanOfSteady | MPU6050_Testing/main_mpu6050_Sparkfun.py:99-101 | the average of a list holding one value throughout is that value |
| Tracker.NoneRemains | MPU6050_Testing/main_mpu6050_Sparkfun.py:31-33 | an axis list holds a None exactly while fewer than `numAvgValues` readings have been taken |
| Tracker.AxesInLockstep | MPU6050_Testing/main_mpu6050_Sparkfun.py:134 | the Z list holds a None exactly when the X list does, and exactly when the Y list does |
| Tracker.WindowValues | MPU6050_Testing/main_mpu6050_Sparkfun.py:92-102 | once full, an axis list holds no None and its values are the last `numAvgValues` readings of that axis |
| Tracker.HistoryPush | MPU6050_Testing/main_mpu6050_Sparkfun.py:108-119 | one update of an axis list pushes that axis of the next reading |
| Tracker.SteadySensorSmoothed | MPU6050_Testing/main_mpu6050_Sparkfun.py:92-102 | readings that were the same vector for the whole window average to that vector |
| Tracker.FaceAfter | MPU6050_Testing/main_mpu6050_Sparkfun.py:57-63 | the face `getDownwardFaceIndex` computes after `count` readings, the tolerance-20 classification of the tilt of the moving average, lies in 0..6 |
| Tracker.SteadySensorFace | MPU6050_Testing/main_mpu6050_Sparkfun.py:57-63 | while the cube is held still, the face computed is the classification of the steady reading's tilt |
| Tracker.FaceTracker.constructor | MPU6050_Testing/main_mpu6050_Sparkfun.py:30-34 | the axis lists start as `numAvgValues` Nones, the face list as `numAvgValues` zeros, no reading taken |
| Tracker.FaceTracker.Start | MPU6050_Testing/main_mpu6050_Sparkfun.py:30-34 | the program's own tracker: lists of `numAvgValues` = 25 entries, all Nones for the axes and zeros for the faces |
| Tracker.FaceTracker.UpdateAccelList | MPU6050_Testing/main_mpu6050_Sparkfun.py:104-119 | one reading is taken, and each axis list drops its oldest entry and appends that axis of the reading, all three in lockstep |
| Tracker.FaceTracker.Preallocate | MPU6050_Testing/main_mpu6050_Sparkfun.py:132-136 | the loop runs until `numAvgValues` readings have been taken, at most `numAvgValues` iterations and none once full, and leaves no None in any of the X, Y and Z lists |
| Tracker.FaceTracker.SmoothedAccel | MPU6050_Testing/main_mpu6050_Sparkfun.py:92-102 | after filling and one more reading, the result is the per-axis mean of the last `numAvgValues` readings |
| Tracker.FaceTracker.DownwardFaceIndex | MPU6050_Testing/main_mpu6050_Sparkfun.py:57-63 | the face is the classification, with tolerance 20, of the tilt of the smoothed reading |
| Tracker.FaceTracker.UpdateFaceIdx | MPU6050_Testing/main_mpu6050_Sparkfun.py:127-130 | the face just computed is pushed onto the face list |
| Tracker.FaceTracker.SmoothedFaceIdx | MPU6050_Testing/main_mpu6050_Sparkfun.py:121-125 | a nonzero result f means the last `numAvgValues` faces computed were all f, and such a run of a nonzero face is always reported |
| Tracker.FaceTracker.Step | MPU6050_Testing/main_mpu6050_Sparkfun.py:146-164 | one main-loop iteration leaves the pixel showing the dimmed colour of the reported face |

## Left out

- Trigonometry of `getAccelTiltAngle` (`atan2`, `acos`, `sqrt`, radians to degrees): it is floating-point library maths. It is the class parameter `tilt`, so the zero-vector division it would perform is not modelled either.
- Sensor, I2C and neopixel setup and hardware access: these are I/O. A reading is the class parameter `sensor(k)`. A pixel write is the assignment to the field `pixel`, which starts off; the hardware's actual initial colour is not modelled.
- `time.sleep` calls and the infinite `while True` loop: they are timing only. `Step` models one iteration of the loop.
- `nRF24_RemoteControl/main_remoteReceive_Sparkfun.py` and `nRF24_RemoteControl/main_remoteTransmit_Sparkfun.py` are not part of this model: they are radio bring-up and float packing through library calls.
- Floating-point rounding: angles, accelerations and averages are exact `real`s. `sum` is a left-to-right sum, whose rounding is not captured.
- Tracker.FaceTracker.constructor: requires `numAvgValues >= 1`. The program uses 25 (`Start`); with 0 its first `pop(0)` would raise an error, which is not modelled.
- Colours.FaceColour: a face outside 0..6, which leaves the pixel unchanged, is modelled as `None`. The classifier never produces such a face, so `Step` never meets that case.
