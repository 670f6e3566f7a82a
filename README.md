# Rover wall-follower: decision and perception model

A Dafny model of the two core files of a simulated Mars rover that follows
the right-hand wall, looks for gold rock samples and picks them up.

* `decision.py`'s `decision_step(Rover)` runs once per telemetry tick. It is
  a state machine over four modes: forward, pickle, azimuth and sample.
  * Forward mode blends the mean of the navigable-pixel angles with the mean
    of the wall-contour angles, then lets `collision_adj` steer away from
    obstacles. It sends the rover to pickle mode when it is stuck or when
    there is too little terrain ahead.
  * Pickle mode stops the rover and sweeps it to the left, remembering the
    heading with the most navigable pixels.
  * Azimuth mode turns the rover back to that heading.
  * Sample mode approaches a rock and requests the pickup.
* `perception.py`'s `perception_step(Rover)` does the following:
  * It classifies the pixels of the warped camera image. Terrain uses the
    2-of-3 threshold rule. Rocks use a tolerance band around a gold colour.
    Obstacles and the mapping mask use the all-channels threshold, and a
    fixed 20 by 20 window in front of the rover gives the collision pixels.
  * It keeps the part of the largest contour that lies on the right wall.
  * It turns every pixel list into rover coordinates, and three of them into
    world-map cells. Truncation toward zero and clipping to the map are
    written out.
  * It paints those cells on the world map when the rover is level.
  * It stores distances and angles on the Rover record for the controller.

Layout:

* `wrappers.dfy` holds `Option`.
* `numerics.dfy` holds `np.clip`, the mean, Python's float `% 360` and
  `np.int_` truncation.
* `decision.dfy` (module `Decision`) is the controller written as pure
  transition functions over `Inputs` (what a tick reads) and `Control` (what
  a tick writes). It holds the lemmas about them.
* `perception.dfy` (module `Perception`) holds the pixel, coordinate,
  contour and world-map functions and their lemmas.
* `controller.dfy` (module `Controller`) holds `class Rover`. The Rover
  record is a class with one field per attribute, and the world map is an
  `array3<int>`.
  * Every branch of `decision_step` is a method that updates the fields in
    place, with the early returns of the source. Each method is proved to
    leave `Controls()` equal to the matching `Decision` function of the old
    state.
  * `PerceptionStep` is proved to write the world map cell by cell, and the
    bearings, exactly as `Perception` describes them.

Conventions:

* Angles in the controller are in degrees. The source multiplies each
  radian array by 180/pi before averaging, and the model takes that
  conversion as done.
* `None` stands for Python's `None` and for NumPy's NaN.
* A timer or a heading that is `None` or `0` reads as unset, as Python
  truthiness does.

Where the code and its own comments disagree, or the code does something
its authors evidently did not foresee, the model follows the code:

* When pickle mode starts a sweep it returns before it writes the steering
  (decision.py:108-113). `PickleStartsSweepAt300` shows the steer unchanged.
* The misspelled `Rover.thottle` (decision.py:189) is modelled as written.
  At speed 0.5 and above, away from a sample, sample mode keeps the old
  throttle. Beside a sample while moving, decision.py:195-197 still sets the
  throttle to 0.
* The `wal_angle_mean < -35` override (decision.py:323) is modelled as
  written. It can never apply after the clip to [-15, 15].
* The sweep's forced minimum turn (decision.py:137) tests `delta < -352`,
  not a wrapped difference. `ExitTargetForcesMinimumTurn` proves the test
  pushes the target exactly when the wrapped net turn is in (0, 8) or the
  unwrapped net turn is in [8, 10). So a sweep that crosses 0 degrees with a
  net turn in [8, 10) is not pushed, but one that does not cross 0 is.
* The comment at decision.py:129-133 promises a turn of at least 20 degrees
  per pickle, and the test at decision.py:137 pushes the target when the net
  turn is under 10 degrees. The code's `delta > 0` leaves out a net turn of 0.
  That happens when the best heading is the start heading itself, and then
  the rover turns back to where it stopped (`ExitTargetSkipsZeroTurn`).
* A heading of exactly 0 reads as an unset sweep start, so pickle mode
  re-initialises on every tick and never sweeps
  (`PickleAtYawZeroNeverSweeps`). Pickle mode runs no stuck timer, so
  nothing ends that loop except a change of heading.
* Target pixels are classified with the intended symmetric colour band, not
  the 8-bit wrapped test the code evaluates (see "## Findings"). The target
  cells `PerceptionStep` writes and the target bearings it stores follow the
  corrected rule.

## Model

| member | source | states |
|---|---|---|
| Numerics.Clip | decision.py:28 | the result lies in [lo, hi], equals x inside the range and the nearer bound outside it |
| Numerics.ClipInt | perception.py:128-129 | integer clip: result in [lo, hi], identity inside, the nearer bound outside |
| Numerics.Mean | decision.py:18 | `np.mean` of a non-empty array: the mean times the count is the sum |
| Numerics.SumBounded | decision.py:18 | a sum of values in [lo, hi] lies between count times lo and count times hi |
| Numerics.MeanBounded | decision.py:18 | the mean of values in [lo, hi] lies in [lo, hi] |
| Numerics.Mod360 | decision.py:110 | Python's float `% 360`: the result is in [0, 360), differs from x by a whole number of turns, and is x itself on [0, 360) |
| Numerics.Trunc | perception.py:128-129 | `np.int_` truncates toward zero: below x for x >= 0, above x for x < 0, never a whole unit away |
| Numerics.TruncMonotone | perception.py:128-129 | truncation toward zero preserves order |
| Numerics.ClipIntMonotone | perception.py:128-129 | clipping preserves order |
| Decision.CollisionAdj | decision.py:13-32 | with at most 40 collision angles the steer is unchanged; above, it is the steer minus the correction, clipped to [-15, 15] |
| Decision.AvoidAngle | decision.py:18-24 | the mean collision angle, replaced by 15 exactly when it is within 1 degree of zero; its magnitude is at least 1 |
| Decision.CollisionAdjTurnsAway | decision.py:13-32 | for a steer in range, obstacles on the left (positive angle) never steer more left, obstacles on the right never more right |
| Decision.CollisionAdjAvoidsObstacleSide | decision.py:13-32 | more than 40 collision pixels all at least 1 degree to the left never steer further left; all at least 1 degree to the right, never further right |
| Decision.CollisionAdjSymmetricObstacle | decision.py:18-28 | 50 collision pixels with mean 0.5 degrees take the 15-degree fallback and cost 3.75 degrees of steer |
| Decision.StuckTimer | decision.py:38-57 | only mode and stored time change; below 0.1 velocity an unset timer starts at the mission time; an elapsed limit switches to pickle and clears the timer; otherwise nothing changes; moving clears the timer |
| Decision.StuckRun | decision.py:38-57 | repeated stuck-timer ticks change only mode and stored time; pickle mode, once entered, stays; the only mode they move to is pickle |
| Decision.StuckRunFiresAtLimit | decision.py:38-57 | held stopped over successive ticks, the rover enters pickle mode exactly when some tick comes at least the limit after the first; until then the timer holds the first tick's time |
| Decision.StuckTimerRestartsAtTimeZero | decision.py:45-55 | a timer started at mission time 0 reads as unset, so the next tick restarts it instead of counting |
| Decision.ExitTarget | decision.py:127-138 | a best heading less than 10 degrees left of the start, or more than 352 right of it, is pushed 20 degrees further (mod 360); any other is kept |
| Decision.ExitTargetForcesMinimumTurn | decision.py:127-138 | when the push applies the net turn becomes between 20 and 30 degrees; the target is pushed exactly when the wrapped net turn is in (0, 8) or the unwrapped one is in [8, 10) |
| Decision.ExitTargetSkipsZeroTurn | decision.py:127-138 | a sweep whose best heading is its start heading is not pushed |
| Decision.Sweep | decision.py:115-144 | a sweep tick steers 15; it leaves for azimuth exactly when the target is within 5 degrees, and then the sweep start and best count are cleared |
| Decision.SweepExit | decision.py:127-144 | the exit sets azimuth mode, clears the sweep start and best count and aims at the pushed best heading; nothing else changes |
| Decision.SweepTrack | decision.py:115-122 | steer 15; the best count never drops and covers the current count; the best heading follows a strictly larger count; nothing else changes |
| Decision.SweepOutcome | decision.py:115-144 | both outcomes of a sweep tick as whole records: staying changes only steer and tracking; leaving also clears the start and best count and aims at the pushed best heading |
| Decision.PickleStep | decision.py:66-146 | no terrain: steer 15, throttle 0; moving: brake; braked: release; first rest: record start, target yaw+45 mod 360, best count go_forward; later: sweep. Leaving for azimuth clears the sweep start and best count and aims at the pushed best heading |
| Decision.PickleSettle | decision.py:86-144 | with terrain: the brake ends at brake_set while moving and released otherwise; the throttle never ends positive; braking or releasing keeps the steer and pickle mode |
| Decision.PickleSweep | decision.py:108-144 | first tick at rest: records the start, a target and best heading 45 degrees left in [0, 360), best count go_forward, steer untouched; later ticks steer 15; throttle and brake untouched |
| Decision.PickleAtYawZeroNeverSweeps | decision.py:108-113 | at heading exactly 0 the recorded start reads as unset, so pickle re-initialises on every tick and is a fixed point |
| Decision.SampleStep | decision.py:149-222 | a firing stuck timer wins; otherwise steer to the target mean, brake hard on first sight while moving, request the pickup at rest beside a rock, mark picked up while picking up, leave for pickle after a pickup; sweep bookkeeping untouched |
| Decision.SampleTrack | decision.py:166-222 | steer to the mean target angle when targets are seen, else keep it; mode stays or becomes pickle; timer, sweep fields and max_vel untouched |
| Decision.SampleLock | decision.py:172-222 | first sight while moving: brake_set and brake 10, nothing else; otherwise brake_set kept and the lock set unless a pickup is in progress; steer untouched |
| Decision.SampleApproach | decision.py:184-220 | brake released and throttle 0.1 below speed 0.5 (else kept) unless stopping beside a rock, which sets throttle 0 and brake_set; only mode, throttle, brake and the pickup flags change |
| Decision.SamplePickup | decision.py:191-220 | beside the rock while moving: stop; at rest while picking up: clear the lock and the request, mark picked up; otherwise request when near, and a finished pickup leaves for pickle and clears picked_up |
| Decision.AzimuthStep | decision.py:224-253 | no target: forward only; moving: brake; at rest: release, steer -15, and forward exactly when within 3 degrees of the target |
| Decision.MaxVel | decision.py:291-299 | 1 by default, mean wall distance / 20 clipped to 3 when that mean is at least 20; always in [1, 3] |
| Decision.NavPreference | decision.py:314-334 | weight in [0.1, 1] and wall mean in [-15, 15]; collision pixels set the weight to nav count / 40 clipped to [0.1, 0.9]; with no walls and no collisions, (1, 0) |
| Decision.BlendedSteer | decision.py:337-344 | averaging the old steer with the clipped blend keeps a steer in [-15, 15] in range |
| Decision.Speed | decision.py:293-311 | below max velocity: throttle_set and no brake; above it and above 1: coast with brake 0.03; else coast; only max_vel, throttle and brake change |
| Decision.Aim | decision.py:314-354 | the steer is the blend; a nonzero target angle switches to sample and skips collision adjustment, otherwise the blend is collision-adjusted |
| Decision.Cruise | decision.py:289-354 | speed then aim; on a target the mode is sample, otherwise the mode is kept; a steer in range stays in range |
| Decision.ForwardHalt | decision.py:357-364 | pickle, throttle 0, brake brake_set, steer 0, timer cleared, nothing else |
| Decision.ForwardStep | decision.py:256-366 | stuck timer first; enough navigable pixels: cruise; too few: throttle 0, brake_set, steer 0, pickle, timer cleared |
| Decision.NoNavStep | decision.py:369-378 | mode pickle; a pickup is requested exactly when near a sample, at rest and not picking up; nothing else changes |
| Decision.Step | decision.py:60-378 | `decision_step`: one tick moves forward to forward/pickle/sample, pickle to pickle/azimuth, azimuth to azimuth/forward, sample to sample/pickle |
| Decision.SweepBookkeepingOwnedByPickle | decision.py:60-378 | outside pickle mode the sweep start, target and best heading are untouched; leaving pickle goes to azimuth, clears the sweep start and best count, keeps the best heading as this tick tracked it, and aims at `ExitTarget` of the best and start headings |
| Decision.StepKeepsSteerInRange | decision.py:60-378 | outside sample mode a steer command in [-15, 15] stays in [-15, 15] |
| Decision.PickupOnlyFromFallback | decision.py:369-378 | outside sample mode a pickup is newly requested only by the forward no-terrain fallback, near a sample, at rest and not picking up |
| Decision.ForwardWithoutTerrainStartsPickle | decision.py:357-364 | forward with an empty navigable array: pickle, throttle 0, brake_set, steer 0, timer cleared |
| Decision.PickleStartsSweepAt300 | decision.py:108-113 | first rest at heading 300 records start 300 and target 345 and leaves the steer as it was |
| Decision.AzimuthWithoutTargetGoesForward | decision.py:230-233 | a NaN target changes nothing but the mode, to forward |
| Decision.SampleAtRestRequestsPickup | decision.py:194-202 | sample mode at rest beside a rock, not picking up and not stuck, requests the pickup |
| Controller.Rover.CheckStuck | decision.py:38-57 | the in-place `pickle` leaves the record as StuckTimer computes |
| Controller.Rover.DecisionStep | decision.py:60-378 | the in-place tick leaves the record as Step computes |
| Controller.Rover.PickleMode | decision.py:66-146 | the in-place pickle branch leaves the record as PickleStep computes |
| Controller.Rover.Settle | decision.py:86-144 | braking, release and sweep with terrain present, as PickleSettle |
| Controller.Rover.StartOrSweep | decision.py:108-144 | sweep start or sweep tick, as PickleSweep |
| Controller.Rover.SweepTick | decision.py:115-144 | one sweep tick, as Sweep |
| Controller.Rover.TrackBest | decision.py:115-122 | steer and best-heading tracking, as SweepTrack |
| Controller.Rover.LeaveSweep | decision.py:126-144 | the exit to azimuth, as SweepExit |
| Controller.Rover.SampleMode | decision.py:149-222 | the in-place sample branch leaves the record as SampleStep computes |
| Controller.Rover.TrackSample | decision.py:166-222 | steer to the target, then lock on, as SampleTrack |
| Controller.Rover.LockOn | decision.py:172-222 | the first-sight stop or the approach, as SampleLock |
| Controller.Rover.Approach | decision.py:184-220 | brake off, throttle 0.1 below 0.5 (the misspelled field above), then pickup, as SampleApproach |
| Controller.Rover.PickUp | decision.py:191-220 | stop beside the rock, request and await the pickup, leave for pickle afterwards, as SamplePickup |
| Controller.Rover.AzimuthMode | decision.py:224-253 | the in-place azimuth branch leaves the record as AzimuthStep computes |
| Controller.Rover.ForwardMode | decision.py:256-366 | the in-place forward branch leaves the record as ForwardStep computes |
| Controller.Rover.Cruise | decision.py:291-354 | speed and steering with enough terrain, as Decision.Cruise |
| Controller.Rover.Halt | decision.py:357-364 | the too-little-terrain stop, as ForwardHalt |
| Controller.Rover.SetSpeed | decision.py:293-311 | target velocity, throttle and brake, as Speed |
| Controller.Rover.SteerForward | decision.py:314-354 | blended steer, sample switch and collision adjustment, as Aim |
| Perception.ColorThresh | perception.py:47-73 | a 0/1 mask of the image's shape that is 1 exactly at the selected pixels: all channels above in terrain mode, all within tolerance in target mode |
| Perception.ColorThreshMonotone | perception.py:63-69 | raising the thresholds never adds terrain pixels |
| Perception.NearIsSymmetricBand | perception.py:57-60 | target mode accepts each channel on the open band (t - tol, t + tol) |
| Perception.AboveCount | perception.py:20-22 | counts passing channels, 0 to 3, and is 3 exactly when all pass |
| Perception.ContourSelect | perception.py:20-26 | a 0/1 mask that is 1 exactly where at least two of the three channels exceed their thresholds |
| Perception.ContourSelectCoversColorThresh | perception.py:20-26 | every all-three pixel is also a 2-of-3 pixel |
| Perception.ColorThreshWrapped | perception.py:57-60 | target mode as evaluated on an 8-bit image, where the difference wraps modulo 256 |
| Perception.WrappedBandIsOneSided | perception.py:57-60 | with the wrap, each channel is accepted only on [t, t + tol) |
| Perception.WrappedTargetMissesDarkerGold | perception.py:57-60 | the pixel (180, 144, 19) is gold by the intended rule and rejected by the wrapped one |
| Perception.Slice | perception.py:168 | Python slicing with clamped bounds: the length and the elements it keeps |
| Perception.Crop | perception.py:168 | `img[top:bottom, left:right]`: rows and columns kept, clamped |
| Perception.Invert | perception.py:169 | `bitwise_not`: every channel becomes 255 minus itself, shape kept |
| Perception.CollisionMask | perception.py:168-170 | a 0/1 mask over the window rows 130-149, columns 150-169, 1 exactly at pixels darker than 155 in every channel; 20 by 20 on a large enough image |
| Perception.RowHits | perception.py:78 | the nonzero positions of one row, exactly, in column order |
| Perception.NonZero | perception.py:78 | `nonzero()`: exactly the nonzero positions of the mask, in row-major order |
| Perception.ToRover | perception.py:84-89 | rover x is between 1 and the image height for rows inside it; a column left of centre (no offset) lies to the left, one past centre plus offset to the right |
| Perception.ToRoverRoundTrip | perception.py:84-89 | the raster position is recovered exactly from its rover coordinates |
| Perception.RoverCoordsOf | perception.py:84-89 | one rover pixel per position, each converted with the given shape and offset |
| Perception.RoverCoords | perception.py:76-82 | one rover pixel per nonzero position, each between 1 and the mask height ahead |
| Perception.RoverCoordsOfBlankMask | perception.py:76-82 | an empty mask gives no rover pixels |
| Perception.RoverCoordsDistinct | perception.py:76-89 | distinct set pixels give distinct rover pixels |
| Perception.WorldIndex | perception.py:113-129 | one axis of `pix_to_world`: an index in [0, size-1]; 0 before the map, size-1 beyond it, the cell containing the translated value on the map |
| Perception.WorldIndexMonotone | perception.py:113-129 | a farther point along an axis never lands on an earlier cell |
| Perception.Translate | perception.py:111-116 | `translate_pix` on one coordinate: undoing the move and the scaling gives back the rover-frame value |
| Perception.ClippedTruncIsClippedFloor | perception.py:128-129 | after the clip to the map, truncation toward zero picks the same cell as the floor |
| Perception.PixToWorld | perception.py:122-131 | the world cell of a rover pixel always lies on the map |
| Perception.RotatePixInverse | perception.py:102-109 | `rotate_pix` with a true cosine and sine pair is undone by rotating with the opposite sine |
| Perception.RotatePixKeepsDistance | perception.py:102-109 | with a true cosine and sine pair, rotation keeps the squared distance |
| Perception.ToWorld | perception.py:219-221 | one cell per pixel, every cell on the map |
| Perception.LargestIndex | perception.py:181 | `max(contours, key=area)`: a contour of largest area, the first among ties |
| Perception.LargestContour | perception.py:180-184 | None exactly when there are no contours; otherwise a member of largest area |
| Perception.Filter | perception.py:188-190 | boolean indexing keeps exactly the accepted elements |
| Perception.FilterAppend | perception.py:188-190 | filtering a concatenation filters each part, in order |
| Perception.FilterFuse | perception.py:188-190 | two successive masks are one mask by the conjunction, keeping order |
| Perception.WallPoints | perception.py:188-190 | exactly the contour points right of column 160 and strictly between rows 90 and 150 |
| Perception.WallPointsIsOneFilter | perception.py:188-190 | the three successive masks equal one mask by the wall region, in contour order |
| Perception.WallCoords | perception.py:188-209 | one rover pixel per wall point, each between h-150 and h-90 ahead and right of raster column 160 (y < w/2 - 157 with the -3 offset) |
| Perception.CollisionCoords | perception.py:210 | one rover pixel per collision pixel, each 1 to 20 pixels ahead |
| Perception.Observe | perception.py:163-210 | one navigable pixel per 2-of-3 pixel, one target, obstacle and terrain pixel per set mask pixel, one wall pixel per wall point, collision pixels 1 to 20 ahead |
| Perception.Dists | perception.py:92-99 | one distance per pixel, the conversion's distance |
| Perception.Angles | perception.py:92-99 | one angle per pixel, the conversion's angle |
| Perception.ToPolar | perception.py:241-244 | after a frame the navigable angles are present; each array pair has one entry per pixel of its list |
| Perception.NavCountIsTwoOfThreeCount | perception.py:177-242 | the navigable-angle count the controller tests is the number of 2-of-3 pixels |
| Perception.CollisionCountBounded | perception.py:168-244 | the controller sees at most 400 collision angles |
| Perception.NonZeroBounded | perception.py:78 | a mask of at most n rows of at most 20 columns has at most 20n set positions |
| Perception.GridExtensionality | perception.py:235-237 | two maps of one shape that agree on each cell are equal |
| Perception.Paint | perception.py:235-237 | the listed cells of one channel become 255 and every other cell is kept |
| Perception.PaintIdempotent | perception.py:235-237 | painting twice is painting once |
| Perception.PaintCommutes | perception.py:235-237 | writes to different channels commute |
| Perception.PaintSaturates | perception.py:235-237 | painting keeps an 8-bit map 8-bit and never lowers a cell |
| Perception.MapUpdate | perception.py:229-237 | not level: map unchanged; level: obstacles painted on 0, targets on 1, terrain on 2 |
| Perception.LevelIsWithinOneDegree | perception.py:229-233 | for angles in [0, 360) the gate passes exactly when roll and pitch are each less than 1 degree from level, the shorter way round |
| Perception.MapUpdateCells | perception.py:229-237 | cell by cell: 255 exactly where a listed cell meets its channel and the rover is level, otherwise kept |
| Perception.Record | perception.py:214-237 | the map keeps its shape and stays 8-bit; when not level it is unchanged |
| Perception.RecordedCell | perception.py:229-237 | a cell ends either as it was or at 255, as it was when not level or outside channels 0 to 2 |
| Perception.RecordedCellIsRecord | perception.py:214-237 | the cell-by-cell account of a frame equals recording its rotated, translated, truncated and clipped pixels on the whole map |
| Perception.MapUpdateIdempotent | perception.py:229-237 | recording the same cells again leaves the map as it was |
| Perception.MapUpdateCommutes | perception.py:229-237 | recording two frames' cells in either order gives the same map, each frame at its own roll and pitch |
| Perception.Frame | perception.py:176-184 | no observation exactly when OpenCV returned no contour |
| Controller.Rover.PaintChannel | perception.py:235-237 | the in-place fancy-index write: listed cells of the channel become 255, every other cell is kept |
| Controller.Rover.RecordFrame | perception.py:214-237 | every map cell ends as RecordedCell of its old value for this frame, pose and attitude |
| Controller.Rover.SetBearings | perception.py:241-244 | the eight distance and angle fields hold the given bearings |
| Controller.Rover.UpdateFromFrame | perception.py:184-244 | without a frame nothing changes; with one the map is recorded cell by cell and the bearings are its polar form |
| Controller.Rover.PerceptionStep | perception.py:160-244 | no contour: record and map unchanged (the early return); otherwise map cells per RecordedCell and bearings per ToPolar of the observed frame |

## Left out

- The perspective transform, `cvtColor`, `cv2.threshold` and `findContours`
  are OpenCV calls. `PerceptionStep` takes the warped image and the contour
  list as parameters, and `cv2.contourArea` as a function parameter.
- `np.cos`, `np.sin`, `np.sqrt` and `np.arctan2` are floating point.
  `PerceptionStep` takes the cosine and sine of the heading and the polar
  conversion as parameters. The radian-to-degree factor in decision.py is
  taken as applied.
- NaN propagation through the means is not modelled. The one place it
  decides a branch, the mean of an empty wall-distance array, is written
  out in `MaxVel`.
- Decision.NavPreference: does not state the wall mean's value when walls
  are seen, only its range, because the value only restates the body;
  `BlendedSteer` and `StepKeepsSteerInRange` carry the range property that
  matters.
- `PerceptionStep`, `UpdateFromFrame` and `RecordFrame` require a square
  world map. The source clips both map axes to `shape[0] - 1`
  (perception.py:216 and 128-129), so the model assumes the map is as wide
  as it is tall. It does not cover a map that is not square.
- Perception.ToPolar: states the counts and the presence of the navigable
  angles, not the values, because the conversion is a parameter.
- `Rover.thottle`, the field created by the typo at decision.py:189, has no
  field of its own. Nothing reads it.
- The HUD drawing on `vision_image`, the `print` calls, the unused
  `thresh_img`, `imbin_inv` and nav-pixel world coordinates, and the
  simulator I/O are left out. They do not change anything the controller
  reads.
- The Rover record's constructor and its default settings are not part of
  this model. `Configured` states the one setting the controller needs: a
  positive `stop_forward`.
- Floating-point rounding is not modelled: the model uses exact reals.
- `SampleStep`'s `while Rover.picking_up:` returns on its first iteration,
  so it is modelled as an `if`.

## Findings

| source | as written | input that shows it | evidently intended | confidence | as-written member | corrected member |
|---|---|---|---|---|---|---|
| perception.py:57-60 | `abs(img - t) < tol` on a uint8 image: the subtraction wraps modulo 256, so a channel below the reference value is rejected | the pixel (180, 144, 19) against the gold reference (185, 140, 15), tolerance 40: red is 5 below the reference and wraps to 251 | a symmetric band (t - tol, t + tol) in every channel | not executed; assumes an 8-bit camera image | Perception.WrappedTargetMissesDarkerGold | Perception.NearIsSymmetricBand |
