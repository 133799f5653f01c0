# Stereo column and specular streak stimuli, modelled in Dafny

This project models the deterministic core of a set of PsychoPy / OpenGL
experiment scripts for studies of binocular disparity and glossy streaks:

- **Column scenes.** A column of bricks stands above a tessellated floor.
  - `AnaglyphColumnExperiment.py` draws it twice per frame, through red and cyan filters, from two eye positions whose separation carries the trial's disparity. It also builds and shuffles the 81-trial list and records responses.
  - `WhiteColumn.py` builds a 500-layer column whose layers are missing, split or whole.
  - `VerticalColumn.py` builds a column of 50 abutting vertical slabs.
  - `ModernGL/ColumnAndPlane.py` scales one column to several distances along a viewing line, on a checkerboard floor with the column's strip removed.
- **Specular streak scenes.** A jittered floor is lit so that a light low on the horizon makes a streak.
  - `RotationInPlaneNoNewRandom.py` builds the floor once and lets the arrow keys turn the view.
  - `FromScratchRotation.py` rebuilds and relights the floor on the CPU whenever the view or the lighting changes.
  - `OptimizedFromScratch.py` keeps the geometry in pre-allocated arrays and caches it. It memoises the inverse rotation per angle pair and falls back from vertex arrays to immediate mode.
- **Trial-list scripts.** Each scans a folder listing for the stereo image pairs `theta_<t>_roughness_<r>_{left|right}_eye.png`, then builds and shuffles a trial list.
  - `FinalExperiments/SmoothStreak/Reference/ReferenceStreak.py` pairs a fixed reference condition with every condition.
  - `FinalExperiments/RoughStreak/ReferenceStick.py` shows every condition beside a tilted reference stick.
  - `FinalExperiments/SmoothStreak/ComparingSlantStreak.py` pairs every two distinct conditions, sides chosen by a coin.

## How the model is built

- **Modules.** There is one module per source file.
  - Code that several files share verbatim is modelled once in a shared module:
    - `BoxMesh`: `add_brick_faces` / `add_brick_face_to_lists`;
    - `FloorGrid`: the plain floor tessellation;
    - `StimulusFiles`: the file-name pattern, `get_image_pairs` and `load_and_crop_image`;
    - `SceneLighting`: the rotation matrices and the material key clamps.
  - `Common` holds points, the random-draw helpers, Python's `ceil`, `round` and float `%`, and `random.shuffle`.
- **Scene objects.** Each becomes a `class` whose methods change its fields in place, under `modifies` clauses.
  - The lists a method extends are `seq` fields.
  - The pre-allocated floor buffer of `OptimizedFromScratch.py` is an `array` filled by index.
  - Loops stay loops, each with the invariants that tie it to a specification function.
- **Numbers.** Coordinates are exact reals.
- **Randomness.** Each random source is an input stream, read in the order the source draws from it:
  - `random.random()` / `random.uniform`: `Common.Unit` values in [0, 1);
  - `random.gauss` and `np.random.normal`: unconstrained reals;
  - `random.shuffle`: Python's Fisher-Yates, fed by `randbelow` draws.
- **Numerics kept abstract.** `sqrt`, `sin` and `cos` are function parameters, with only the laws a property needs (for example, a positive argument has a positive root).
- **File system.** A folder is `Option<seq<string>>`: `None` when it does not exist, otherwise its listing.

## Model

| member | source | states |
|---|---|---|
| Common.Uniform | WhiteColumn.py:152-158 | `random.uniform(a, b)` from one `random.random()` draw lies between a and b, below b when a < b |
| Common.Ceil | ModernGL/ColumnAndPlane.py:72 | `math.ceil`: the least integer at or above x |
| Common.Round | ModernGL/ColumnAndPlane.py:149-150 | Python's `round` to an integer: within one half of x, exact on integers, and a tie goes to the even neighbour |
| Common.FMod | ModernGL/ColumnAndPlane.py:132-133 | Python's float `%` by a positive modulus lies in [0, m) and differs from x by a whole multiple of m |
| Common.Shuffle | FinalExperiments/SmoothStreak/Reference/ReferenceStreak.py:144 | `random.shuffle` with its `randbelow` draws: the same length and the same multiset of elements |
| Common.SwapKeepsMultiset | FinalExperiments/SmoothStreak/Reference/ReferenceStreak.py:144 | one swap of the shuffle keeps the multiset |
| Common.MapSeqMultiset | AnaglyphColumnExperiment.py:195 | two lists with the same elements have projections with the same elements: a shuffle keeps the multiset of every trial field |
| StimulusFiles.LeadingDigits | FinalExperiments/SmoothStreak/Reference/ReferenceStreak.py:73 | the count of leading digits a `\d+` run takes: every character before it is a digit and the character at it, if any, is not |
| StimulusFiles.LeadingDigitsOf | FinalExperiments/SmoothStreak/Reference/ReferenceStreak.py:73 | a run of digits followed by the end or by a non-digit is taken whole |
| StimulusFiles.GroupLengthSound | FinalExperiments/SmoothStreak/Reference/ReferenceStreak.py:73 | what the `(\d+_\d+)` group matches is digits, one underscore, digits, and it ends where the digits end |
| StimulusFiles.GroupLengthComplete | FinalExperiments/SmoothStreak/Reference/ReferenceStreak.py:73 | every digits-underscore-digits group followed by a non-digit is matched whole |
| StimulusFiles.DropPrefix | FinalExperiments/SmoothStreak/Reference/ReferenceStreak.py:76 | `re.match` anchors at the start: the rest is returned exactly when the name starts with the prefix, and prefix plus rest is the name |
| StimulusFiles.MatchRoughnessSound | FinalExperiments/SmoothStreak/Reference/ReferenceStreak.py:73 | a match of the second group and `_left_eye.png` gives a number group that the name continues with, followed by that tail |
| StimulusFiles.MatchRoughnessComplete | FinalExperiments/SmoothStreak/Reference/ReferenceStreak.py:73 | a number group followed by `_left_eye.png` and anything matches, with that group |
| StimulusFiles.MatchLeftEyeSound | FinalExperiments/SmoothStreak/Reference/ReferenceStreak.py:73-79 | a match returns two number groups, and the name starts with the left eye file of those two groups |
| StimulusFiles.MatchLeftEyeComplete | FinalExperiments/SmoothStreak/Reference/ReferenceStreak.py:73-79 | every name that starts with the left eye file of two number groups matches, whatever follows, and returns exactly those groups |
| StimulusFiles.DottedRoundTrip | FinalExperiments/SmoothStreak/Reference/ReferenceStreak.py:84 | writing a file-name group with '.' for '_' and back gives the group again, and the '.' form is a decimal |
| StimulusFiles.UnderscoredRoundTrip | FinalExperiments/SmoothStreak/Reference/ReferenceStreak.py:149-150 | writing a decimal with '_' for '.' gives a number group that reads back as the same decimal |
| StimulusFiles.ImagePairsStep | FinalExperiments/SmoothStreak/Reference/ReferenceStreak.py:75-84 | scanning one more file name adds its condition exactly when it is a left eye view whose right eye view is listed |
| StimulusFiles.GetImagePairs | FinalExperiments/SmoothStreak/Reference/ReferenceStreak.py:65-86 | no folder is FileNotFoundError; otherwise a list without repeats whose members are exactly the conditions with both eye views listed |
| StimulusFiles.ListOf | FinalExperiments/SmoothStreak/Reference/ReferenceStreak.py:86 | `list(theta_values)`: every member of the set exactly once, nothing else |
| StimulusFiles.ImagePairsExactly | FinalExperiments/SmoothStreak/Reference/ReferenceStreak.py:75-84 | a decimal condition is found iff its right eye file is listed and some listed name starts with its left eye file |
| StimulusFiles.FoundHasBothViews | FinalExperiments/SmoothStreak/Reference/ReferenceStreak.py:75-84 | every found condition has its right eye file listed and a listed name starting with its left eye file |
| StimulusFiles.BothViewsFound | FinalExperiments/SmoothStreak/Reference/ReferenceStreak.py:75-84 | a listed left eye view whose right eye view is listed puts its condition in the result |
| StimulusFiles.ImagePairsDecimal | FinalExperiments/SmoothStreak/Reference/ReferenceStreak.py:84 | every found condition is a pair of decimals ("0.000") |
| StimulusFiles.DistinctCount | FinalExperiments/SmoothStreak/Reference/ReferenceStreak.py:86 | in a list taken from a set every element occurs once |
| StimulusFiles.DistinctCardinality | FinalExperiments/SmoothStreak/Reference/ReferenceStreak.py:86 | such a list is as long as the set |
| StimulusFiles.LoadAndCrop | FinalExperiments/SmoothStreak/Reference/ReferenceStreak.py:148-168 | the path is the folder joined with the '_'-spelled eye file name, the crop is the full image size, and a left crop sits at -window_width/4 (-185), any other at +185 |
| StimulusFiles.LoadsListedImage | FinalExperiments/SmoothStreak/Reference/ReferenceStreak.py:82-84 | the right eye view loaded for a found condition is a file of the listing |
| ReferenceStreak.ParseReferenceImage | FinalExperiments/SmoothStreak/Reference/ReferenceStreak.py:89-99 | a name that does not match is ValueError naming it; a match gives two decimals |
| ReferenceStreak.ParseReferenceExactly | FinalExperiments/SmoothStreak/Reference/ReferenceStreak.py:89-99 | a name parses to the '.'-spelled groups t, r iff it starts with the left eye file of t and r |
| ReferenceStreak.ParseReferenceRefuses | FinalExperiments/SmoothStreak/Reference/ReferenceStreak.py:93-94 | a name that starts with no left eye file of two number groups is refused |
| ReferenceStreak.LoadedNameRoundTrip | FinalExperiments/SmoothStreak/Reference/ReferenceStreak.py:148-152 | the left eye file `load_and_crop_image` builds for a decimal condition parses back to that condition |
| ReferenceStreak.DefaultReference | FinalExperiments/SmoothStreak/Reference/ReferenceStreak.py:38 | the shipped `reference_image` parses to angle "0.0", roughness "0.000" |
| ReferenceStreak.DefaultReferenceName | FinalExperiments/SmoothStreak/Reference/ReferenceStreak.py:38 | the shipped reference is the left eye file of groups "0_0" and "0_000" |
| ReferenceStreak.ReferenceTrials | FinalExperiments/SmoothStreak/Reference/ReferenceStreak.py:137-142 | the list before the shuffle has 2 trials per condition, trial k being (reference, condition k/2) |
| ReferenceStreak.ReferenceTrialsCount | FinalExperiments/SmoothStreak/Reference/ReferenceStreak.py:139-142 | every trial has the reference first, and each condition is the comparison of 2 trials for each time it is listed |
| ReferenceStreak.AppendTrials | FinalExperiments/SmoothStreak/Reference/ReferenceStreak.py:137-142 | the nested append loop builds exactly that list |
| ReferenceStreak.ShuffledTrials | FinalExperiments/SmoothStreak/Reference/ReferenceStreak.py:144 | any rearrangement of it has 2 trials per found condition, all against the reference, each condition twice |
| ReferenceStreak.CreateTrialList | FinalExperiments/SmoothStreak/Reference/ReferenceStreak.py:102-145 | no folder or no pairs raise; a reference that does not parse, is not a found condition, or whose left eye file is not listed raises that error; otherwise 2 trials per found condition against the reference, shuffled; without a reference the first condition found is used |
| ReferenceStick.StickCoords | FinalExperiments/RoughStreak/ReferenceStick.py:69-78 | the stick's midpoint is (center_x, center_y - 150), its ends are symmetric about it, and end minus start is length times (sin, cos) of the angle |
| ReferenceStick.StickLengthIs | FinalExperiments/RoughStreak/ReferenceStick.py:69-78 | with sin² + cos² = 1 the stick is exactly `length` long |
| ReferenceStick.ReferenceSticks | FinalExperiments/RoughStreak/ReferenceStick.py:81-97 | both sticks are centred at (-window_width/4, -150); the left window's leans by -theta/2, the right window's by +theta/2, each 300 long |
| ReferenceStick.ReferenceSticksMirror | FinalExperiments/RoughStreak/ReferenceStick.py:86-92 | with an odd sine and an even cosine the right stick is the left one mirrored about x = -185 |
| ReferenceStick.LoadBesideStick | FinalExperiments/RoughStreak/ReferenceStick.py:144-158 | the path of the '_'-spelled eye file, half the image width, the full height, and x = +window_width/4 whatever side is asked |
| ReferenceStick.Doubled | FinalExperiments/RoughStreak/ReferenceStick.py:132-138 | the list before the shuffle: trial k is condition k/2, 2 per condition |
| ReferenceStick.DoubledCount | FinalExperiments/RoughStreak/ReferenceStick.py:135-138 | each condition occurs twice as often as it is listed |
| ReferenceStick.AppendTrials | FinalExperiments/RoughStreak/ReferenceStick.py:132-138 | the nested append loop builds exactly that list |
| ReferenceStick.CreateTrialList | FinalExperiments/RoughStreak/ReferenceStick.py:124-141 | no folder or no pairs raise; otherwise 2 times the found conditions, each exactly twice, shuffled |
| ComparingSlantStreak.OrientSnoc | FinalExperiments/SmoothStreak/ComparingSlantStreak.py:99-103 | one more trial oriented by its own coin extends the oriented list by that trial, as is or swapped |
| ComparingSlantStreak.RowTrials | FinalExperiments/SmoothStreak/ComparingSlantStreak.py:96-103 | row i up to column j holds 2(j - i - 1) trials when j > i + 1, none otherwise |
| ComparingSlantStreak.UpperLength | FinalExperiments/SmoothStreak/ComparingSlantStreak.py:95-103 | rows 0 .. i-1 of n conditions hold i(2n - 1 - i) trials |
| ComparingSlantStreak.AllTrialsLength | FinalExperiments/SmoothStreak/ComparingSlantStreak.py:95-103 | n conditions give n(n - 1) trials, so one condition gives none |
| ComparingSlantStreak.RowCount | FinalExperiments/SmoothStreak/ComparingSlantStreak.py:96-103 | in row i the pair of positions (a, b) occurs twice when a = i < b, and not at all otherwise |
| ComparingSlantStreak.RowCountStep | FinalExperiments/SmoothStreak/ComparingSlantStreak.py:97-103 | column m > i of row i adds its pair twice and nothing else |
| ComparingSlantStreak.UpperCount | FinalExperiments/SmoothStreak/ComparingSlantStreak.py:95-103 | over all rows below i the pair (a, b) occurs twice when a < b and a < i, otherwise never |
| ComparingSlantStreak.OrientCount | FinalExperiments/SmoothStreak/ComparingSlantStreak.py:100-103 | the coins only swap the sides of a trial: the counts of (c, d) and (d, c) together are what they were |
| ComparingSlantStreak.AppendTrials | FinalExperiments/SmoothStreak/ComparingSlantStreak.py:93-103 | the nested loop builds the rows in order, each trial oriented by its own coin |
| ComparingSlantStreak.AppendRow | FinalExperiments/SmoothStreak/ComparingSlantStreak.py:96-103 | the loop over j extends the list by row i, oriented |
| ComparingSlantStreak.AppendColumn | FinalExperiments/SmoothStreak/ComparingSlantStreak.py:97-103 | column j of row i adds comparison (i, j) when i < j and nothing otherwise |
| ComparingSlantStreak.AppendComparison | FinalExperiments/SmoothStreak/ComparingSlantStreak.py:99-103 | the repetition loop adds the two trials of one comparison, each (a, b) when its coin is below 0.5 and (b, a) otherwise |
| ComparingSlantStreak.UpperMembers | FinalExperiments/SmoothStreak/ComparingSlantStreak.py:95-103 | every trial pairs two listed conditions |
| ComparingSlantStreak.ShuffledLength | FinalExperiments/SmoothStreak/ComparingSlantStreak.py:105 | the shuffled list holds n(n - 1) trials for n found conditions |
| ComparingSlantStreak.ShuffledNoSelfPairs | FinalExperiments/SmoothStreak/ComparingSlantStreak.py:97-105 | no trial pairs a condition with itself |
| ComparingSlantStreak.ShuffledEachPair | FinalExperiments/SmoothStreak/ComparingSlantStreak.py:97-105 | each two different found conditions meet in exactly two trials, in either order |
| ComparingSlantStreak.ShuffledMembers | FinalExperiments/SmoothStreak/ComparingSlantStreak.py:97-105 | every trial pairs two found conditions |
| ComparingSlantStreak.ShuffledTrials | FinalExperiments/SmoothStreak/ComparingSlantStreak.py:93-105 | the shuffled list has all these properties together |
| ComparingSlantStreak.CreateTrialList | FinalExperiments/SmoothStreak/ComparingSlantStreak.py:87-106 | no folder or no pairs raise; otherwise n(n - 1) trials, each two different conditions twice in random sides, none against itself, shuffled |
| FloorGrid.GridVertices | AnaglyphColumnExperiment.py:60-74 | the floor has six vertices per cell |
| FloorGrid.RowsLength | AnaglyphColumnExperiment.py:60-65 | the first i rows of the loop emit 6 * i * nz vertices |
| FloorGrid.RowsAt | AnaglyphColumnExperiment.py:60-74 | the loops put corner c of cell (i, j) into slot 6 * (i * nz + j) + c |
| FloorGrid.RowsAreGrid | AnaglyphColumnExperiment.py:60-74 | the nested loops emit exactly the floor, cell by cell in row order |
| FloorGrid.CellAt | AnaglyphColumnExperiment.py:62-74 | cell (i, j) fills the six slots from 6 * (i * nz + j) with its two triangles, in the corner order the loop lists |
| FloorGrid.GridShape | AnaglyphColumnExperiment.py:67-70 | every floor vertex lies at y = 0, six per cell |
| FloorGrid.GridInRectangle | AnaglyphColumnExperiment.py:53-65 | with non-negative steps, every floor vertex lies in the rectangle the grid covers |
| FloorGrid.CellwiseNormalsStep | AnaglyphColumnExperiment.py:68-76 | one more cell appends its normal six times |
| FloorGrid.CellNormalAt | AnaglyphColumnExperiment.py:68-76 | each of the six vertices of cell (i, j) carries that cell's normal |
| FloorGrid.EmitGrid | AnaglyphColumnExperiment.py:52-76 | the nested loop yields the floor and one normal per cell, repeated for its six vertices |
| FloorGrid.EmitGridRow | AnaglyphColumnExperiment.py:61-76 | a pass of the outer loop appends row i and its nz cells' normals |
| FloorGrid.EmitGridCell | AnaglyphColumnExperiment.py:62-76 | the inner loop's body appends cell (i, j) and six copies of its normal |
| FloorGrid.VertexwiseNormalsStep | WhiteColumn.py:95-104 | one more cell appends the next six per-vertex normals |
| FloorGrid.GaussJitteredNormal | WhiteColumn.py:79-84 | the normalised (nx, 1, 0) points upwards, has no z part and leans nx per unit of height |
| FloorGrid.UnitNormal | RotationInPlaneNoNewRandom.py:74-80 | the normalised (nx, 1, nz) points upwards and leans nx, nz per unit of height |
| FloorGrid.GaussNormalsUp | WhiteColumn.py:79-104 | every normal of a Gaussian-jittered floor points upwards and has no z part |
| FloorGrid.EmitJitteredGrid | RotationInPlaneNoNewRandom.py:82-101 | the jittered nested loop yields the floor and a fresh normal per vertex, in emission order |
| FloorGrid.EmitJitteredRow | RotationInPlaneNoNewRandom.py:83-101 | a pass of the outer loop appends row i and its 6 * nz normals |
| FloorGrid.EmitJitteredCell | RotationInPlaneNoNewRandom.py:84-101 | the inner loop's body appends cell (i, j) and its next six normals |
| BoxMesh.FaceVertices | ModernGL/ColumnAndPlane.py:238-278 | each face is two triangles whose six corners are corners of the box lying in that face's plane |
| BoxMesh.BoxVertices | ModernGL/ColumnAndPlane.py:237-278 | a brick is 36 box corners, block k of six lying on the k-th face in front, back, left, right, top, bottom order |
| BoxMesh.BoxNormals | ModernGL/ColumnAndPlane.py:243-278 | block k of six normals is the fixed axis normal of the k-th face |
| BoxMesh.MeshShape | ModernGL/ColumnAndPlane.py:237-278 | bricks emitted one after another give exactly 36 vertices and 36 normals each |
| BoxMesh.MeshAt | ModernGL/ColumnAndPlane.py:237-278 | brick k occupies the 36 slots from 36 * k |
| BoxMesh.MeshLists.AddBrickFaces | ModernGL/ColumnAndPlane.py:237-278 | appends the brick's 36 vertices and 36 normals after what the lists already hold, changing nothing else |
| BoxMesh.MeshLists.AddFace | ModernGL/ColumnAndPlane.py:239-243 | appends one face's six corners and six copies of its normal |
| BoxMesh.MeshLists.constructor | ModernGL/ColumnAndPlane.py:116-117 | a new pair of vertex and normal lists starts empty |
| ColumnAndPlane.SizeForDistance | ModernGL/ColumnAndPlane.py:175-176 | the scale factor times the reference distance 15 is the distance, so it is 1 at the reference distance |
| ColumnAndPlane.MaxFootprint | ModernGL/ColumnAndPlane.py:59-69 | the running maximum is at least every distance's footprint, never negative, and is 0 or one of them |
| ColumnAndPlane.NiceSizeBounds | ModernGL/ColumnAndPlane.py:71-72 | the square size is three footprints rounded up to the next multiple of 0.5, by less than 0.5 |
| ColumnAndPlane.RequiredSquareSize | ModernGL/ColumnAndPlane.py:58-73 | the loop returns three times the widest footprint, rounded up to a multiple of 0.5 |
| ColumnAndPlane.ColumnFootprint | ModernGL/ColumnAndPlane.py:62-68 | the larger of total width and total depth at a distance, offsets counted on both sides |
| ColumnAndPlane.DefaultSquareSize | ModernGL/ColumnAndPlane.py:8 | for distances 3 and 25 the widest footprint is 22/15 and the squares are 4.5 wide |
| ColumnAndPlane.BoardLayout | ModernGL/ColumnAndPlane.py:111-137 | int(60 / size) + 4 squares per side (at least 4), aligned on the first column's z, the corridor index 0 |
| ColumnAndPlane.RowCellsExact | ModernGL/ColumnAndPlane.py:140-159 | a square of row i is emitted before column j exactly when it is outside the corridor and white |
| ColumnAndPlane.BoardCellsExact | ModernGL/ColumnAndPlane.py:139-159 | the first i rows emit exactly the squares outside the corridor with an odd grid index sum |
| ColumnAndPlane.CellsExact | ModernGL/ColumnAndPlane.py:139-170 | a square is drawn iff it lies on the board, its column is not the corridor's and its grid indices sum to an odd number |
| ColumnAndPlane.SquaresShape | ModernGL/ColumnAndPlane.py:160-170 | every drawn square contributes six vertices, all at y = 0 |
| ColumnAndPlane.SquareAt | ModernGL/ColumnAndPlane.py:160-170 | the k-th drawn square occupies the six slots from 6 * k |
| ColumnAndPlane.BrickBoxShaped | ModernGL/ColumnAndPlane.py:196-226 | every brick is 4·sf/80 high, 0.8·sf wide, 0.08·sf deep, its centre within 0.04·sf of the column position |
| ColumnAndPlane.ColumnBricksShaped | ModernGL/ColumnAndPlane.py:208-229 | a column has at most one brick per layer, 80 in all, each of the brick shape |
| ColumnAndPlane.DrawOrder | ModernGL/ColumnAndPlane.py:338-340 | the drawn distances are exactly the listed ones that have a buffer, no more of them than listed |
| ColumnAndPlane.EmitBoardRow | ModernGL/ColumnAndPlane.py:140-170 | a pass of the outer loop appends the drawn squares of row i and six up normals for each |
| ColumnAndPlane.ColumnRenderer.PositionAlongVector | ModernGL/ColumnAndPlane.py:54-56 | distance 0 is the camera; moving d1 + d2 is moving d2 on from the point at d1 |
| ColumnAndPlane.ColumnRenderer.PositionAdditive | ModernGL/ColumnAndPlane.py:54-56 | positions along the line add up: the point at d1 + d2 is d2 further along from the point at d1 |
| ColumnAndPlane.ColumnRenderer.ColumnSpecShape | ModernGL/ColumnAndPlane.py:183-235 | a column has 36 vertices per brick, at most 36 * 80, and as many normals as vertices |
| ColumnAndPlane.ColumnRenderer.constructor | ModernGL/ColumnAndPlane.py:13-46 | the square size is 4.5, the floor and every column built, and buffers exist for exactly the non-empty ones |
| ColumnAndPlane.ColumnRenderer.GenerateCheckerboardFloor | ModernGL/ColumnAndPlane.py:111-173 | the floor is the drawn squares in visiting order with one up normal per vertex; nothing else changes |
| ColumnAndPlane.ColumnRenderer.GenerateColumnGeometryForDistance | ModernGL/ColumnAndPlane.py:183-235 | the reseeded loop yields the bricks of the column at d from the fixed stream, so equal distances give equal geometry |
| ColumnAndPlane.ColumnRenderer.GenerateAllColumnGeometries | ModernGL/ColumnAndPlane.py:178-181 | one geometry per good distance, each that distance's column; nothing else changes |
| ColumnAndPlane.ColumnRenderer.CreateVaos | ModernGL/ColumnAndPlane.py:280-302 | the floor has a buffer iff it has vertices, and a column iff its geometry has vertices |
| ColumnAndPlane.ColumnRenderer.RenderFrame | ModernGL/ColumnAndPlane.py:323-340 | the floor is drawn iff it has a buffer, then the good distances that have one, in order |
| AnaglyphColumn.FloorShape | AnaglyphColumnExperiment.py:52-76 | the floor is 15000 vertices at y = 0, each with the upward normal |
| AnaglyphColumn.LayerBrightness | AnaglyphColumnExperiment.py:101-105 | a brick's brightness is always within [0.4, 1.0] |
| AnaglyphColumn.KeptLayer | AnaglyphColumnExperiment.py:95-105 | a kept layer contributes one placement and moves the random stream on by four draws |
| AnaglyphColumn.PlacementsShape | AnaglyphColumnExperiment.py:91-124 | at most one brick per layer, layers strictly increasing from the top, brightness in [0.4, 1.0] |
| AnaglyphColumn.LayerStep | AnaglyphColumnExperiment.py:88-93 | each layer is exactly one brick height, its top above its bottom |
| AnaglyphColumn.EntryShape | AnaglyphColumnExperiment.py:92-124 | every entry holds 36 vertices and normals of a box from -layer·h down to -(layer+1)·h, h = 15/300 |
| AnaglyphColumn.IndexSplit | AnaglyphColumnExperiment.py:185-191 | the n-th appended trial has disparity index n / 9 and distance index (n / 3) % 3 |
| AnaglyphColumn.Decompose | AnaglyphColumnExperiment.py:185-191 | every list position below 81 is reached by exactly one (disparity, distance, repeat) triple |
| AnaglyphColumn.Distinct | AnaglyphColumnExperiment.py:181-182 | the nine disparities and the three distances are pairwise distinct |
| AnaglyphColumn.ConditionCountPrefix | AnaglyphColumnExperiment.py:185-193 | the first n trials hold each condition as many times as its block overlaps them |
| AnaglyphColumn.ConditionBlock | AnaglyphColumnExperiment.py:185-193 | trial m has condition (a, b) iff it is one of the three repeats of block 9a + 3b |
| AnaglyphColumn.IdCountPrefix | AnaglyphColumnExperiment.py:191 | numbering by list length makes the first n ids 1 .. n, each once |
| AnaglyphColumn.DefaultConditionList | AnaglyphColumnExperiment.py:184-193 | the triple loop yields the 81 trials in disparity, distance, repeat order, numbered 1 .. 81 |
| AnaglyphColumn.TrialsPrefixStep | AnaglyphColumnExperiment.py:188-193 | each pass of the innermost loop appends the next trial of the list |
| AnaglyphColumn.DefaultTrialsShape | AnaglyphColumnExperiment.py:184-193 | 81 trials, the m-th numbered m + 1, all shown for 2.0 s |
| AnaglyphColumn.ShuffledTrials | AnaglyphColumnExperiment.py:179-195 | after any shuffle: 81 trials, each condition three times, each id once, all 2.0 s |
| AnaglyphColumn.ShuffledTimes | AnaglyphColumnExperiment.py:192-195 | a shuffle keeps the presentation time 2.0 of every trial |
| AnaglyphColumn.ShuffledConditions | AnaglyphColumnExperiment.py:181-195 | after any shuffle each of the 27 conditions occurs exactly three times |
| AnaglyphColumn.ShuffledIds | AnaglyphColumnExperiment.py:191-195 | after any shuffle each id 1 .. 81 occurs exactly once |
| AnaglyphColumn.AnaglyphCamera | AnaglyphColumnExperiment.py:212-223 | the eye sits half a separation left or right of the point it looks at, both moved by 0.01 * disparity |
| AnaglyphColumn.AnaglyphFrame | AnaglyphColumnExperiment.py:275-313 | the two look-at points mirror each other, the eyes are a separation plus 0.01 * dp apart, red for the left eye and cyan for the right |
| AnaglyphColumn.ColumnDrawsPositions | AnaglyphColumnExperiment.py:225-255 | whatever the filter, a column pass draws the stored vertices in order, moved back by the column distance |
| AnaglyphColumn.ResponseLetters | AnaglyphColumnExperiment.py:374-380 | the keys c, f and s are recorded as C, F and S |
| AnaglyphColumn.AnaglyphColumnExperiment.constructor | AnaglyphColumnExperiment.py:12-23 | the floor and the column are built, and the trial and response lists start empty |
| AnaglyphColumn.AnaglyphColumnExperiment.GenerateFloorGeometry | AnaglyphColumnExperiment.py:52-76 | the floor is the 50 by 50 grid with one upward normal per vertex; nothing else changes |
| AnaglyphColumn.AnaglyphColumnExperiment.BrickEntry | AnaglyphColumnExperiment.py:107-124 | the entry holds the brick box around its offsets, its brightness and its z offset |
| AnaglyphColumn.AnaglyphColumnExperiment.GenerateColumnGeometry | AnaglyphColumnExperiment.py:78-124 | brick_data is one entry per kept layer from the top down, as the draws decide; the column lists stay empty; nothing else changes |
| AnaglyphColumn.AnaglyphColumnExperiment.CreateDefaultConditions | AnaglyphColumnExperiment.py:179-195 | the trials are a rearrangement of the 81 default trials; nothing else changes |
| AnaglyphColumn.AnaglyphColumnExperiment.RenderColumn | AnaglyphColumnExperiment.py:225-255 | the pass draws every brick's vertices moved back by the distance, coloured brightness times filter |
| AnaglyphColumn.AnaglyphColumnExperiment.RenderFloor | AnaglyphColumnExperiment.py:257-273 | the pass draws every floor vertex in place with its normal, coloured 0.3 times the filter |
| AnaglyphColumn.AnaglyphColumnExperiment.RenderAnaglyphFrame | AnaglyphColumnExperiment.py:275-313 | each eye gets its camera, then its column pass and floor pass through its own filter |
| AnaglyphColumn.AnaglyphColumnExperiment.CollectResponse | AnaglyphColumnExperiment.py:374-393 | escape records nothing and returns None; otherwise the first key, upper-cased, is recorded once with the trial's fields; only experiment_data changes |
| WhiteColumn.FloorShape | WhiteColumn.py:70-104 | the floor is 60000 vertices, all at y = 0 |
| WhiteColumn.FloorNormalsShape | WhiteColumn.py:79-104 | one jittered normal per vertex, each pointing upwards with no z part |
| WhiteColumn.Brightness | WhiteColumn.py:156-160 | a brick's brightness always lies in [0.1, 1.0] |
| WhiteColumn.LayersShape | WhiteColumn.py:134-207 | at most two bricks per layer, layers non-decreasing from the top, each brick of the column's depth, its z-centre within 0.3 of -20, whole or 0.7-wide |
| WhiteColumn.SplitHalves | WhiteColumn.py:146-163 | the halves of a split layer sit at mirrored base offsets -0.5 and +0.5, each jittered by at most 0.15, 0.98 wide |
| WhiteColumn.EntryShape | WhiteColumn.py:136-207 | each entry holds 36 vertices and normals of a box one brick height (15/500) tall, of its placement's width and z-centre |
| WhiteColumn.WholeStep | WhiteColumn.py:180-207 | a whole layer contributes one brick and takes five draws |
| WhiteColumn.SplitStep | WhiteColumn.py:144-179 | a split layer contributes its two halves, left then right, and takes eight draws |
| WhiteColumn.HalfEntriesPair | WhiteColumn.py:146-179 | the two passes of the split loop yield the left half's entry, then the right half's |
| WhiteColumn.WhiteColumnScene.constructor | WhiteColumn.py:8-22 | the floor and the column are built and both angles start at 0 |
| WhiteColumn.WhiteColumnScene.GenerateFloorGeometry | WhiteColumn.py:70-104 | the floor is the 100 by 100 grid with one Gaussian-jittered normal per vertex; nothing else changes |
| WhiteColumn.WhiteColumnScene.BrickEntry | WhiteColumn.py:191-207 | the entry holds the box of the given width around its centre and its brightness |
| WhiteColumn.WhiteColumnScene.SplitLayer | WhiteColumn.py:146-179 | the split loop yields the two halves' entries from six consecutive draws |
| WhiteColumn.WhiteColumnScene.SplitHalfEntry | WhiteColumn.py:148-179 | one pass of the split loop: half splitI's entry from three draws |
| WhiteColumn.WhiteColumnScene.GenerateColumnGeometry | WhiteColumn.py:106-207 | brick_data is the bricks the draws decide, layer by layer from the top; the column lists stay empty; nothing else changes |
| VerticalColumn.FloorShape | VerticalColumn.py:68-104 | the floor is 375000 vertices, all at y = 0 |
| VerticalColumn.FloorNormalsShape | VerticalColumn.py:78-104 | one jittered normal per vertex, each pointing upwards with no z part |
| VerticalColumn.SlabFaces | VerticalColumn.py:130-156 | a segment is the front, back, left and right faces of its box, 24 corners with those faces' normals, no top or bottom |
| VerticalColumn.ColumnVertices | VerticalColumn.py:118-156 | the column holds 24 vertices per emitted segment |
| VerticalColumn.ColumnVerticesStep | VerticalColumn.py:118-156 | each pass of the loop appends exactly that segment's slab |
| VerticalColumn.ColumnNormals | VerticalColumn.py:135-156 | the column holds 24 normals per emitted segment |
| VerticalColumn.ColumnNormalsStep | VerticalColumn.py:135-156 | each pass of the loop appends exactly one slab's normals |
| VerticalColumn.SegmentAt | VerticalColumn.py:118-156 | segment i occupies the 24 slots from 24 * i |
| VerticalColumn.SlabExtent | VerticalColumn.py:119-128 | segment i spans z from -5 + 0.016 i to -5 + 0.016 (i + 1), y from 0 down to -15, and is 2 wide whatever its shift |
| VerticalColumn.SlabsAbut | VerticalColumn.py:120-128 | consecutive segments meet exactly in z, whatever their shifts |
| VerticalColumn.ColumnDepthRange | VerticalColumn.py:115-128 | the 50 segments cover z from -5 to -4.2 and no further |
| VerticalColumn.WhiteColumnScene.constructor | VerticalColumn.py:7-21 | the floor takes the first 375000 Gaussian draws, the column the next 50, and both angles start at 0 |
| VerticalColumn.WhiteColumnScene.GenerateFloorGeometry | VerticalColumn.py:68-104 | the floor is the 250 by 250 grid with one Gaussian-jittered normal per vertex; nothing else changes |
| VerticalColumn.WhiteColumnScene.GenerateColumnGeometry | VerticalColumn.py:106-156 | the column is the 50 slabs in order, segment i shifted by its own draw; nothing else changes |
| VerticalColumn.WhiteColumnScene.AddSlabFaces | VerticalColumn.py:130-156 | appends one slab's four faces and their normals; nothing else changes |
| SceneLighting.RotXPreserves | FromScratchRotation.py:65-73 | a rotation about x keeps x and, for a true cosine-sine pair, the length |
| SceneLighting.RotZPreserves | FromScratchRotation.py:75-83 | a rotation about z keeps z and, for a true cosine-sine pair, the length |
| SceneLighting.InverseRotationAtRest | FromScratchRotation.py:85-99 | with both angles at 0 the inverse rotation is the identity and leaves light and camera where they are |
| SceneLighting.RestRotations | FromScratchRotation.py:85-89 | the two rotations at angle 0 multiply to the identity |
| SceneLighting.RotationAtRest | FromScratchRotation.py:85-99 | a view rotation equal to Rz(-az) · Rx(-ax) for every angle pair leaves every point in place at angles 0 |
| SceneLighting.RoughnessUp | FromScratchRotation.py:404-406 | key 3 raises roughness by 0.01, never above 0.2, keeping an in-range value in range |
| SceneLighting.RoughnessDown | FromScratchRotation.py:407-409 | key 4 lowers roughness by 0.01, never below 0.01, keeping an in-range value in range |
| SceneLighting.ShininessUp | FromScratchRotation.py:410-412 | key 5 raises shininess by 20, never above 500, keeping an in-range value in range |
| SceneLighting.ShininessDown | FromScratchRotation.py:413-415 | key 6 lowers shininess by 20, never below 10, keeping an in-range value in range |
| SceneLighting.RoughnessStepsCancel | FromScratchRotation.py:404-409 | an unclipped roughness step up and back down returns to the start |
| SceneLighting.ShininessStepsCancel | FromScratchRotation.py:410-415 | an unclipped shininess step up and back down returns to the start |
| SceneLighting.KeyedRoughness | FromScratchRotation.py:404-409 | one pass of the key loop keeps roughness in range, moves it only in the pressed direction, and keys 3 and 4 together cancel when unclipped |
| SceneLighting.KeyedShininess | FromScratchRotation.py:410-415 | one pass of the key loop keeps shininess in range, moves it only in the pressed direction, and keys 5 and 6 together cancel when unclipped |
| SceneLighting.DrawImmediate | FromScratchRotation.py:276-291 | vertex i is sent with colour i and normal i, one per stored vertex, in list order |
| FromScratchRotation.FloorShape | FromScratchRotation.py:190-226 | the floor is 60000 vertices at y = 0 with x and z in [-20, 20] |
| FromScratchRotation.JitteredNormals | FromScratchRotation.py:202-207 | one regeneration's normals, two fresh draws each, all pointing upwards |
| FromScratchRotation.JitteredNormalsStep | FromScratchRotation.py:210-233 | one more cell appends its six normals, from the next twelve draws |
| FromScratchRotation.CellNormals | FromScratchRotation.py:228-233 | n1 .. n6 of a cell are six normals drawn one after the other |
| FromScratchRotation.CellColours | FromScratchRotation.py:236-254 | if every vertex of a cell shades, each keeps its own colour; if any raises, all six are grey 0.1 |
| FromScratchRotation.LitColours | FromScratchRotation.py:235-259 | one colour per floor vertex |
| FromScratchRotation.LitColoursAt | FromScratchRotation.py:235-259 | the six colour slots of cell m are that cell's try block |
| FromScratchRotation.LitColoursStep | FromScratchRotation.py:257-259 | one more cell appends its try block and leaves the earlier colours alone |
| FromScratchRotation.EarlierSlot | FromScratchRotation.py:257-259 | appending a cell keeps every earlier colour |
| FromScratchRotation.LastCellSlot | FromScratchRotation.py:257-259 | a slot of the appended cell takes its colour from that cell's try block |
| FromScratchRotation.EmitLitFloor | FromScratchRotation.py:210-259 | the nested loop yields the grid, the next draws' normals and each cell's try-block colours |
| FromScratchRotation.EmitLitRow | FromScratchRotation.py:211-259 | a pass of the outer loop appends row i to all three lists |
| FromScratchRotation.EmitLitCell | FromScratchRotation.py:212-259 | the inner loop's body appends cell (i, j) to all three lists |
| FromScratchRotation.AppendCellColours | FromScratchRotation.py:236-259 | the try block's six colours are appended for the cell |
| FromScratchRotation.EmitCell | FromScratchRotation.py:212-233 | the cell's six corners in the floor's order and six normals from the draws at c |
| FromScratchRotation.KeyDrawsZero | FromScratchRotation.py:389-431 | a pass of the key loop draws new numbers iff a regenerating key is pressed, at most one floor per key |
| FromScratchRotation.SpecularStreakScene.constructor | FromScratchRotation.py:9-26 | both angles 0, original light (0, 1, -100) and camera (0, 1.5, 0), shininess 128, roughness 0.05, Blinn-Phong, one floor built and lit, and the view rotation is Rz(-az) · Rx(-ax); with cos 0 = 1 and sin 0 = 0 the placed light and camera are exactly the originals |
| FromScratchRotation.SpecularStreakScene.UpdateLightingPositions | FromScratchRotation.py:91-99 | light and camera are the originals carried by the view rotation of the current angles; nothing else changes |
| FromScratchRotation.SpecularStreakScene.LightsAreInverseRotated | FromScratchRotation.py:85-99 | in a valid scene the light and camera are the originals carried by Rz(-angle_z) · Rx(-angle_x) |
| FromScratchRotation.SpecularStreakScene.GenerateFloorGeometry | FromScratchRotation.py:186-259 | re-places light and camera, then rebuilds the lit floor from the next draws |
| FromScratchRotation.SpecularStreakScene.RenderGlossyFloor | FromScratchRotation.py:276-291 | every stored vertex is sent with its colour and normal, in order |
| FromScratchRotation.SpecularStreakScene.UpdateLightingParams | FromScratchRotation.py:293-305 | only the supplied height, roughness and shininess change, then the floor is regenerated |
| FromScratchRotation.SpecularStreakScene.UpdateAngles | FromScratchRotation.py:307-318 | the steps are added; the floor is regenerated only when an angle changed, else nothing else changes |
| FromScratchRotation.SpecularStreakScene.HandleKeys | FromScratchRotation.py:383-431 | escape or q quits with nothing changed; else each key present acts once in loop order, the state stays valid, and each regenerating key costs one floor of draws |
| FromScratchRotation.SpecularStreakScene.RotationKeys | FromScratchRotation.py:390-397 | left and right turn z by 10 degrees, up and down x by 1 |
| FromScratchRotation.SpecularStreakScene.HeightKeys | FromScratchRotation.py:400-403 | keys 1 and 2 move the light up or down 2, nothing else of the light |
| FromScratchRotation.SpecularStreakScene.RoughnessKeys | FromScratchRotation.py:404-409 | keys 3 and 4 step roughness within [0.01, 0.2] |
| FromScratchRotation.SpecularStreakScene.ShininessKeys | FromScratchRotation.py:410-415 | keys 5 and 6 step shininess within [10, 500] |
| FromScratchRotation.SpecularStreakScene.DepthKeys | FromScratchRotation.py:416-423 | keys 7 and 8 move the light 5 further or nearer, each regenerating |
| FromScratchRotation.SpecularStreakScene.MoveLight | FromScratchRotation.py:416-419 | the light moves by dz along z and a fresh floor is built |
| FromScratchRotation.SpecularStreakScene.ModelKeys | FromScratchRotation.py:424-431 | w toggles the lighting model, and w and r each regenerate |
| OptimizedFromScratch.FloorShape | OptimizedFromScratch.py:176-222 | the static floor has 25 · 100 · 6 = 15000 slots, every vertex at y = 0 with x in [-5, 5] and z in [-20, 0] |
| OptimizedFromScratch.SeededNormals | OptimizedFromScratch.py:192-198 | one normal per vertex, each pointing upwards, y having been forced to 1 before normalising |
| OptimizedFromScratch.FillFloorVertices | OptimizedFromScratch.py:182-222 | the pre-allocated array of nx · nz · 2 · 3 slots ends holding exactly the grid's triangles, cell by cell, in loop order |
| OptimizedFromScratch.FillRow | OptimizedFromScratch.py:202-222 | after row i the filled prefix is the first i + 1 rows of cells and every later slot is still zero |
| OptimizedFromScratch.FillCell | OptimizedFromScratch.py:203-222 | one cell extends the filled prefix by its six corners and leaves the later slots zero |
| OptimizedFromScratch.WriteCell | OptimizedFromScratch.py:209-220 | the two slice assignments write the cell's two triangles into slots idx .. idx + 5 and change no other slot |
| OptimizedFromScratch.OptimizedSpecularStreakScene.StaticFloor | OptimizedFromScratch.py:171-225 | the geometry the generator builds has as many normals as vertices, 6 · nx · nz of each |
| OptimizedFromScratch.OptimizedSpecularStreakScene.Shaded | OptimizedFromScratch.py:227-343 | the lighting yields one colour per vertex |
| OptimizedFromScratch.OptimizedSpecularStreakScene.constructor | OptimizedFromScratch.py:73-98 | angles start at 0, the original light and camera and the material are set, vertex arrays are on, the view rotation is Rz(-az) · Rx(-ax), and the floor is generated so the rotation memo holds the (0, 0) matrix and the geometry cache is the static floor; with cos 0 = 1 and sin 0 = 0 the placed light and camera are exactly the originals |
| OptimizedFromScratch.OptimizedSpecularStreakScene.GetInverseRotationMatrix | OptimizedFromScratch.py:149-160 | the result is always the view rotation of the current angles; the memo gains the current key and stays sound (every stored matrix is that of its key), old keys untouched |
| OptimizedFromScratch.OptimizedSpecularStreakScene.CacheIsInverseRotation | OptimizedFromScratch.py:149-169 | in a valid scene every memoised matrix is Rz(-az) · Rx(-ax) of its key, and the light and camera are the originals carried by that product for the current angles |
| OptimizedFromScratch.OptimizedSpecularStreakScene.UpdateLightingPositions | OptimizedFromScratch.py:162-169 | the light and camera become the originals carried by the memoised view rotation of the current angles |
| OptimizedFromScratch.OptimizedSpecularStreakScene.GenerateFloorGeometryStatic | OptimizedFromScratch.py:171-225 | a cached pair is returned as is, so repeated calls give the same geometry; otherwise the static floor is built and cached |
| OptimizedFromScratch.OptimizedSpecularStreakScene.GenerateFloorGeometry | OptimizedFromScratch.py:345-361 | afterwards the light is placed, the geometry is cached, and the stored floor is the static floor lit with the current lighting |
| OptimizedFromScratch.OptimizedSpecularStreakScene.StoreLitFloor | OptimizedFromScratch.py:351-357 | the stored vertices, normals and colours are the static floor and its lighting |
| OptimizedFromScratch.OptimizedSpecularStreakScene.RenderGlossyFloor | OptimizedFromScratch.py:374-386 | vertex arrays are used while both flags allow them; a failure switches both flags to immediate mode until the v key toggles them back, and that frame is drawn in immediate mode |
| OptimizedFromScratch.OptimizedSpecularStreakScene.RenderImmediateMode | OptimizedFromScratch.py:417-429 | every stored vertex is issued once, in order, with its own colour and normal |
| OptimizedFromScratch.OptimizedSpecularStreakScene.UpdateLightingParams | OptimizedFromScratch.py:431-444 | only the supplied height, roughness or shininess changes, and the floor is relit with the new values |
| OptimizedFromScratch.OptimizedSpecularStreakScene.UpdateAngles | OptimizedFromScratch.py:446-472 | the angles move by the deltas; with no change nothing else changes, otherwise the memo is refreshed for the new key and the floor relit |
| OptimizedFromScratch.OptimizedSpecularStreakScene.Relight | OptimizedFromScratch.py:456-472 | the stale matrix of the new key is dropped and recomputed, and the cached floor is relit for the new angles |
| OptimizedFromScratch.OptimizedSpecularStreakScene.HandleKeys | OptimizedFromScratch.py:536-591 | escape or q quits with nothing changed; otherwise every key present acts once: arrows by 10 about z and 1 about x, light height by 2, roughness and shininess within their clamps, light depth by 5, w and v toggle, and the scene stays consistent |
| OptimizedFromScratch.OptimizedSpecularStreakScene.RotationKeys | OptimizedFromScratch.py:544-551 | left and right turn angle z by 10, up and down turn angle x by 1 |
| OptimizedFromScratch.OptimizedSpecularStreakScene.LightingKeys | OptimizedFromScratch.py:554-577 | keys 1 to 8 move the light height by 2 and its depth by 5 and step roughness and shininess within their clamps |
| OptimizedFromScratch.OptimizedSpecularStreakScene.MoveLight | OptimizedFromScratch.py:570-577 | the light's depth moves by the given step and the floor is relit |
| OptimizedFromScratch.OptimizedSpecularStreakScene.MaterialKeys | OptimizedFromScratch.py:554-569 | keys 1 to 6 change the light height and step roughness and shininess within their clamps; the depth is untouched |
| OptimizedFromScratch.OptimizedSpecularStreakScene.HeightKeys | OptimizedFromScratch.py:554-557 | keys 1 and 2 raise and lower the light by 2 and change nothing else of the lighting |
| OptimizedFromScratch.OptimizedSpecularStreakScene.RoughnessKeys | OptimizedFromScratch.py:558-563 | keys 3 and 4 step the roughness up or down by 0.01 within [0.01, 0.2] |
| OptimizedFromScratch.OptimizedSpecularStreakScene.ShininessKeys | OptimizedFromScratch.py:564-569 | keys 5 and 6 step the shininess up or down by 20 within [10, 500] |
| OptimizedFromScratch.OptimizedSpecularStreakScene.ToggleKeys | OptimizedFromScratch.py:578-591 | w flips the lighting model, v flips the drawing path and its name, r rebuilds; the scene stays consistent |
| OptimizedFromScratch.OptimizedSpecularStreakScene.WardAndPathKeys | OptimizedFromScratch.py:578-587 | w flips the lighting model and v flips the drawing path with the method name following it |
| OptimizedFromScratch.OptimizedSpecularStreakScene.TogglePath | OptimizedFromScratch.py:583-587 | the vertex-array flag flips and the method name is set to agree with it |
| OptimizedFromScratch.OptimizedSpecularStreakScene.ToggleWard | OptimizedFromScratch.py:578-582 | the lighting model flips and the floor is relit with it |
| OptimizedFromScratch.OptimizedSpecularStreakScene.Rebuild | OptimizedFromScratch.py:588-591 | dropping the geometry cache and generating again leaves the scene consistent, the cached floor being rebuilt to the same static floor |
| RotationInPlaneNoNewRandom.PlaneNormalTilt | RotationInPlaneNoNewRandom.py:74-80 | every jittered normal points upwards and leans at most 0.7 in x and 0.05 in z per unit of height |
| RotationInPlaneNoNewRandom.SpecularStreakScene.constructor | RotationInPlaneNoNewRandom.py:7-19 | the floor is generated once at construction and both angles start at 0 |
| RotationInPlaneNoNewRandom.SpecularStreakScene.GenerateFloorGeometry | RotationInPlaneNoNewRandom.py:64-101 | the stored vertices are the 100 by 100 grid's triangles and normal k is the jittered normal from draws 2k and 2k + 1 |
| RotationInPlaneNoNewRandom.SpecularStreakScene.RenderGlossyFloor | RotationInPlaneNoNewRandom.py:150-172 | every stored vertex is issued once, in order, in white with its own normal |
| RotationInPlaneNoNewRandom.SpecularStreakScene.HandleKeys | RotationInPlaneNoNewRandom.py:248-264 | escape or q quits with nothing changed; otherwise each arrow moves one angle by a degree and the floor, and so its random normals, stay as they were |
| RotationInPlaneNoNewRandom.SceneFloorShape | RotationInPlaneNoNewRandom.py:64-101 | the stored floor has 60000 vertices flat in [-20, 20] by [-20, 20] and every normal points upwards within the jitter's lean |

## Left out

- OpenGL, ModernGL and pyglet calls are foreign calls and are not modelled: state setup, `glBegin`/`glVertex3f`, materials, `gluLookAt`, colour masks, buffer and shader creation. Drawing is modelled as the sequence of (colour, normal, vertex) triples a pass would issue, or as the list of buffers drawn.
- PsychoPy windows, text stimuli, instructions, feedback screens, `event.waitKeys` timing, clocks, frame counting and `core.wait` are I/O and timing. They are not modelled. The key loops are modelled one pass at a time, with the set of keys pressed as an input.
- The lighting numerics are floating-point work with `pow`, `exp` and `sqrt`: Blinn-Phong, the Ward BRDF, and the numpy and numba paths of `OptimizedFromScratch.py` and `FromScratchRotation.py`. They are an abstract `shade` function of vertex, normal and lighting state. An exception it raises is `None`.
- The square root in normal jittering and in the viewing vector, and `sin`/`cos` of `np.radians`: the model takes these as parameters with only the laws its properties need. `np.radians` is folded into the degree-based `sinDeg`/`cosDeg`. The rotation matrices are written out (`SceneLighting.RotX`, `RotZ`, `InverseRotation`); the two specular scenes carry the view rotation as a parameter that their constructors require to equal `InverseRotation` for every angle pair, so that the matrix products are expanded only in the lemmas that need them.
- The random sources are input streams, not generators: `random.random`, `random.uniform`, `random.gauss`, `np.random.normal` and the draws of `random.shuffle`. `random.seed(42)` and `np.random.seed(42)` become "the same fixed stream every time". Which stream a seed yields is not modelled.
- float32 storage, float rounding and numpy array shapes are not modelled. Coordinates are exact reals and arrays of triples are sequences of `Vec3`.
- OptimizedFromScratch.OptimizedSpecularStreakScene.GetInverseRotationMatrix: the memo key `(round(angle_x, 2), round(angle_z, 2))` is the integer angle pair itself. Every caller passes whole-degree steps, so the rounding never merges two keys; the model does not capture it for non-integral angles.
- OptimizedFromScratch.OptimizedSpecularStreakScene.GenerateFloorGeometryStatic: the cached arrays and the stored floor are values. The model does not capture the in-place aliasing between the cache and the stored floor (numpy `ascontiguousarray` may share them), which nothing writes after the fill.
- `load_experiment_conditions` of `AnaglyphColumnExperiment.py` reads a CSV with pandas and falls back to `create_default_conditions`; only the fallback is modelled. Writing the default CSV, `save_results` and the `run_experiment` trial loop are file I/O and timing.
- File system access is not modelled: `os.listdir`, `os.path.exists` and image loading. A folder is its listing. An image's pixel size is an input.
- The module-level trial loops, response collection and CSV writing of the three FinalExperiments scripts are I/O and timing, as are the windows they open. `create_side_by_side_stimuli` and `create_stick_vs_image_stimuli` only hand the computed placements to PsychoPy.
- The file-name pattern is matched from the start of the name, as `re.match` does. Only the one pattern the scripts use is modelled, not regular expressions in general.
- StimulusFiles.IsDigit: `\d` in a Python 3 `str` pattern matches every Unicode decimal digit; the model accepts only '0' to '9', so a name such as `theta_٣_0_roughness_0_000_left_eye.png` is found by `get_image_pairs` but not by the model.
- The right-eye check of `create_trial_list` in `ReferenceStreak.py` is modelled and proved always to pass: the scan found the reference condition through that file.
- The triple-quoted alternative floor of `RotationInPlaneNoNewRandom.py` is a string literal, not code.
- RotationInPlane.py, ModernGL/ModernGLStreak.py, SpecularStreakTest.py and FinalExperiments/Sticks/ReferenceSlant/AnalysisScript.py are not part of this model. In order, they are immediate-mode drawing with no stored state, a wrapper over moderngl_window, image filtering with plotting, and pandas statistics.
- The per-vertex disparity formula with a distance factor does not appear in the modelled files and is not modelled.
