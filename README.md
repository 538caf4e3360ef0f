# hra-amap in Dafny

A model of the bookkeeping at the core of hra-amap. hra-amap registers a
source organ mesh onto a reference organ of the Human Reference Atlas. It
then projects other geometry, such as tissue blocks, through the same chain
of transforms. The solvers, file formats and floating-point numerics are
parameters of the model. What is modelled and proved is everything those
numerics are wired into:

- **The lazy `Transform`** (`dataclass.dfy`, module `Dataclass`). A
  `Transform` is a class. Its dataclass fields are constants, and the
  `centered` flag, `mean`, `inverse` and nearest-neighbour nodes are
  mutable fields set on first use. `Center`, `TransformGeometry`, `Call`
  and `Invert` are methods proved against the pure state machine
  `CenterSpec`/`CallSpec`/`InvertSpec` over `Cache` values. Lemmas about
  that machine state what the transform remembers and when.
- **Projection replay.** `Projection.Project` loops over the listed
  transforms. It skips inactive ones, inverts those that already hold an
  inverse, calls the rest, and finishes with the subject's target
  transform. It is proved against the function `Replay`.
- **The steps and the decorator** (`steps.dfy`, `decorators.dfy`). Each
  step is a method. It records its inputs, output and transforms on one
  shared `PipelineStep` object per decorated function and returns that
  object.
- **The pipeline** (`pipeline.dfy`, `runs.dfy`, `records.dfy`).
  - `Pipeline.Run` executes the seven steps in order, on deep copies, with
    the wiring of `run`.
  - It stores the records in `steps` in insertion order and builds the
    projection.
  - It is proved against `RunSpec`, a function of the two organs'
    vertices, errors included.
  - `ReplayReproducesRun` proves that replaying the projection's
    transforms on the source reproduces the registration.
- **Normalisation arithmetic** (`preprocess.dfy`). This covers the mean,
  the `'unit'` bounding-box scale and the `'stddev'` scale, over `real`.
- **Geometry adapters and `split_transform`** (`conversions.dfy`,
  `geometry.dfy`).
- **Organs and tissue blocks** (`organ.dfy`, `tissue.dfy`, `paths.dfy`).
  This covers path stem and suffix, the choice of a target transform,
  unit conversion by `DivisionFactor`, `from_sample`, `from_millitome`,
  and the metadata record `to_sample` fills in. It also covers the target
  IRI written in one place and parsed back in another.
- **The millitome script** (`millitome.dfy`). This covers the `.glb`
  suffix check, the grouping of vertices into blocks by colour in order of
  first appearance, face membership, and the numbered scene.

Points are `Vec3` over `real`. A 4x4 matrix is a value made of a 3x3
block, a translation column and a bottom row. Every matrix the pipeline
builds has the affine bottom row (0, 0, 0, 1), and the model of matrix
algebra is exact only for those: inversion is the adjugate of the block
over its determinant, a singular block being a `LinAlgError`, and a
matrix is applied to a point without the division by the last
homogeneous coordinate (see "## Left out"). Nearest-neighbour lookup is
the first row at least squared distance. Euler angles to matrix, matrix to
Euler angles, `sqrt`, RANSAC, ICP, BCPD and mesh loading are
function-valued parameters. Where a lemma needs a property of one of them
(the square root of a square, `from_euler` of zero angles being the
identity), that property is a `requires` of the lemma.

## Model

| member | source | states |
|---|---|---|
| Linalg.InverseAfter | src/dataclass.py:54 | `inv(M)` applied after `M` gives back every point, whenever the inverse exists |
| Linalg.Nearest | src/dataclass.py:74-76 | the nearest-node lookup returns a row of the node set at least squared distance from the query, the first such row |
| Linalg.NearestAtNode | src/dataclass.py:74-76 | queried at node `i` of pairwise distinct nodes, the lookup returns `i` |
| Geometry.MapAffineInverse | src/dataclass.py:54-55 | applying an affine transform to every point and then its inverse gives back the points |
| Geometry.CenteredShifted | src/dataclass.py:57-65 | centring on `v` and adding `v` back undo each other |
| Preprocess.MeanTimesCount | src/utils/preprocess.py:7-8 | the mean times the number of points is the column-wise coordinate sum |
| Preprocess.MeanShifted | src/utils/preprocess.py:7-8 | translating every point by `v` translates the mean by `v` |
| Preprocess.BoundsHold | src/utils/preprocess.py:11-12 | the bounding box the extents are measured on holds every point |
| Preprocess.BoundsLeast | src/utils/preprocess.py:11-12 | that box is the least box holding every point |
| Preprocess.ScaleFactor | src/utils/preprocess.py:10-17 | `'unit'` and `'stddev'` yield their scales; any other method name is an `UnboundLocalError` on `scale` |
| Preprocess.UnitScaleNormalises | src/utils/preprocess.py:11-12 | centring a geometry and multiplying it by its `'unit'` scale leaves a largest bounding-box extent of exactly 1 |
| Preprocess.UnitScaleShifted | src/utils/preprocess.py:11-12 | the `'unit'` scale is unchanged by translating the geometry |
| Preprocess.StddevScaleShifted | src/utils/preprocess.py:13-16 | the variance, and so the `'stddev'` scale, is unchanged by translating the geometry |
| Preprocess.ExtentScaled | src/utils/preprocess.py:11-12 | multiplying by a positive factor multiplies the largest extent by that factor |
| Conversions.ToPointCloud | src/utils/conversions.py:35-41 | a cloud with the argument's points in order; a cloud argument is returned as the same object, anything else as a new cloud |
| Conversions.ToMesh | src/utils/conversions.py:43-49 | a mesh with the argument's points in order (duplicate-vertex merging under `process=True` is left out); a new mesh has exactly the given faces and `process` flag; a mesh argument is returned as itself |
| Conversions.ArrayCloudRoundTrip | src/utils/conversions.py:62-73 | `to_array(to_pointcloud(a)) == a` |
| Conversions.DeepCopy | src/pipeline.py:31-32 | a deep copy is a new object of the same kind holding the same coordinates |
| Conversions.SplitRecovers | src/utils/conversions.py:11-25 | for R·diag(s) with translation t, R with unit columns and s positive, `split_transform` returns s as the column norms, the Euler angles of R, and t exactly |
| Conversions.TranslationSplits | src/utils/conversions.py:11-25 | a pure translation splits into scale (1, 1, 1), the angles of the identity, and the translation |
| Conversions.ScaledUnitColumn | src/utils/conversions.py:13-19 | a column `k·c` with unit `c` and `k > 0` has norm `k` and normalises back to `c` |
| Conversions.TxtToPandasShift | src/utils/conversions.py:83-91 | the shift keeps the row count, order and `prob`, is undone by adding 1 back, and maps 1-based indices in 1..n into 0..n-1 |
| Dataclass.BuildMatrixApplies | src/dataclass.py:28-43 | the built matrix scales each axis, rotates, then translates; its bottom row is [0, 0, 0, 1]; a scalar scale is the same on all three axes |
| Dataclass.BuildMatrixSplits | src/dataclass.py:40-43 | `split_transform` of a built matrix returns the per-axis scale, the rotation's Euler angles and the translation |
| Dataclass.Transform.constructor | src/dataclass.py:17-43 | a supplied matrix is kept as it is, otherwise the matrix is built from scale, rotation and translation; no state is cached |
| Dataclass.Transform.Center | src/dataclass.py:61-67 | the new state and the returned coordinates are `CenterSpec`'s; the result is a new object of the argument's kind with the same faces |
| Dataclass.Transform.TransformGeometry | src/dataclass.py:45-49 | the geometry is moved in place by the matrix or by the stored inverse and returned as the same object; an array, or inverting before any inverse is stored, is an `AttributeError` that changes nothing |
| Dataclass.Transform.Call | src/dataclass.py:69-79 | the new state and result are `CallSpec`'s; a non-centring affine call moves the argument in place and returns it, otherwise the argument is untouched and the result is new; a DVF call returns a cloud |
| Dataclass.Transform.Invert | src/dataclass.py:51-59 | the new state and result are `InvertSpec`'s; the result is the argument itself unless the transform centres; once the inverse exists a cloud or mesh argument is moved by it in place, even when the transform centres, and a refused inversion (DVF, singular matrix) or an array leaves the argument untouched |
| Dataclass.InvertKeepsValid | src/dataclass.py:51-54 | inverting keeps a transform valid, and a DVF transform never acquires an inverse |
| Dataclass.InvertAfterCall | src/dataclass.py:51-71 | for a transform without a DVF, `invert` after a forward call gives back the original coordinates, the cached mean added back exactly when it was subtracted |
| Dataclass.MeanFrozen | src/dataclass.py:61-71 | the first centring records the mean of its input; once centred, every call centres on that same mean whatever its `center` argument |
| Dataclass.NodesFrozen | src/dataclass.py:72-77 | once built, the interpolator is never rebuilt, and every point, seen before or not, gets the DVF row of its nearest node in (s·R)(x + d + t) |
| Dataclass.DeformAtOwnNodes | src/dataclass.py:72-77 | on a first call over pairwise distinct points, each point is moved by exactly its own DVF row |
| Dataclass.DeformVersusMatrix | src/dataclass.py:41-42 | the DVF branch adds the translation before scaling and rotating, so with zero displacement it differs from the matrix branch by (s·R)t − t |
| Dataclass.CallRepeat | src/dataclass.py:69-79 | calling again, without centring, on the coordinates of a successful call reproduces that call and its state |
| Dataclass.CallKeepsInverse | src/dataclass.py:69-79 | a forward call never sets or clears the inverse |
| Dataclass.InvertRepeat | src/dataclass.py:51-59 | inverting again on the same coordinates reproduces a successful inversion and its state |
| Dataclass.Interpolate | src/dataclass.py:75-76 | the interpolator succeeds exactly when there are no queries, or the nodes are non-empty and match the DVF rows; it returns one row per query |
| Dataclass.PipelineStep.constructor | src/dataclass.py:81-88 | a record holds its name and description and nothing recorded |
| Dataclass.ReplayComposes | src/dataclass.py:125-128 | replaying two transform lists one after the other is replaying their concatenation, stopping at the first error |
| Dataclass.ReplayStops | src/dataclass.py:125-128 | after an entry fails, the remaining transforms are left as they were |
| Dataclass.ReplaySkipsInactive | src/dataclass.py:127 | an entry with `apply == False` changes neither the points nor its own state |
| Dataclass.ReplaySettled | src/dataclass.py:125-128 | replaying settled transforms changes none of their states, whatever is projected |
| Dataclass.ProjectSpecSplits | src/dataclass.py:125-132 | a projection is the replay, then the target transform's forward call when the replay succeeded |
| Dataclass.ReplayEntry | src/dataclass.py:127-128 | one loop turn skips, inverts (when the transform has an inverse) or calls, as `StepSpec` states; the cloud it is handed ends as `StepTracked` says, and the loop goes on with that same cloud exactly when `StepTracked` says so |
| Dataclass.FollowNext | src/dataclass.py:125-128 | following the given cloud through one more loop turn is `StepTracked` on it while the loop still holds it, and leaves it otherwise |
| Dataclass.FollowInPlace | src/dataclass.py:125-128 | when every applied transform rewrites the cloud in place (an inversion without centring, a call without centring or DVF), the cloud handed to the loop ends holding the replayed coordinates |
| Dataclass.StepInPlaceHolds | src/dataclass.py:127-128 | an in-place loop turn that succeeds leaves its result in the cloud it was handed |
| Dataclass.StartCloud | src/dataclass.py:120-123 | the start cloud holds the subject's points: a deep copy of an organ's or block's cloud, or the converted argument |
| Dataclass.PlaceTarget | src/dataclass.py:131-132 | a subject with a target transform is carried forward by that transform; anything else passes as it is |
| Dataclass.Projection.ReplayAll | src/dataclass.py:125-128 | the loop leaves the transforms in the states of `Replay` and returns its points or its error; the cloud it was given holds the points `Follow` tracks |
| Dataclass.Projection.Walk | src/dataclass.py:120-132 | the whole walk, start cloud, replay and target transform, is `ProjectSpec` on the subject's points; a plain cloud argument is the start cloud and holds the points `Follow` tracks |
| Dataclass.Projection.Project | src/dataclass.py:116-138 | `project` as written: the states are `ProjectSpec`'s; a mesh subject gets the projected points as its vertices, faces untouched; a plain point-cloud argument holds the points `Follow` tracks through the replay; the argument itself is returned |
| Dataclass.Projection.ProjectGeometry | src/dataclass.py:116-138 | `project` as intended: the projected coordinates come back for every kind of subject |
| Dataclass.ArrayProjectionLost | src/dataclass.py:135-138 | an array translated by a non-zero `t` projects to `t`, yet `project` returns the array at the origin |
| Dataclass.CloudProjectionLost | src/dataclass.py:125-138 | a cloud at the origin projected through a centring transform (cached mean at the origin) translating by a non-zero `t` projects to `t`, yet the cloud `project` returns still holds the origin |
| Decorators.Decorated.constructor | src/decorators.py:4-6 | decorating makes one new record with the given name and description and nothing recorded |
| Decorators.Decorated.RecordInputs | src/decorators.py:10-12 | `kwargs['source']` then `kwargs['target']` are looked up, a missing one being a `KeyError`; only when both exist is `inputs` overwritten; nothing else changes |
| Decorators.Decorated.RecordResult | src/decorators.py:15-21 | `output` and `transform` become exactly the returned pair, and the shared record itself is returned |
| Decorators.StepKwargs | src/decorators.py:10-12 | every step is called with `source` and `target` keywords |
| Steps.StepFunctions.constructor | src/steps.py:10-203 | each of the eight step functions gets its own new record, with the names and descriptions of its decorator |
| Steps.Normalize | src/steps.py:10-29 | both scales are computed before either geometry is touched; the outcome, errors included, is `NormalizeSpec`; the record reports both outputs and both transforms |
| Steps.NormalizeCentresThenScales | src/steps.py:10-29 | a normalisation centres each geometry on its own mean, which the transform keeps, then scales it by its own factor |
| Steps.UnitNormalisation | src/steps.py:10-29 | after the rigid normalisation both geometries have a largest extent of exactly 1 |
| Steps.ScaleParamsScale | src/steps.py:17-21 | with zero angles giving the identity, `Transform(scale=k)` multiplies every coordinate by `k` |
| Steps.Flip | src/steps.py:31-33 | `flip` always raises `NotImplementedError`, after the inputs were recorded |
| Steps.GlobalSpec | src/steps.py:35-65 | the global transform is RANSAC's matrix at threshold `voxel_size × global_distance_threshold_factor`, inactive and without a DVF |
| Steps.GlobalRegistration | src/steps.py:35-65 | two clouds give no outputs and one inactive `Source` transform; anything else is an `AttributeError` on `voxel_down_sample` |
| Steps.RefineApplies | src/steps.py:67-92 | the refined source is the ICP matrix applied to every source point, and the transform keeps no state |
| Steps.RefineRegistration | src/steps.py:67-92 | ICP is seeded with the `Source` matrix of the global step; the source is moved in place and is itself the output; `Target` is `None` |
| Steps.BcpdArgsShape | src/steps.py:128-148 | the argument list is the 24 fixed entries, then `-g` only with `gamma`, then `-D` only with `downsampling`, in that order; a missing required key is a `KeyError` |
| Steps.BcpdCommand | src/steps.py:128-148 | the argument list built in place is `BcpdArgs` |
| Steps.Difference | src/steps.py:154-158 | the DVF is the pointwise difference, defined only for arrays of equal length |
| Steps.NonrigidNodes | src/steps.py:154-186 | the interpolator is built on the downsampled proxy with downsampling and on the full source without it; the registered cloud is the matching BCPD output |
| Steps.NonrigidSourceCalled | src/steps.py:154-175 | without downsampling the output is a forward call on the source, with DVF = BCPD's deformed source minus that source |
| Steps.NonrigidFollowsBcpd | src/steps.py:154-175 | without downsampling, distinct source points are carried to BCPD's `u`, then scaled, rotated and translated, with the translation added first |
| Steps.ApplyDeformation | src/steps.py:164-175 | the nonrigid transform is called on the proxy first when there is one, then on the source |
| Steps.NonrigidRegistration | src/steps.py:117-186 | the outcome, errors included, is `NonrigidSpec`, and the record reports it |
| Steps.DenormalizeUndoesNormalize | src/steps.py:188-216 | denormalising with a normalisation's `Target` transform gives back the original target exactly |
| Steps.InvertPair | src/steps.py:188-201 | the source and then the target are inverted by the same transform |
| Steps.Denormalize | src/steps.py:188-216 | the `Target` transform inverts both geometries and is reported as both `Source` and `Target`; without one it is an `AttributeError` on `invert` |
| Organs.FileType | src/organ.py:16 | the path's suffix, or `.glb` when it has none |
| Organs.PlacementApplies | src/organ.py:36-42 | the placement transform scales, rotates and translates by the translation over the factor; multiplying back by the factor gives the configured translation |
| Organs.PlacementTransform | src/organ.py:36-42 | the reference entry as a new transform with positional scale, rotate, translate; a missing entry is a `KeyError` |
| Organs.Organ.Open | src/organ.py:12-26 | the name is the path's stem and the file type its suffix; a name in `rui` loads the mapped file and gets a target transform in metres, otherwise the organ's own path with no target transform; metadata is stored only when non-empty, the organ otherwise keeping trimesh's empty dictionary |
| Organs.Organ.AsSubject | src/organ.py:28-34 | an organ projects as its mesh with its target transform, starting from its vertices |
| Paths.Split | src/tissue.py:113 | `split` gives at least one piece, and no piece contains the separator |
| Paths.SplitLast | src/tissue.py:113 | the last piece of `split` is everything after the last separator |
| Paths.SplitSuffix | src/tissue.py:113 | splitting `prefix + '#' + name` on `#` gives back `name` when `name` holds no `#` |
| Paths.Name | src/organ.py:15 | a path's name holds no `/` and is never `.` |
| Paths.StemSuffix | src/organ.py:15-16 | stem and suffix together are the file name; a non-empty suffix is one dot and at least one non-dot character, after a non-empty stem |
| Tissue.DivisionFactor | src/tissue.py:17-20 | millimeter 1e3, centimeter 1e2, meter 1; any other name is an `AttributeError` |
| Tissue.UnitRoundTrip | src/tissue.py:17-20 | dividing by a unit's factor and multiplying back gives the original length |
| Tissue.BlockParams | src/tissue.py:89-106 | scaling and rotation pass through, the translation is divided by the factor; lookups fail in source order |
| Tissue.TargetNameOf | src/tissue.py:109-113 | the block's own target name, else the part of the placement target after the last `#` |
| Tissue.PlaceSpecOk | src/tissue.py:55-71 | when every lookup succeeds, the box is moved by the block transform and then by the inverse of the target transform |
| Wrappers.Truthy | src/tissue.py:26-29 | `if donor:` and `if metadata:` (here and in src/organ.py:19-20) keep a dictionary exactly when it is given and not empty |
| Tissue.TissueBlock.constructor | src/tissue.py:22-31 | the block holds the mesh, and a donor or metadata only when non-empty; no factor, label, target or transforms yet |
| Tissue.TissueBlock.GetTargetTransform | src/tissue.py:109-118 | the target name is taken from the placement IRI when missing; an unknown name is a `KeyError`; the transform's translation is divided by the factor |
| Tissue.TissueBlock.MoveBlock | src/tissue.py:70-71 | the mesh is moved in place by the block transform and then by the inverse of the target transform, which keeps that inverse |
| Tissue.TissueBlock.Settle | src/tissue.py:64-71 | the block transform is read from the placement, then the block is moved and inverted as `MoveBlock` states |
| Tissue.TissueBlock.Place | src/tissue.py:55-71 | the box becomes a block placed as `PlaceSpec` states |
| Tissue.TissueBlock.FromSample | src/tissue.py:45-73 | the block is `SampleSpec`: the sample's dimensions divided by the unit factor, moved by its placement and then by the inverse of the reference transform |
| Tissue.TissueBlock.FromMillitome | src/tissue.py:75-87 | the factor is 1e3, only a target transform is built, and the block is not moved; an unknown target is a `KeyError` |
| Tissue.DefaultsFilled | src/tissue.py:126-146 | empty metadata is filled with `@id` = donor id + `#` + label and placement `@id` = that id + `_placement`, on the reference organ's IRI |
| Tissue.ShortKeysKept | src/tissue.py:154-166 | measuring writes only the nine scale, rotation and translation entries of the placement |
| Tissue.MeasuresKeepIds | src/tissue.py:149-166 | measuring keeps what identifies the record |
| Tissue.TargetReadBack | src/tissue.py:113 | the target IRI written by `to_sample` parses back to the target name when the name holds no `#` |
| Tissue.DefaultRecord | src/tissue.py:120-166 | a block without metadata records `donor#label`, its `_placement` id in millimetres, and an IRI that reads back as its target name |
| Tissue.MeasuresAxisAligned | src/tissue.py:149-166 | the recorded dimensions are the bounding-box extents times the factor, scaling is 1, rotation is the identity's angles, and translation is the box centre times the factor |
| Tissue.DimensionsRoundTrip | src/tissue.py:149-151 | the dimensions `from_sample` divided by the factor come back from `to_sample` as the sample's own |
| Tissue.TissueBlock.Measure | src/tissue.py:149-166 | the dimensions, then the placement's scale, rotation and translation, as `MeasuresSpec` states |
| Tissue.TissueBlock.ToSample | src/tissue.py:120-166 | the record is filled with defaults when empty and then measured, as `ToSampleSpec` states, failing at the first missing entry |
| Runs.StepNamesDistinct | src/pipeline.py:31-62 | the seven keys of `self.steps` are distinct |
| Runs.Completed | src/pipeline.py:29-62 | how many steps return before an error; all seven exactly when the run succeeds |
| Runs.ListedAll | src/pipeline.py:71 | when every stored step reports transforms, the list has one `(name, Source)` pair per step, in insertion order |
| Runs.ReplayReproducesRun | src/pipeline.py:65-71 | replaying the projection's transforms, in the states the run left them, carries the source's vertices to exactly the registration |
| Runs.ProjectionKeepsStates | src/pipeline.py:65-71 | projecting anything through a run's transforms leaves their states as the run left them |
| Runs.RunSettled | src/pipeline.py:29-62 | a run leaves every listed transform settled |
| Records.ReportsAssembled | src/pipeline.py:29-71 | the records of the seven steps report seven distinct transforms, with the run's parameters and states |
| Records.ListedReports | src/pipeline.py:71 | the transforms listed from `self.steps` are the reported ones, each under its step's name |
| Pipelines.NormalizeRigidStep | src/pipeline.py:31-32 | step 1 normalises deep copies of both organs' clouds by `'unit'` |
| Pipelines.GlobalStep | src/pipeline.py:35-37 | step 2 runs on copies of step 1's outputs and stores an inactive transform |
| Pipelines.RefineStep | src/pipeline.py:40-43 | step 3 runs on copies of step 1's outputs, seeded by step 2's transform |
| Pipelines.RegisterRigid | src/pipeline.py:35-43 | steps 2 and 3 cannot fail and store RANSAC's and ICP's transforms and the refined source |
| Pipelines.RigidPhase | src/pipeline.py:31-43 | steps 1 to 3 are `RigidSpec`, and only step 1 can fail |
| Pipelines.NormalizeNonrigidStep | src/pipeline.py:46-47 | step 4 takes the refined source but step 1's target, normalised by `'stddev'` |
| Pipelines.NonrigidStep | src/pipeline.py:50-52 | step 5 runs BCPD on copies of step 4's outputs |
| Pipelines.DeformPair | src/pipeline.py:50-52 | step 5 after step 4 stored its pair, with `NonrigidSpec`'s outcome |
| Pipelines.NonrigidPhase | src/pipeline.py:46-52 | steps 4 and 5 are `DeformedSpec`, counting the steps that returned before an error |
| Pipelines.DenormalizeStep | src/pipeline.py:55-62 | steps 6 and 7 pass the previous `Source` output as both geometries and the matching normalisation's transforms |
| Pipelines.RestorePhase | src/pipeline.py:55-62 | steps 6 and 7 are `RestoredSpec`; on success every record reports its transform with the run's parameters and states |
| Pipelines.LaterPhases | src/pipeline.py:46-62 | steps 4 to 7, with `LaterDone` steps returning before an error |
| Pipelines.RunPhases | src/pipeline.py:29-62 | the seven steps are `RunSpec`, stopping at the first error after `Completed` steps |
| Pipelines.Project | src/pipeline.py:65-71 | the projection has the pipeline's id, the organs, one `(name, Source)` pair per step, and the registration as a new mesh of the final points with the source's faces and `process=False` |
| Pipelines.CallHook | src/pipeline.py:23-27 | a tuning hook never succeeds: a `TypeError` on an instance, `NotImplementedError` on the class |
| Pipelines.ComputeMetrics | src/pipeline.py:76-79 | as written: any name but the one joined string is a `ValueError`; that string reaches the missing `result` attribute |
| Pipelines.MetricNamesRejected | src/pipeline.py:77-78 | each of `sinkhorn`, `chamfer` and `hausdorff` is rejected as written |
| Pipelines.CheckMetric | src/pipeline.py:77-78 | as intended: a name is accepted exactly when it is one of the three metrics |
| Pipelines.CheckMetricAccepts | src/pipeline.py:77-78 | the intended check accepts every metric's name and rejects the joined string |
| Pipelines.Pipeline.constructor | src/pipeline.py:15-21 | a pipeline holds its id, name, description and two parameter sections, with no step stored |
| Pipelines.Pipeline.Store | src/pipeline.py:31-62 | `self.steps[name] = record`: a new key goes last, an existing key keeps its place |
| Pipelines.Pipeline.StoreAll | src/pipeline.py:31-71 | after all seven stores the keys are in step order and the listed transforms are the reported ones |
| Pipelines.Pipeline.Run | src/pipeline.py:29-74 | `run` is `RunSpec` on the organs' vertices, errors included; steps returned before an error stay stored; on success the projection replays the run |
| Millitome.CheckOutput | scripts/vtk_to_millitome.py:25-26 | an output path is accepted exactly when its suffix is `.glb`; otherwise it is a `ValueError` |
| Millitome.FirstsBelow | scripts/vtk_to_millitome.py:40-41 | the first-appearance positions below `n`, ascending and complete |
| Millitome.BlockColorsDistinctAndOrdered | scripts/vtk_to_millitome.py:40-41 | the block colours are exactly the vertex colours, each listed once, in order of first appearance |
| Millitome.IndicesBelow | scripts/vtk_to_millitome.py:44 | the indices of one colour below `n`, ascending and complete |
| Millitome.BlockIndicesPartition | scripts/vtk_to_millitome.py:44 | every vertex index is in exactly one block, the block of its colour |
| Millitome.BlockFaces | scripts/vtk_to_millitome.py:47 | a face is in block k exactly when one of its corners is |
| Millitome.FacesCovered | scripts/vtk_to_millitome.py:47 | every face is in some block, and a face whose corners differ in colour is in more than one |
| Millitome.NatToStringInjective | scripts/vtk_to_millitome.py:55-56 | distinct block numbers give distinct names |
| Millitome.BlockNamesDistinct | scripts/vtk_to_millitome.py:55-56 | the names "1", "2", … are pairwise distinct |
| Millitome.Scene.AddGeometry | scripts/vtk_to_millitome.py:56 | adding a geometry binds its name and appends the name |
| Millitome.NameBlocks | scripts/vtk_to_millitome.py:54-56 | the scene holds block k's faces under the name `k + 1`, in colour order, and nothing else |
| Millitome.Convert | scripts/vtk_to_millitome.py:25-56 | a `.glb` path gives the scene of the colour blocks; any other path is the suffix error |

## Left out

- Floating point: coordinates are exact reals, so tolerances, rounding and NaN are not modelled. A degenerate scale (zero extent or zero spread), where numpy yields `inf`, is the error `NonFinite`. The mean of no points is the origin, where numpy gives NaN.
- `Rotation.from_euler`, `as_euler`, `sqrt`, RANSAC, ICP, FPFH features, voxel downsampling, normal estimation and the BCPD solver are function parameters; their numerical behaviour is not modelled. Voxel downsampling happens inside the RANSAC parameter.
- The BCPD subprocess and its text-file exchange are not modelled: the solver's outputs arrive as one value. The return code is never checked, so there is no abort path.
- The nearest-neighbour tie-break is the first nearest row; scipy's order among equally near rows is not modelled.
- Persistence and configuration I/O are not modelled: `Projection.load`/`export`, the YAML reads, `write_json` in `to_sample`, and src/utils/io.py. The parameter sections, the reference mappings and the uuid are parameters.
- src/rui.py, src/utils/metrics.py and src/utils/visualization.py are not part of this model; neither is `TissueBlock.show_on_target`.
- Mesh loading and export, the argparse and pyvista parts of the millitome script, `trimesh.creation.box` and the `submesh` geometry are not modelled. Loading is a parameter returning vertices and faces. A block is its face mask over the whole mesh. Faces are triangles.
- `vtk_to_mesh`, `ply_to_mesh`, `nii_to_mesh`, `txt_to_numpy` and `compute_features` are file or solver code and are not modelled.
- A geometry is an array, a point cloud or a mesh, so the fall-through that returns an unhandled type unchanged never arises in the model.
- `from_donor` only raises `NotImplementedError`; it is not modelled.
- The `_hyperparamter_search` and `_autotune` stubs are modelled only as `CallHook`.
- JSON values are a small datatype. f-string rendering of values other than strings and `None` is a function parameter, and `today` is a parameter.
- Python's dictionary key order in the tissue metadata is not modelled; only the pipeline's `steps` keeps its insertion order.
- Tissue.TissueBlock.GetTargetTransform: requires a unit factor that is not zero, where Python would divide by zero.
- Tissue.TissueBlock.ToSample: requires the block to have at least one vertex, where trimesh would fail on the bounding box of an empty mesh.
- Tissue.TissueBlock.Place: requires a non-zero factor and a non-empty location record, which `FromSample` establishes before calling it.
- The `params` field of `Projection` and the organs' metadata are not part of the projection model; `run` does not use them.
- Conversions.ToMesh: keeps every point in order. trimesh's `process=True` merges duplicate vertices, so a mesh built by `to_mesh` can have fewer vertices, in another order.
- Dataclass.Transform.Center: builds a mesh result with `process=True` through `ToMesh`, so the same vertex merging is not modelled.
- Dataclass.Transform.Invert: builds a mesh result with `process=True` through `ToMesh` when the transform centres, so the same vertex merging is not modelled.
- Geometry.Mesh: the faces are constant. trimesh's `apply_transform` reverses the face winding under a reflecting matrix; the model keeps the faces as they were.
- Linalg.Inverse4: models `np.linalg.inv` only on matrices with the affine bottom row (0, 0, 0, 1), and yields `LinAlgError` for any other bottom row, which numpy would invert when the matrix is non-singular.
- Linalg.ApplyAffine: ignores the bottom row, whereas open3d's `transform` divides by the last homogeneous coordinate. Both agree on affine matrices.

## Findings

| source | as written | input that shows it | evidently intended | confidence | as-written member | corrected member |
|---|---|---|---|---|---|---|
| src/dataclass.py:135-138 | `project` writes the projected points back only into a mesh and returns its argument, so for an array the projection is discarded | an array `[(0,0,0)]` projected through one active translation by `t != 0`: the projection is `[t]`, but `project` returns `[(0,0,0)]` | return the projected geometry for every kind of input | high, not executed | Dataclass.ArrayProjectionLost | Dataclass.Projection.ProjectGeometry |
| src/dataclass.py:125-138 | a point cloud given to `project` is rewritten in place only by transforms that neither centre nor carry a DVF; once one of them builds a new cloud, the argument that comes back keeps an intermediate state | a cloud `[(0,0,0)]` projected through one active centring transform, cached mean `(0,0,0)`, translating by `t != 0`: the projection is `[t]`, but the returned cloud holds `[(0,0,0)]` | return the projected geometry for every kind of input | high, not executed | Dataclass.CloudProjectionLost | Dataclass.Projection.ProjectGeometry |
| src/pipeline.py:77-78 | the accepted list is one string, `'sinkhorn, chamfer, hausdorff'`, not three names | `compute_metrics('chamfer')` raises `ValueError` | accept exactly `sinkhorn`, `chamfer` and `hausdorff` | high, not executed | Pipelines.MetricNamesRejected | Pipelines.CheckMetric |
