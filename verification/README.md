# Obi pinhole, fluid and rope core — a Dafny model

This project models the core of Obi, a particle physics engine for Unity, together with the rope
utilities of the game built on it. Each source file is a Dafny module:

- **Burst pinhole constraints.** A pinhole lets a rope slide through a point attached to a collider.
  The model covers these jobs:
  - `ClearPinsJob`, which resets the per-rigidbody constraint counters;
  - `UpdatePinsJob`, which applies the motor and friction, walks along the rope's edge chain, clamps
    to the allowed edge range, and may disable the constraint;
  - the projection job, which accumulates lambdas, position deltas and counts;
  - the apply job, which averages the deltas into the edge endpoints.
- **Pinhole constraint batch.** The blueprint side holds the parallel lists of a pinhole batch:
  edges, ranges, parameters in blocks of five, collider indices and offsets. The model covers
  `AddConstraint`, `Clear`, `SwapConstraints`, `Merge` and `GetParticlesInvolved`.
- **`ObiPinhole` component.** The model covers:
  - the tunable setters and their dirty flags;
  - `ClampMuToRange`, `CalculateMu` and `CalculateRange`;
  - the loops that upload parameters, ranges and positions to the solver batch and read positions
    back;
  - `BreakPinhole`.
- **Density constraints.** The per-particle fluid jobs: clearing fluid data, computing lambdas,
  applying position deltas, averaging smoothed positions and anisotropy. Also the early exit of the
  Laplacian smoothing pass.
- **Solver jobs.**
  - foam emission, generation, update and copy, on their dispatch counters;
  - particle lifetimes and the dead-particle list;
  - the simulation box limits;
  - inertial forces and wind.
- **Voxel distance field.** Jump-flood seeding and its passes, gradients, smoothing and unfiltered
  sampling, on three-dimensional arrays.
- **Game-side utilities:**
  - `RopeUtils`: element-chain queries and edits;
  - `Extensions` and `MathUtils`: list and vector helpers;
  - `ObiFoamEmitter`: the emission accumulator;
  - `Oni`: enums and parameter constructors;
  - `PinholeRatchet`: the ratchet sample;
  - `Sandbox2`: the eyelet that moves rest length between two rope elements.

Each per-particle job is a sequential loop over its index list. It is proved against a function of
one particle (`ensures a[..] == MappedAt(old(a[..]), indices, f)`), and the lemmas state what `f`
does. Objects whose fields the source updates are classes. Their methods state their whole new
state, through a pure view of the state (`State()`, `Storage()`).

Floats are modelled as reals. A `Float` datatype (finite, +∞, −∞, NaN) is used only where an
infinite or NaN result matters.

Where the code and its evident intent differ, the model states both, and the rows of "## Findings"
(A to E, in table order) name the two members:

- The eyelet's rest-length transfer and element split run as written (findings A and B). The
  corrected `Transfer` and `EyeletSplit` are proved to conserve rest length.
- `NormalizeValue01`'s name suggests a value in [0,1]. On a degenerate range it returns NaN
  (finding C).
- `FindClosestPointsOnLines` is the corrected version. `ClosestPointsAsWritten` keeps the NaN of
  a zero-length segment (finding D).
- `LocalRopeIndexToSolver` is modelled with an error result, not a precondition. The
  out-of-bounds index it reaches (finding E) becomes an explicit error case.

## Model

| member | source | states |
|---|---|---|
| BurstPinhole.ClearPins | Assets/Obi/Scripts/Common/Backends/Burst/Constraints/Pinhole/BurstPinholeConstraintsBatch.cs:147-167 | the constraint count of every rigidbody referenced through a non-negative collider index becomes 0; every other count is unchanged |
| BurstPinhole.MotorWithoutForce | Assets/Obi/Scripts/Common/Backends/Burst/Constraints/Pinhole/BurstPinholeConstraintsBatch.cs:269-282 | with zero motor force the motor does not move the pin (mix stays at the nearest point), and the stored relative velocity is the edge distance moved per substep |
| BurstPinhole.PinOutcomeProperties | Assets/Obi/Scripts/Common/Backends/Burst/Constraints/Pinhole/BurstPinholeConstraintsBatch.cs:225-336 | a constraint is skipped exactly when its collider or edge index is negative; it is disabled only when the clamp parameter is ≤ 0.5; otherwise it ends on its own edge or an edge inside its range, with mix in [0,1], on a range bound, or unchanged |
| BurstPinhole.SettleProperties | Assets/Obi/Scripts/Common/Backends/Burst/Constraints/Pinhole/BurstPinholeConstraintsBatch.cs:285-335 | the range-clamp-then-walk step disables only without clamp-on-end, and the final edge is the start edge or one inside the range, with mix in [0,1], a range bound or the unclamped mix |
| BurstPinhole.UpdatePins | Assets/Obi/Scripts/Common/Backends/Burst/Constraints/Pinhole/BurstPinholeConstraintsBatch.cs:225-336 | every constraint's edge, mix and relative velocity end as its outcome prescribes (nothing written when ignored, edge -1 when disabled); entries beyond the active count are untouched; each rigidbody count grows by the number of non-ignored constraints on it |
| BurstPinhole.StorePin | Assets/Obi/Scripts/Common/Backends/Burst/Constraints/Pinhole/BurstPinholeConstraintsBatch.cs:300-335 | writes one constraint's outcome to its slot (only the edge for a disabled one, edge and mix for a sliding one) and no other slot |
| BurstPinhole.CountPin | Assets/Obi/Scripts/Common/Backends/Burst/Constraints/Pinhole/BurstPinholeConstraintsBatch.cs:234-240 | a non-ignored constraint adds exactly one to its rigidbody's count and nothing elsewhere |
| BurstPinhole.UpdatePin | Assets/Obi/Scripts/Common/Backends/Burst/Constraints/Pinhole/BurstPinholeConstraintsBatch.cs:225-336 | the per-constraint computation, walk loop included, yields the specified outcome |
| BurstPinhole.PinsImplyReferenced | Assets/Obi/Scripts/Common/Backends/Burst/Constraints/Pinhole/BurstPinholeConstraintsBatch.cs:153-167 | a rigidbody that receives increments is one the clearing job reset |
| BurstPinhole.Initialize | Assets/Obi/Scripts/Common/Backends/Burst/Constraints/Pinhole/BurstPinholeConstraintsBatch.cs:147-336 | clearing and then updating leaves each referenced rigidbody's count equal to the number of non-ignored constraints pinned to it |
| PinholeEdgeWalk.Nfmod | Assets/Obi/Scripts/Common/Backends/Burst/Constraints/Pinhole/BurstPinholeConstraintsBatch.cs:297 | the floored modulus is in [0, n), is the identity on [0, n), and wraps -1 to n-1 and n to 0 |
| PinholeEdgeWalk.ClampToRange | Assets/Obi/Scripts/Common/Backends/Burst/Constraints/Pinhole/BurstPinholeConstraintsBatch.cs:209-223 | mix is unchanged unless the edge is the first or last edge of the range and mix lies beyond that edge's bound; it reports clamped exactly then, and a clamped mix is one of the two bounds |
| PinholeEdgeWalk.NextEdge | Assets/Obi/Scripts/Common/Backends/Burst/Constraints/Pinhole/BurstPinholeConstraintsBatch.cs:293-297 | the next edge, wrapped by nfmod, always lies inside the constraint's edge range |
| PinholeEdgeWalk.WalkStep | Assets/Obi/Scripts/Common/Backends/Burst/Constraints/Pinhole/BurstPinholeConstraintsBatch.cs:296-330 | one iteration of the walk either ends it with the specified result or continues it on the next edge with the travel distance reduced |
| PinholeEdgeWalk.WalkContinues | Assets/Obi/Scripts/Common/Backends/Burst/Constraints/Pinhole/BurstPinholeConstraintsBatch.cs:310-330 | when the next edge is contiguous, longer than the remaining distance allows and not clamped, the walk goes on from it with that edge's length subtracted |
| PinholeEdgeWalk.WalkEdges | Assets/Obi/Scripts/Common/Backends/Burst/Constraints/Pinhole/BurstPinholeConstraintsBatch.cs:285-331 | the loop of at most ten steps computes the walk from the starting travel distance |
| PinholeEdgeWalk.AdvanceInRange | Assets/Obi/Scripts/Common/Backends/Burst/Constraints/Pinhole/BurstPinholeConstraintsBatch.cs:297 | any number of steps along the chain stays inside the range |
| PinholeEdgeWalk.WalkStopsNearby | Assets/Obi/Scripts/Common/Backends/Burst/Constraints/Pinhole/BurstPinholeConstraintsBatch.cs:293 | the edge a walk stops on is reached by at most ten steps over contiguous edges |
| PinholeEdgeWalk.ReachedByStep | Assets/Obi/Scripts/Common/Backends/Burst/Constraints/Pinhole/BurstPinholeConstraintsBatch.cs:299-311 | an edge reachable from the next contiguous edge is reachable from this one in one more step |
| PinholeEdgeWalk.AdvanceShift | Assets/Obi/Scripts/Common/Backends/Burst/Constraints/Pinhole/BurstPinholeConstraintsBatch.cs:296-297 | advancing from the next edge equals advancing one more step from this edge |
| PinholeEdgeWalk.WalkDisablesOnlyWithoutClamp | Assets/Obi/Scripts/Common/Backends/Burst/Constraints/Pinhole/BurstPinholeConstraintsBatch.cs:300-307 | a walk that disables the constraint happens only when clamp-on-end is off |
| PinholeEdgeWalk.WalkStopCoordinate | Assets/Obi/Scripts/Common/Backends/Burst/Constraints/Pinhole/BurstPinholeConstraintsBatch.cs:319-324 | a walk that stops leaves mix in [0,1], on a range bound, or unchanged |
| BurstPinholeProjection.Compliance | Assets/Obi/Scripts/Common/Backends/Burst/Constraints/Pinhole/BurstPinholeConstraintsBatch.cs:385 | the time-scaled compliance of an active constraint is non-negative |
| BurstPinholeProjection.EffectiveInvMass | Assets/Obi/Scripts/Common/Backends/Burst/Constraints/Pinhole/BurstPinholeConstraintsBatch.cs:426 | when the mix places the point on its edge (in [0,1]), the denominator's inverse mass (interpolated particle masses plus rigidbody terms) is non-negative |
| BurstPinholeProjection.MixesOnEdgeSolvable | Assets/Obi/Scripts/Common/Backends/Burst/Constraints/Pinhole/BurstPinholeConstraintsBatch.cs:426 | when every mix is in [0,1], every active denominator is at least epsilon, so no increment divides by zero |
| BurstPinholeProjection.Increments | Assets/Obi/Scripts/Common/Backends/Burst/Constraints/Pinhole/BurstPinholeConstraintsBatch.cs:426 | one lambda increment per constraint, equal to the specified Δλ for each active one |
| BurstPinholeProjection.Project | Assets/Obi/Scripts/Common/Backends/Burst/Constraints/Pinhole/BurstPinholeConstraintsBatch.cs:372-445 | for a job with no zero denominator, each lambda is advanced by its Δλ, lambdas beyond the count are untouched, and each particle's delta and count grow by the sum of the contributions of the constraints it is an endpoint of |
| BurstPinholeProjection.ProjectedAll | Assets/Obi/Scripts/Common/Backends/Burst/Constraints/Pinhole/BurstPinholeConstraintsBatch.cs:372-445 | after all constraints, each accumulated lambda is the projected one and the running sums are complete |
| BurstPinholeProjection.ProjectNext | Assets/Obi/Scripts/Common/Backends/Burst/Constraints/Pinhole/BurstPinholeConstraintsBatch.cs:374-436 | one more constraint extends the projected prefix of lambdas, deltas and counts by one |
| BurstPinholeProjection.ProjectOne | Assets/Obi/Scripts/Common/Backends/Burst/Constraints/Pinhole/BurstPinholeConstraintsBatch.cs:374-436 | for a job with no zero denominator, one constraint: skipped when its edge or collider index is negative, otherwise its lambda gains Δλ and both endpoints receive their correction and one count |
| BurstPinholeProjection.AccumulateEdge | Assets/Obi/Scripts/Common/Backends/Burst/Constraints/Pinhole/BurstPinholeConstraintsBatch.cs:432-436 | both edge endpoints receive their weighted correction and exactly one count each; every other particle is untouched |
| BurstPinholeProjection.Accumulate | Assets/Obi/Scripts/Common/Backends/Burst/Constraints/Pinhole/BurstPinholeConstraintsBatch.cs:432-433 | adds one delta and one count at a single particle only |
| BurstPinholeProjection.LambdaStaysNonPositive | Assets/Obi/Scripts/Common/Backends/Burst/Constraints/Pinhole/BurstPinholeConstraintsBatch.cs:423-427 | for a point on its edge and a non-negative distance, a non-positive accumulated lambda stays non-positive, and with zero compliance Δλ is minus the distance over the effective inverse mass |
| BurstPinholeProjection.CountedParticlesAreTouched | Assets/Obi/Scripts/Common/Backends/Burst/Constraints/Pinhole/BurstPinholeConstraintsBatch.cs:433-436 | a particle whose count grew is an endpoint of some constraint with an edge |
| BurstPinholeProjection.ApplyIdempotent | Assets/Obi/Scripts/Common/Backends/Burst/Constraints/Pinhole/BurstPinholeConstraintsBatch.cs:472-484 | applying an endpoint twice changes nothing more, and an applied endpoint has count ≤ 0 |
| BurstPinholeProjection.ApplyAverages | Assets/Obi/Scripts/Common/Backends/Burst/Constraints/Pinhole/BurstPinholeConstraintsBatch.cs:474 | with SOR factor 1, k equal contributions d move the particle by exactly d |
| BurstPinholeProjection.ApplyPins | Assets/Obi/Scripts/Common/Backends/Burst/Constraints/Pinhole/BurstPinholeConstraintsBatch.cs:462-486 | every endpoint of a constraint with an edge is applied once (moved by delta·sor/count and reset when count > 0); every other particle is untouched |
| BurstPinholeProjection.ApplyOne | Assets/Obi/Scripts/Common/Backends/Burst/Constraints/Pinhole/BurstPinholeConstraintsBatch.cs:472-477 | applies one endpoint and leaves all others unchanged |
| BurstPinholeProjection.TouchedStep | Assets/Obi/Scripts/Common/Backends/Burst/Constraints/Pinhole/BurstPinholeConstraintsBatch.cs:464-470 | the endpoints touched by the first i+1 constraints are those of the first i plus constraint i's |
| PinholeBatch.GetRopeCoordinate | Assets/Obi/Scripts/Common/Blueprints/Constraints/Batches/ObiPinholeConstraintsBatch.cs:22-26 | the rope coordinate is in [0,1], is 0 without deformable edges, and equals (edgeIndex + coordinate)/edgeCount for an in-range edge |
| PinholeBatch.RopeFraction | Assets/Obi/Scripts/Common/Blueprints/Constraints/Batches/ObiPinholeConstraintsBatch.cs:25 | the clamped fraction is in [0,1] and is exact for a position on the rope |
| PinholeBatch.HandleIndex | Assets/Obi/Scripts/Common/Blueprints/Constraints/Batches/ObiPinholeConstraintsBatch.cs:188 | a missing collider handle maps to -1, otherwise to the handle's index |
| PinholeBatch.SwapBlockEntries | Assets/Obi/Scripts/Common/Blueprints/Constraints/Batches/ObiPinholeConstraintsBatch.cs:140-146 | swapping two disjoint blocks exchanges exactly those blocks and leaves every other entry in place |
| PinholeBatch.SwapBlockTwice | Assets/Obi/Scripts/Common/Blueprints/Constraints/Batches/ObiPinholeConstraintsBatch.cs:140-146 | swapping the same blocks twice is the identity |
| PinholeBatch.SwapEntries | Assets/Obi/Scripts/Common/Blueprints/Constraints/Batches/ObiPinholeConstraintsBatch.cs:145-146 | the entry-by-entry swap loop equals the block swap |
| PinholeBatch.RecordAt | Assets/Obi/Scripts/Common/Blueprints/Constraints/Batches/ObiPinholeConstraintsBatch.cs:95-111 | one constraint read across the parallel lists has the stored shape (two range entries, five parameters) |
| PinholeBatch.Records | Assets/Obi/Scripts/Common/Blueprints/Constraints/Batches/ObiPinholeConstraintsBatch.cs:95-111 | the lists hold exactly one record per constraint |
| PinholeBatch.Append | Assets/Obi/Scripts/Common/Blueprints/Constraints/Batches/ObiPinholeConstraintsBatch.cs:95-111 | appending keeps the strides 1, 2 and 5 and adds one constraint |
| PinholeBatch.AppendRecords | Assets/Obi/Scripts/Common/Blueprints/Constraints/Batches/ObiPinholeConstraintsBatch.cs:95-111 | the records after an append are the old records followed by the new one |
| PinholeBatch.SwapLists | Assets/Obi/Scripts/Common/Blueprints/Constraints/Batches/ObiPinholeConstraintsBatch.cs:133-149 | swapping keeps the lists well formed and the count unchanged |
| PinholeBatch.SwappedEntries | Assets/Obi/Scripts/Common/Blueprints/Constraints/Batches/ObiPinholeConstraintsBatch.cs:135-148 | the stride-1 lists hold b's entries at a after the swap |
| PinholeBatch.SwappedBlocks | Assets/Obi/Scripts/Common/Blueprints/Constraints/Batches/ObiPinholeConstraintsBatch.cs:140-146 | the stride-2 and stride-5 lists hold b's blocks at a after the swap |
| PinholeBatch.SwappedRecordAt | Assets/Obi/Scripts/Common/Blueprints/Constraints/Batches/ObiPinholeConstraintsBatch.cs:133-149 | the record at a after the swap is the old record at b |
| PinholeBatch.SwapBlockSymmetric | Assets/Obi/Scripts/Common/Blueprints/Constraints/Batches/ObiPinholeConstraintsBatch.cs:140-146 | swapping a with b is the same as swapping b with a |
| PinholeBatch.SwapListsSymmetric | Assets/Obi/Scripts/Common/Blueprints/Constraints/Batches/ObiPinholeConstraintsBatch.cs:133-149 | swapping constraints a and b is symmetric in a and b |
| PinholeBatch.SwapKeepsEntries | Assets/Obi/Scripts/Common/Blueprints/Constraints/Batches/ObiPinholeConstraintsBatch.cs:135-148 | stride-1 entries of every other constraint are unchanged |
| PinholeBatch.SwapKeepsBlocks | Assets/Obi/Scripts/Common/Blueprints/Constraints/Batches/ObiPinholeConstraintsBatch.cs:140-146 | stride-2 and stride-5 blocks of every other constraint are unchanged |
| PinholeBatch.SwapKeepsRecordAt | Assets/Obi/Scripts/Common/Blueprints/Constraints/Batches/ObiPinholeConstraintsBatch.cs:133-149 | every other constraint's record is unchanged |
| PinholeBatch.SwapRecords | Assets/Obi/Scripts/Common/Blueprints/Constraints/Batches/ObiPinholeConstraintsBatch.cs:133-149 | the record sequence after the swap is the old one with entries a and b exchanged |
| PinholeBatch.SwapListsTwice | Assets/Obi/Scripts/Common/Blueprints/Constraints/Batches/ObiPinholeConstraintsBatch.cs:133-149 | swapping the same two constraints twice restores every list |
| PinholeBatch.MergedSpan | Assets/Obi/Scripts/Common/Blueprints/Constraints/Batches/ObiPinholeConstraintsBatch.cs:177-187 | without an actor all three edges are -1; with one, first and last are shifted by its edge offset, and the current edge is clamped into [first, last] (and shifted when it was inside already) |
| PinholeBatch.MergedSpans | Assets/Obi/Scripts/Common/Blueprints/Constraints/Batches/ObiPinholeConstraintsBatch.cs:175-189 | one remapped span per merged constraint |
| PinholeBatch.SpanRanges | Assets/Obi/Scripts/Common/Blueprints/Constraints/Batches/ObiPinholeConstraintsBatch.cs:185-186 | spans are written as (first, last) pairs at stride 2 |
| PinholeBatch.MergeLists | Assets/Obi/Scripts/Common/Blueprints/Constraints/Batches/ObiPinholeConstraintsBatch.cs:158-189 | the merged lists are well formed with active + other.active constraints |
| PinholeBatch.MergeKeepsRecordAt | Assets/Obi/Scripts/Common/Blueprints/Constraints/Batches/ObiPinholeConstraintsBatch.cs:158-173 | each of this batch's active constraints is unchanged by the merge |
| PinholeBatch.MergedEntries | Assets/Obi/Scripts/Common/Blueprints/Constraints/Batches/ObiPinholeConstraintsBatch.cs:169-188 | merged constraint i gets the remapped current edge, its body's collider index, and the other batch's offset, mu and relative velocity |
| PinholeBatch.MergedRangeBlock | Assets/Obi/Scripts/Common/Blueprints/Constraints/Batches/ObiPinholeConstraintsBatch.cs:185-186 | merged constraint i's range block is its remapped (first, last) |
| PinholeBatch.MergedCopiedBlocks | Assets/Obi/Scripts/Common/Blueprints/Constraints/Batches/ObiPinholeConstraintsBatch.cs:170-173 | range mus and parameters are copied block by block from the other batch |
| PinholeBatch.MergeAppendsRecordAt | Assets/Obi/Scripts/Common/Blueprints/Constraints/Batches/ObiPinholeConstraintsBatch.cs:169-188 | record active + i is the other batch's record i, remapped |
| PinholeBatch.MergeKeepsActive | Assets/Obi/Scripts/Common/Blueprints/Constraints/Batches/ObiPinholeConstraintsBatch.cs:158-173 | the first active records are unchanged |
| PinholeBatch.MergeAppendsOther | Assets/Obi/Scripts/Common/Blueprints/Constraints/Batches/ObiPinholeConstraintsBatch.cs:169-188 | every appended record is the remapped record of the other batch |
| PinholeBatch.MergedEdges | Assets/Obi/Scripts/Common/Blueprints/Constraints/Batches/ObiPinholeConstraintsBatch.cs:175-189 | the remapping loop computes the current edges, collider indices and range pairs of the merged spans |
| PinholeBatch.NewRecord | Assets/Obi/Scripts/Common/Blueprints/Constraints/Batches/ObiPinholeConstraintsBatch.cs:95-111 | a new constraint stores its edge, range and range mus, collider index -1 without a body, the offset, the five parameters with clampAtEnds as 1 or 0, and relative velocity 0 |
| PinholeBatch.SwapListEntries | Assets/Obi/Scripts/Common/Blueprints/Constraints/Batches/ObiPinholeConstraintsBatch.cs:135-148 | the field-by-field swap equals the specified list swap |
| PinholeBatch.Batch.constructor | Assets/Obi/Scripts/Common/Blueprints/Constraints/Batches/ObiPinholeConstraintsBatch.cs:34-74 | a new batch has empty lists |
| PinholeBatch.Batch.AddConstraint | Assets/Obi/Scripts/Common/Blueprints/Constraints/Batches/ObiPinholeConstraintsBatch.cs:91-112 | appends the new record to the lists and one body handle and one actor |
| PinholeBatch.Batch.Clear | Assets/Obi/Scripts/Common/Blueprints/Constraints/Batches/ObiPinholeConstraintsBatch.cs:114-126 | empties every list and pinBodies but keeps pinActors |
| PinholeBatch.Batch.GetParticlesInvolved | Assets/Obi/Scripts/Common/Blueprints/Constraints/Batches/ObiPinholeConstraintsBatch.cs:128-131 | appends exactly the constraint's edge index to the list |
| PinholeBatch.Batch.SwapConstraints | Assets/Obi/Scripts/Common/Blueprints/Constraints/Batches/ObiPinholeConstraintsBatch.cs:133-149 | the lists become the specified swap, pinBodies swap their two entries, pinActors are untouched |
| PinholeBatch.Batch.Merge | Assets/Obi/Scripts/Common/Blueprints/Constraints/Batches/ObiPinholeConstraintsBatch.cs:151-193 | the lists become the specified merge of this batch's active prefix and the other batch's remapped constraints |
| ObiPinholeComponent.ClampedToRange | Assets/Obi/Scripts/RopeAndRod/Utils/ObiPinhole.cs:107-127 | nothing changes without a limited range or with the position inside it; above the maximum the position becomes the maximum coordinate, below the minimum the minimum one, each taking the rope's edge there and marked dirty |
| ObiPinholeComponent.ClampMuToRangeIdempotent | Assets/Obi/Scripts/RopeAndRod/Utils/ObiPinhole.cs:107-127 | clamping twice equals clamping once, when the range is not inverted |
| ObiPinholeComponent.MuRecalculated | Assets/Obi/Scripts/RopeAndRod/Utils/ObiPinhole.cs:129-135 | the position is marked dirty and sits on the rope's edge for it, unchanged without a limited range and inside the range with one |
| ObiPinholeComponent.RangeRecalculated | Assets/Obi/Scripts/RopeAndRod/Utils/ObiPinhole.cs:135-153 | the range is marked dirty, the range edges are recomputed (±float.MaxValue coordinates without a limited range) and the position is clamped into them |
| ObiPinholeComponent.CalculateRangeIdempotent | Assets/Obi/Scripts/RopeAndRod/Utils/ObiPinhole.cs:135-153 | recalculating the range a second time changes nothing |
| ObiPinholeComponent.ParameterBlock | Assets/Obi/Scripts/RopeAndRod/Utils/ObiPinhole.cs:250-254 | five parameters per constraint, with clampAtEnds encoded as 1 or 0 |
| ObiPinholeComponent.ParameterBlockMatchesBatch | Assets/Obi/Scripts/RopeAndRod/Utils/ObiPinhole.cs:248-255 | the block the component uploads is the block the batch stores for the same tunables |
| ObiPinholeComponent.FilledEntries | Assets/Obi/Scripts/RopeAndRod/Utils/ObiPinhole.cs:285-291 | an upload loop writes its block into exactly the active slots and nowhere else |
| ObiPinholeComponent.ReadBack | Assets/Obi/Scripts/RopeAndRod/Utils/ObiPinhole.cs:311-320 | reading back changes only the current edge and position, nothing with no active constraints, and the position is the read edge's rope coordinate |
| ObiPinholeComponent.WriteThenRead | Assets/Obi/Scripts/RopeAndRod/Utils/ObiPinhole.cs:298-320 | writing an edge with the rope's edge offset and reading it back returns the same edge and its rope coordinate |
| ObiPinholeComponent.SyncedState | Assets/Obi/Scripts/RopeAndRod/Utils/ObiPinhole.cs:282-320 | after synchronising both dirty flags are clear, and a dirty position is kept rather than read back |
| ObiPinholeComponent.RangeSlots | Assets/Obi/Scripts/RopeAndRod/Utils/ObiPinhole.cs:282-291 | a clean range leaves the solver's edge ranges untouched |
| ObiPinholeComponent.RangeMuSlots | Assets/Obi/Scripts/RopeAndRod/Utils/ObiPinhole.cs:282-291 | a clean range leaves the solver's range coordinates untouched |
| ObiPinholeComponent.EdgeSlots | Assets/Obi/Scripts/RopeAndRod/Utils/ObiPinhole.cs:298-305 | a clean position leaves the solver's edge indices untouched |
| ObiPinholeComponent.MuSlots | Assets/Obi/Scripts/RopeAndRod/Utils/ObiPinhole.cs:298-305 | a clean position leaves the solver's edge coordinates untouched |
| ObiPinholeComponent.SyncRoundTrip | Assets/Obi/Scripts/RopeAndRod/Utils/ObiPinhole.cs:298-320 | a dirty position uploaded in one call is read back unchanged in the next |
| ObiPinholeComponent.WriteParameters | Assets/Obi/Scripts/RopeAndRod/Utils/ObiPinhole.cs:248-255 | the loop fills the batch's parameter slots with the block |
| ObiPinholeComponent.WriteRange | Assets/Obi/Scripts/RopeAndRod/Utils/ObiPinhole.cs:285-291 | the loop fills the range pairs and range coordinate pairs |
| ObiPinholeComponent.WritePosition | Assets/Obi/Scripts/RopeAndRod/Utils/ObiPinhole.cs:301-305 | the loop fills the edge index and coordinate slots |
| ObiPinholeComponent.ReadPosition | Assets/Obi/Scripts/RopeAndRod/Utils/ObiPinhole.cs:314-319 | the read loop yields the specified read-back state |
| ObiPinholeComponent.ReadRelativeVelocity | Assets/Obi/Scripts/RopeAndRod/Utils/ObiPinhole.cs:322-325 | the relative velocity is that of the last active constraint, or unchanged when there is none |
| ObiPinholeComponent.BreaksExactly | Assets/Obi/Scripts/RopeAndRod/Utils/ObiPinhole.cs:334 | a constraint breaks exactly when -lambda/substepTime² exceeds the threshold, and never with the default +∞ threshold (or NaN) |
| ObiPinholeComponent.Broken | Assets/Obi/Scripts/RopeAndRod/Utils/ObiPinhole.cs:329-337 | lists exactly the active constraints that break |
| ObiPinholeComponent.BreakPinhole | Assets/Obi/Scripts/RopeAndRod/Utils/ObiPinhole.cs:329-337 | refreshes every active body handle, lists exactly the breaking constraints for deactivation, and reports dirty exactly when something broke or a handle changed |
| ObiPinholeComponent.Pinhole.constructor | Assets/Obi/Scripts/RopeAndRod/Utils/ObiPinhole.cs:3-16 | a new pinhole has the serialized defaults (edges default-initialised to edge 0 at coordinate 0), is not bound, has all three dirty flags as declared and break threshold +∞ |
| ObiPinholeComponent.Pinhole.SetCompliance | Assets/Obi/Scripts/RopeAndRod/Utils/ObiPinhole.cs:63 | nothing changes for an approximately equal value; otherwise the value is stored and parameters are marked dirty |
| ObiPinholeComponent.Pinhole.SetFriction | Assets/Obi/Scripts/RopeAndRod/Utils/ObiPinhole.cs:65 | as compliance, for friction |
| ObiPinholeComponent.Pinhole.SetMotorSpeed | Assets/Obi/Scripts/RopeAndRod/Utils/ObiPinhole.cs:68 | as compliance, for motor speed |
| ObiPinholeComponent.Pinhole.SetMotorForce | Assets/Obi/Scripts/RopeAndRod/Utils/ObiPinhole.cs:70 | as compliance, for motor force |
| ObiPinholeComponent.Pinhole.SetClampAtEnds | Assets/Obi/Scripts/RopeAndRod/Utils/ObiPinhole.cs:72 | marks parameters dirty only when the flag actually changes |
| ObiPinholeComponent.Pinhole.ClampMuToRange | Assets/Obi/Scripts/RopeAndRod/Utils/ObiPinhole.cs:107-127 | the state becomes the clamped state |
| ObiPinholeComponent.Pinhole.CalculateMu | Assets/Obi/Scripts/RopeAndRod/Utils/ObiPinhole.cs:129-135 | the state becomes the recalculated-position state |
| ObiPinholeComponent.Pinhole.CalculateRange | Assets/Obi/Scripts/RopeAndRod/Utils/ObiPinhole.cs:135-153 | the state becomes the recalculated-range state |
| ObiPinholeComponent.Pinhole.SetPosition | Assets/Obi/Scripts/RopeAndRod/Utils/ObiPinhole.cs:33-40 | an approximately equal position changes nothing; otherwise the position is stored and recalculated |
| ObiPinholeComponent.Pinhole.SetLimitRange | Assets/Obi/Scripts/RopeAndRod/Utils/ObiPinhole.cs:42-51 | an unchanged flag changes nothing; otherwise the range is recalculated with the new flag |
| ObiPinholeComponent.Pinhole.SetRange | Assets/Obi/Scripts/RopeAndRod/Utils/ObiPinhole.cs:54-59 | stores the range and recalculates it |
| ObiPinholeComponent.Pinhole.UpdateParameters | Assets/Obi/Scripts/RopeAndRod/Utils/ObiPinhole.cs:232-262 | when bound, dirty and placed in the solver, uploads the parameter block to every active slot and clears the flag; otherwise changes nothing |
| ObiPinholeComponent.Pinhole.SyncRange | Assets/Obi/Scripts/RopeAndRod/Utils/ObiPinhole.cs:282-296 | uploads the range when dirty and clears the flag |
| ObiPinholeComponent.Pinhole.SyncPosition | Assets/Obi/Scripts/RopeAndRod/Utils/ObiPinhole.cs:298-325 | uploads a dirty position, otherwise reads it back, then reads the relative velocity |
| ObiPinholeComponent.Pinhole.UpdateEdgeCoordinate | Assets/Obi/Scripts/RopeAndRod/Utils/ObiPinhole.cs:262-329 | when bound and placed, the state and the four solver lists become the synchronised ones; otherwise nothing changes |
| BurstDensity.FluidDataCleared | Assets/Obi/Scripts/Common/Backends/Burst/Constraints/Density/BurstDensityConstraints.cs:271-278 | fluid data, mass centres (normals), previous mass centres (renderable positions) and moments (anisotropies) become zero, and nothing else changes |
| BurstDensity.ClearFluidData | Assets/Obi/Scripts/Common/Backends/Burst/Constraints/Density/BurstDensityConstraints.cs:263-280 | the job clears exactly the fluid particles |
| BurstDensity.ClearFluidDataEffect | Assets/Obi/Scripts/Common/Backends/Burst/Constraints/Density/BurstDensityConstraints.cs:271-278 | fluid particles are zeroed with position and life kept; all others are untouched |
| BurstDensity.SelfContribution | Assets/Obi/Scripts/Common/Backends/Burst/Constraints/Density/BurstDensityConstraints.cs:343-346 | the self contribution leaves the lambda slot as it was and does not decrease the squared-gradient sum |
| BurstDensity.DensityConstraint | Assets/Obi/Scripts/Common/Backends/Burst/Constraints/Density/BurstDensityConstraints.cs:353 | the constraint is non-negative for non-negative stiffness and zero at or below rest density |
| BurstDensity.LambdaUpdated | Assets/Obi/Scripts/Common/Backends/Burst/Constraints/Density/BurstDensityConstraints.cs:336-377 | the count grows by one; the stored lambda is ≤ 0 when stiffness ≥ 0 and invMass times the gradient sum is ≥ 0, and 0 at or below rest density |
| BurstDensity.CalculateLambdas | Assets/Obi/Scripts/Common/Backends/Burst/Constraints/Density/BurstDensityConstraints.cs:336-377 | the job updates exactly the fluid particles |
| BurstDensity.CalculateLambdasEffect | Assets/Obi/Scripts/Common/Backends/Burst/Constraints/Density/BurstDensityConstraints.cs:353-376 | each fluid particle's count grows by exactly one and its lambda is non-positive under the same conditions; other particles are untouched |
| BurstDensity.DeltasApplied | Assets/Obi/Scripts/Common/Backends/Burst/Constraints/Density/BurstDensityConstraints.cs:394-414 | with count > 0, position.xyz gains delta/count (w kept) and delta and count reset; otherwise position, delta and count stay; in both cases normal, anisotropy, rest position, orientation delta and fluidData.z become zero, and life, previous position and radii are kept |
| BurstDensity.ApplyPositionDeltas | Assets/Obi/Scripts/Common/Backends/Burst/Constraints/Density/BurstDensityConstraints.cs:394-414 | the job applies the deltas of exactly the fluid particles |
| BurstDensity.ApplyPositionDeltasTwice | Assets/Obi/Scripts/Common/Backends/Burst/Constraints/Density/BurstDensityConstraints.cs:398-413 | running the job a second time changes nothing |
| BurstDensity.SmoothPositionAveraged | Assets/Obi/Scripts/Common/Backends/Burst/Constraints/Density/BurstDensityConstraints.cs:484-496 | with weight w > 0 the smoothed position is divided by w, so w becomes 1; otherwise its xyz becomes the renderable position; nothing else changes |
| BurstDensity.AverageSmoothPositions | Assets/Obi/Scripts/Common/Backends/Burst/Constraints/Density/BurstDensityConstraints.cs:484-496 | the job averages exactly the fluid particles |
| BurstDensity.AnisotropyAveraged | Assets/Obi/Scripts/Common/Backends/Burst/Constraints/Density/BurstDensityConstraints.cs:515-549 | the fallback gives three radii principalRadius/maxAnisotropy, identity orientation and the isolated-particle volume; the eigen branch keeps the fluid data and accepts any radius; radii.w is 0 exactly for dead particles |
| BurstDensity.AverageAnisotropy | Assets/Obi/Scripts/Common/Backends/Burst/Constraints/Density/BurstDensityConstraints.cs:515-549 | the job updates exactly the fluid particles; only the fallback branch needs a non-zero radius |
| BurstDensity.CalculateAnisotropyLaplacianSmoothing | Assets/Obi/Scripts/Common/Backends/Burst/Constraints/Density/BurstDensityConstraints.cs:120-147 | with maxAnisotropy ≤ 1 nothing changes; otherwise the particles end as the four passes prescribe |
| BurstDensity.Prepared | Assets/Obi/Scripts/Common/Backends/Burst/Constraints/Density/BurstDensityConstraints.cs:129-141 | after the first three passes every fluid particle is `Smoothed` (positions accumulated and averaged, then moments accumulated) and every other particle is unchanged |
| BurstDensity.SmoothingHidesDeadParticles | Assets/Obi/Scripts/Common/Backends/Burst/Constraints/Density/BurstDensityConstraints.cs:546-548 | after the anisotropy job a fluid particle's radii.w is 0 exactly when its life is ≤ 0, and 1 otherwise |
| FoamParticles.EmittedRange | Assets/Obi/Scripts/Common/Backends/Burst/Solver/FoamParticlesJob.cs:45-68 | emitting keeps the buffer length |
| FoamParticles.EmittedRangeStep | Assets/Obi/Scripts/Common/Backends/Burst/Solver/FoamParticlesJob.cs:45-47 | one more emission writes its slot only when that slot is below capacity |
| FoamParticles.EmittedRangeSlots | Assets/Obi/Scripts/Common/Backends/Burst/Solver/FoamParticlesJob.cs:45-47 | slots below the starting counter are untouched, and a run that fits lands exactly in the slots after it |
| FoamParticles.Emit | Assets/Obi/Scripts/Common/Backends/Burst/Solver/FoamParticlesJob.cs:40-69 | the alive counter grows by one and the particle is written at the old counter when it is below capacity |
| FoamParticles.EmitParticles | Assets/Obi/Scripts/Common/Backends/Burst/Solver/FoamParticlesJob.cs:40-69 | n emissions raise the counter by max(n, 0) and write the spawned particles in order, within capacity |
| FoamParticles.PotentialUpdated | Assets/Obi/Scripts/Common/Backends/Burst/Solver/FoamParticlesJob.cs:124-129 | the foam potential stays in [0,1] |
| FoamParticles.EmissionAccumulator | Assets/Obi/Scripts/Common/Backends/Burst/Solver/FoamParticlesJob.cs:124-129 | the emit count is the integer part of the raised accumulator, the remainder plus the count equals the raised accumulator, and from non-negative inputs the remainder is in [0,1) |
| FoamParticles.PotentialsAfter | Assets/Obi/Scripts/Common/Backends/Burst/Solver/FoamParticlesJob.cs:109-129 | every active particle's potential is in [0,1] afterwards |
| FoamParticles.PotentialsAfterUntouched | Assets/Obi/Scripts/Common/Backends/Burst/Solver/FoamParticlesJob.cs:113 | inactive particles keep their potential |
| FoamParticles.PotentialsAfterStep | Assets/Obi/Scripts/Common/Backends/Burst/Solver/FoamParticlesJob.cs:113-129 | one more active particle updates its own potential only |
| FoamParticles.TotalEmitCountStep | Assets/Obi/Scripts/Common/Backends/Burst/Solver/FoamParticlesJob.cs:131-137 | one more active particle adds its non-negative emit count to the total |
| FoamParticles.Spawned | Assets/Obi/Scripts/Common/Backends/Burst/Solver/FoamParticlesJob.cs:131-137 | as many particles are spawned as the total emit count |
| FoamParticles.SpawnedStep | Assets/Obi/Scripts/Common/Backends/Burst/Solver/FoamParticlesJob.cs:131-137 | one more active particle appends its own spawned particles |
| FoamParticles.EmittedRangeAppend | Assets/Obi/Scripts/Common/Backends/Burst/Solver/FoamParticlesJob.cs:131-137 | emitting two batches one after the other, with the counter advanced by the first, is emitting them together |
| FoamParticles.GenerateFrom | Assets/Obi/Scripts/Common/Backends/Burst/Solver/FoamParticlesJob.cs:109-158 | one particle's potential is updated, the alive counter grows by its non-negative emit count, and exactly that many spawned particles are written from the old counter on, within capacity |
| FoamParticles.GenerateParticles | Assets/Obi/Scripts/Common/Backends/Burst/Solver/FoamParticlesJob.cs:109-158 | potentials become the specified ones, the alive counter grows by the total emit count, and the output holds every active particle's spawned particles in order from the old counter on, within capacity; earlier slots are untouched |
| FoamParticles.GenerateNext | Assets/Obi/Scripts/Common/Backends/Burst/Solver/FoamParticlesJob.cs:109-158 | the i-th active particle extends the potentials, the counters and the emitted output by its own step |
| FoamParticles.GenerateStepFacts | Assets/Obi/Scripts/Common/Backends/Burst/Solver/FoamParticlesJob.cs:113-137 | one more active particle updates its own potential only and adds its emit count and spawned particles to the totals |
| FoamParticles.SurvivorsBound | Assets/Obi/Scripts/Common/Backends/Burst/Solver/FoamParticlesJob.cs:215-219 | no more particles survive than were popped from inside the input |
| FoamParticles.SurvivorsAllAlive | Assets/Obi/Scripts/Common/Backends/Burst/Solver/FoamParticlesJob.cs:215-219 | when every popped particle is alive, all of them survive |
| FoamParticles.Aged | Assets/Obi/Scripts/Common/Backends/Burst/Solver/FoamParticlesJob.cs:320-322 | an aged particle keeps its colour and its other attributes; with a non-negative aging rate, time step and scale its life does not grow, and with positive ones it strictly drops |
| FoamParticles.SurvivorsComeFromAlive | Assets/Obi/Scripts/Common/Backends/Burst/Solver/FoamParticlesJob.cs:215-219 | every kept particle is the aged copy of a popped in-buffer particle that was alive |
| FoamParticles.AgedSurvivorsLoseLife | Assets/Obi/Scripts/Common/Backends/Burst/Solver/FoamParticlesJob.cs:215-322 | with non-negative aging rates, time step and scale, every kept particle has the colour of a popped live particle and no more life than it |
| FoamParticles.UpdateParticle | Assets/Obi/Scripts/Common/Backends/Burst/Solver/FoamParticlesJob.cs:212-328 | pops one entry; an in-bounds, alive particle is aged and appended at the next-alive counter, which grows by one |
| FoamParticles.UpdateParticles | Assets/Obi/Scripts/Common/Backends/Burst/Solver/FoamParticlesJob.cs:212-328 | n pops lower the alive counter by n, and the survivors are written in pop order with the next-alive counter equal to their number |
| FoamParticles.Copy | Assets/Obi/Scripts/Common/Backends/Burst/Solver/FoamParticlesJob.cs:346-358 | with work, the alive counter takes the next-alive count and that resets to 0; the first n particles are copied unchanged and the rest of the output is untouched |
| ParticleLifetimes.LivesAfter | Assets/Obi/Scripts/Common/Backends/Burst/Solver/UpdateParticleLifetimesJob.cs:25-38 | lifetimes keep their length |
| ParticleLifetimes.Dying | Assets/Obi/Scripts/Common/Backends/Burst/Solver/UpdateParticleLifetimesJob.cs:31-37 | no more particles die than are active |
| ParticleLifetimes.LivesAfterAreDecremented | Assets/Obi/Scripts/Common/Backends/Burst/Solver/UpdateParticleLifetimesJob.cs:27-32 | an active particle's life becomes max(0, life − dt) ≥ 0; an inactive one keeps it |
| ParticleLifetimes.DyingExactly | Assets/Obi/Scripts/Common/Backends/Burst/Solver/UpdateParticleLifetimesJob.cs:31-37 | a particle is listed as dead exactly when it is active and its life runs out |
| ParticleLifetimes.LivesAfterStep | Assets/Obi/Scripts/Common/Backends/Burst/Solver/UpdateParticleLifetimesJob.cs:27-32 | one more active particle changes only its own life |
| ParticleLifetimes.DyingStep | Assets/Obi/Scripts/Common/Backends/Burst/Solver/UpdateParticleLifetimesJob.cs:31-37 | one more active particle appends itself to the dead list exactly when it dies |
| ParticleLifetimes.AgeParticle | Assets/Obi/Scripts/Common/Backends/Burst/Solver/UpdateParticleLifetimesJob.cs:27-37 | ages one particle and, when it dies, appends it at the old dead count |
| ParticleLifetimes.UpdateParticleLifetimes | Assets/Obi/Scripts/Common/Backends/Burst/Solver/UpdateParticleLifetimesJob.cs:25-38 | lives become the decremented ones, the dead count grows by the number of dying particles, and the new dead-list slots hold exactly them, in order |
| ParticleLifetimes.AgeNext | Assets/Obi/Scripts/Common/Backends/Burst/Solver/UpdateParticleLifetimesJob.cs:27-37 | the i-th active particle extends the lives and the dead list by its own step |
| EnforceLimits.Step | Assets/Obi/Scripts/Common/Backends/Burst/Solver/EnforceLimitsJob.cs:29 | math.step is 1 exactly when b ≥ a, and 0 otherwise |
| EnforceLimits.OutsideIffNotStrictlyInside | Assets/Obi/Scripts/Common/Backends/Burst/Solver/EnforceLimitsJob.cs:29 | "outside" is inclusive: a particle is outside exactly when it is not strictly inside on every axis |
| EnforceLimits.ClampXyz | Assets/Obi/Scripts/Common/Backends/Burst/Solver/EnforceLimitsJob.cs:34-35 | xyz is clamped into a well-formed box, w is kept, and a point in the box is unchanged |
| EnforceLimits.Limited | Assets/Obi/Scripts/Common/Backends/Burst/Solver/EnforceLimitsJob.cs:27-38 | position and previous position end in the box with w kept, points already in it are unchanged, and life is set to 0 only for an isolated particle outside with killOffLimits |
| EnforceLimits.LimitedIdempotent | Assets/Obi/Scripts/Common/Backends/Burst/Solver/EnforceLimitsJob.cs:27-38 | limiting twice equals limiting once |
| EnforceLimits.EnforceParticleLimits | Assets/Obi/Scripts/Common/Backends/Burst/Solver/EnforceLimitsJob.cs:22-39 | the job limits exactly the active particles |
| EnforceLimits.EnforceLimitsEffect | Assets/Obi/Scripts/Common/Backends/Burst/Solver/EnforceLimitsJob.cs:29-38 | active particles end in the box, and only isolated particles under killOffLimits can change life; inactive particles are untouched |
| EnforceLimits.EnforceLimitsIdempotent | Assets/Obi/Scripts/Common/Backends/Burst/Solver/EnforceLimitsJob.cs:22-39 | running the job twice equals running it once |
| InertialForces.AngularAccel | Assets/Obi/Scripts/Common/Backends/Burst/Solver/ApplyInertialForcesJob.cs:40-43 | the angular acceleration has w = 0 and vanishes for a frame that does not rotate |
| InertialForces.AngularTermsOrthogonal | Assets/Obi/Scripts/Common/Backends/Burst/Solver/ApplyInertialForcesJob.cs:40-43 | the Euler and Coriolis terms are orthogonal to position and velocity respectively, and the centrifugal term to the angular velocity |
| InertialForces.InertiaApplied | Assets/Obi/Scripts/Common/Backends/Burst/Solver/ApplyInertialForcesJob.cs:34-55 | position and invMass are kept, a particle with invMass ≤ 0 keeps its velocity, and a frame at rest changes no velocity |
| InertialForces.ApplyInertialForces | Assets/Obi/Scripts/Common/Backends/Burst/Solver/ApplyInertialForcesJob.cs:34-55 | the job updates exactly the active particles |
| InertialForces.InertialForcesAtRest | Assets/Obi/Scripts/Common/Backends/Burst/Solver/ApplyInertialForcesJob.cs:48-54 | at rest without inertial wind each active particle's only change is wind = ambientWind |
| InertialForces.InertialForcesSparePinned | Assets/Obi/Scripts/Common/Backends/Burst/Solver/ApplyInertialForcesJob.cs:36-46 | pinned particles keep velocity and position, and inactive ones are untouched |
| VoxelDistanceField.SqrDist | Assets/Obi/Scripts/Common/DataStructures/Voxelization/VoxelDistanceField.cs:200 | the squared distance is non-negative and zero exactly for equal voxels |
| VoxelDistanceField.ClosestSeed | Assets/Obi/Scripts/Common/DataStructures/Voxelization/VoxelDistanceField.cs:188-226 | the chosen seed is the voxel's own seed or a valid seed offered by an in-grid neighbour, no offered seed is strictly closer, and it changes only on a strict improvement |
| VoxelDistanceField.JumpFloodRow | Assets/Obi/Scripts/Common/DataStructures/Voxelization/VoxelDistanceField.cs:182-226 | one row gets the closest-seed result and other rows are untouched |
| VoxelDistanceField.JumpFloodPass | Assets/Obi/Scripts/Common/DataStructures/Voxelization/VoxelDistanceField.cs:177-229 | every output cell holds the closest seed among the voxel's and its neighbours' at the pass's stride |
| VoxelDistanceField.InitSeedRow | Assets/Obi/Scripts/Common/DataStructures/Voxelization/VoxelDistanceField.cs:139-145 | one row is seeded and other rows are untouched |
| VoxelDistanceField.InitSeeds | Assets/Obi/Scripts/Common/DataStructures/Voxelization/VoxelDistanceField.cs:137-145 | every outside voxel seeds itself and every other voxel is (-1,-1,-1) |
| VoxelDistanceField.InitialSeedsValid | Assets/Obi/Scripts/Common/DataStructures/Voxelization/VoxelDistanceField.cs:137-145 | the initial buffer holds only outside voxels as seeds, and outside voxels are their own seeds |
| VoxelDistanceField.PassKeepsSeeds | Assets/Obi/Scripts/Common/DataStructures/Voxelization/VoxelDistanceField.cs:191-195 | a pass keeps both facts: seeds are outside voxels, and outside voxels keep themselves |
| VoxelDistanceField.PassResultSameSeeds | Assets/Obi/Scripts/Common/DataStructures/Voxelization/VoxelDistanceField.cs:177-229 | a pass result depends only on the seeds held, not on which buffer holds them |
| VoxelDistanceField.ClosestAmongSameSeeds | Assets/Obi/Scripts/Common/DataStructures/Voxelization/VoxelDistanceField.cs:188-226 | the closest-seed choice depends only on the seeds held |
| VoxelDistanceField.PassChainExtend | Assets/Obi/Scripts/Common/DataStructures/Voxelization/VoxelDistanceField.cs:159-170 | a chain of passes extended by one more pass at the next stride is a chain |
| VoxelDistanceField.FloodPass | Assets/Obi/Scripts/Common/DataStructures/Voxelization/VoxelDistanceField.cs:159-170 | one pass into the other buffer keeps the seed invariants and yields a snapshot that is the pass result of the previous one |
| VoxelDistanceField.HalvingsOfHalfIsLog2 | Assets/Obi/Scripts/Common/DataStructures/Voxelization/VoxelDistanceField.cs:151-164 | starting from size/2 and halving, the loop runs floor(log2 size) passes |
| VoxelDistanceField.StridesHalve | Assets/Obi/Scripts/Common/DataStructures/Voxelization/VoxelDistanceField.cs:151-164 | the strides start at the given step, each is half the previous, all are at least 1, the last is 1, and there are as many as halvings |
| VoxelDistanceField.JumpFloodSeeds | Assets/Obi/Scripts/Common/DataStructures/Voxelization/VoxelDistanceField.cs:128-172 | the ping-pong loop runs log2 of the largest dimension passes with strides halving from half that dimension down to 1; it starts from the initial seeds, each snapshot is the closest-seed pass of the previous one at its stride, and the result holds the last snapshot's seeds, which are valid |
| VoxelDistanceField.Max3 | Assets/Obi/Scripts/Common/DataStructures/Voxelization/VoxelDistanceField.cs:148-150 | the size is the largest of the three dimensions |
| VoxelDistanceField.GradientRow | Assets/Obi/Scripts/Common/DataStructures/Voxelization/VoxelDistanceField.cs:113-122 | one row gets its gradients and other rows are untouched |
| VoxelDistanceField.Gradients | Assets/Obi/Scripts/Common/DataStructures/Voxelization/VoxelDistanceField.cs:105-123 | outside voxels get zero, and the rest get the vector from their centre to their seed's centre |
| VoxelDistanceField.NeighbourSum | Assets/Obi/Scripts/Common/DataStructures/Voxelization/VoxelDistanceField.cs:87-96 | no more neighbours count than there are face offsets |
| VoxelDistanceField.NeighbourAverage | Assets/Obi/Scripts/Common/DataStructures/Voxelization/VoxelDistanceField.cs:84-98 | the loop yields the specified average of the voxel and its contributing neighbours |
| VoxelDistanceField.NeighbourSumOfConstant | Assets/Obi/Scripts/Common/DataStructures/Voxelization/VoxelDistanceField.cs:87-96 | neighbours that all hold v sum to count·v |
| VoxelDistanceField.SmoothingKeepsUniformValue | Assets/Obi/Scripts/Common/DataStructures/Voxelization/VoxelDistanceField.cs:84-98 | smoothing a voxel whose contributing neighbours equal it leaves it unchanged |
| VoxelDistanceField.SmoothRow | Assets/Obi/Scripts/Common/DataStructures/Voxelization/VoxelDistanceField.cs:80-99 | one row of non-outside voxels is smoothed |
| VoxelDistanceField.SmoothField | Assets/Obi/Scripts/Common/DataStructures/Voxelization/VoxelDistanceField.cs:74-100 | outside voxels are zero, and the rest are the average of themselves and their non-outside in-grid face neighbours |
| VoxelDistanceField.DistanceField.constructor | Assets/Obi/Scripts/Common/DataStructures/Voxelization/VoxelDistanceField.cs:17-20 | keeps the voxelizer and has no field yet |
| VoxelDistanceField.DistanceField.JumpFlood | Assets/Obi/Scripts/Common/DataStructures/Voxelization/VoxelDistanceField.cs:125-175 | the new field holds the gradients of the seed buffer that the chain of passes (from the initial seeds, strides halving to 1) produces, zero at outside voxels |
| VoxelDistanceField.DistanceField.Smooth | Assets/Obi/Scripts/Common/DataStructures/Voxelization/VoxelDistanceField.cs:71-103 | the new field is the smoothed old field |
| VoxelDistanceField.DistanceField.SampleUnfiltered | Assets/Obi/Scripts/Common/DataStructures/Voxelization/VoxelDistanceField.cs:22-33 | indices are clamped into the grid, the normalized gradient is read there, and w = −magnitude ≤ 0 |
| RopeUtils.SegmentEndFrom | Assets/Scripts/RopeUtils.cs:155-178 | the first segment end at or after i |
| RopeUtils.LastElement | Assets/Scripts/RopeUtils.cs:180-190 | -1 exactly for an empty list, otherwise the smallest index that ends the first segment |
| RopeUtils.FirstEndingAt | Assets/Scripts/RopeUtils.cs:195-220 | the first element before n ending at the particle, or -1 when none does |
| RopeUtils.SplitKeepsChain | Assets/Scripts/RopeUtils.cs:106-144 | a split grows the list by one, re-points the split element to the new particle, inserts the new element joined to it, and leaves every other element in place |
| RopeUtils.Rope.constructor | Assets/Scripts/RopeUtils.cs:106 | holds the given elements |
| RopeUtils.Rope.GetLastElement | Assets/Scripts/RopeUtils.cs:180-190 | returns the last element of the first segment, -1 when empty |
| RopeUtils.Rope.GetParticlesFromEnd | Assets/Scripts/RopeUtils.cs:195-220 | -1 when no first-segment element ends at the particle, otherwise the number of first-segment elements after it |
| RopeUtils.Rope.GetRestLengthAtElement | Assets/Scripts/RopeUtils.cs:225-238 | the rest-length sum up to the element, or of the whole list for an index out of range |
| RopeUtils.Rope.GetRestLengthOfFirstSegment | Assets/Scripts/RopeUtils.cs:240-256 | 0 for an empty list, otherwise the rest-length sum over the first segment |
| RopeUtils.Rope.GetRestLengthAtParticle | Assets/Scripts/RopeUtils.cs:390-411 | 0 at the rope's first particle, otherwise the prefix sum up to the first first-segment element ending at the particle, or 0 if none |
| RopeUtils.Rope.InsertElementBefore | Assets/Scripts/RopeUtils.cs:106-124 | splits the target so the new element comes first, with the given rest length or the distance to the start |
| RopeUtils.Rope.InsertElementAfter | Assets/Scripts/RopeUtils.cs:126-144 | splits the target so the new element comes after it, with rest lengths from the distances |
| RopeUtils.Rope.RemoveElementsAfter | Assets/Scripts/RopeUtils.cs:155-178 | removes nothing when the target ends its segment; otherwise removes the rest of that segment, keeps the order of the remaining elements, returns how many it removed, and lists the removed elements' second particles, in order, for deactivation |
| RopeUtils.SecondParticles | Assets/Scripts/RopeUtils.cs:171 | one entry per element, the element's second particle, in order |
| RopeUtils.Rope.DoesSegmentHaveElementCount | Assets/Scripts/RopeUtils.cs:492-505 | ignores the starting element, and is true exactly for a non-empty list whose first segment has at least the count |
| RopeUtils.FirstSegmentEnd | Assets/Scripts/RopeUtils.cs:180-190 | the first segment end is the last element |
| RopeUtils.FirstEndingAtExtends | Assets/Scripts/RopeUtils.cs:195-220 | a match found in a prefix stays the first match in any longer prefix |
| Extensions.FastRemoved | Assets/Scripts/Extensions.cs:137-147 | fails exactly for an index outside the list; otherwise one shorter, with the former last element at the index and every other position unchanged |
| Extensions.FastRemovedLosesOne | Assets/Scripts/Extensions.cs:143-146 | the multiset loses exactly one occurrence of the removed element |
| Extensions.MutableList.constructor | Assets/Scripts/Extensions.cs:137 | holds the given items |
| Extensions.MutableList.FastRemoveAt | Assets/Scripts/Extensions.cs:137-147 | throws and leaves the list for a bad index, otherwise the list becomes the fast removal |
| Extensions.IsNullOrEmpty | Assets/Scripts/Extensions.cs:99-102 | true exactly for a null or empty collection |
| Extensions.RandomElement | Assets/Scripts/Extensions.cs:9-15 | fails exactly for a null or empty array, otherwise returns one of its elements |
| Extensions.Range | Assets/Scripts/Extensions.cs:44-47 | x plus the range is y |
| Extensions.NormalizeValue01 | Assets/Scripts/Extensions.cs:94-97 | the result is in [0,1] unless it is NaN, which happens exactly for a degenerate range at its own value |
| Extensions.NormalizeValue01DegenerateRange | Assets/Scripts/Extensions.cs:94-97 | range (1,1) at 1 gives NaN |
| Extensions.NormalizeValue01Safe | Assets/Scripts/Extensions.cs:94-97 | always in [0,1], and agrees with the original whenever that is not NaN |
| Extensions.NormalizeValue01SafeEnds | Assets/Scripts/Extensions.cs:94-97 | on a proper range the value maps to 0 exactly at or below x and to 1 exactly at or above y |
| Extensions.Abs | Assets/Scripts/Extensions.cs:75-78 | non-negative components, each the input's or its negation |
| Extensions.HadamardProduct | Assets/Scripts/Extensions.cs:127-130 | the components sum to the dot product, and (1,1,1) is its identity |
| MathUtils.Clamp | Assets/Scripts/MathUtils.cs:54-57 | for min ≤ max the result is in [min, max], equals n exactly when n is in range, and is the crossed bound otherwise |
| MathUtils.GetSign | Assets/Scripts/MathUtils.cs:347-354 | 1 exactly for positive, -1 exactly for negative, 0 otherwise, and sign·value = abs(value) |
| MathUtils.ClampToNonReverse | Assets/Scripts/MathUtils.cs:59-69 | never points against the reference; v is returned exactly when it does not (or is zero), otherwise zero |
| MathUtils.MultiplyVectors | Assets/Scripts/MathUtils.cs:330-344 | zero for no vectors, otherwise the component-wise product of all of them |
| MathUtils.ComponentProductZeroFactor | Assets/Scripts/MathUtils.cs:330-344 | a zero component in any factor makes that product component zero |
| MathUtils.GetBoxVolume | Assets/Scripts/MathUtils.cs:247-250 | zero exactly when some side is zero, and non-negative for non-negative sides |
| MathUtils.CapHeight | Assets/Scripts/MathUtils.cs:236 | the cap height is clamped into [0, 2·radius] and kept when already inside |
| MathUtils.GetVolumeOfSphereCap | Assets/Scripts/MathUtils.cs:234-238 | the cap volume is non-negative for a non-negative radius |
| MathUtils.NonNegativeCapVolume | Assets/Scripts/MathUtils.cs:237 | the cap volume formula is non-negative for a height in [0, 2·radius] |
| MathUtils.GetSurfaceAreaOfSphereCap | Assets/Scripts/MathUtils.cs:240-245 | the cap area lies between 0 and the whole sphere's area |
| MathUtils.CapAreaBounds | Assets/Scripts/MathUtils.cs:244 | the cap area formula lies between 0 and 4πr² for a height in [0, 2·radius] |
| MathUtils.SphereCapUsesClampedHeight | Assets/Scripts/MathUtils.cs:234-245 | both cap functions give the same result for a height and its clamped value |
| MathUtils.CoefficientsOf | Assets/Scripts/MathUtils.cs:285-295 | a zero-length second segment makes b, c and e zero |
| MathUtils.ParamsFrom | Assets/Scripts/MathUtils.cs:297-316 | with clamping t is in [0,1] and a non-NaN s is in [0,1]; zero b, c and e give s = NaN |
| MathUtils.ClosestParams | Assets/Scripts/MathUtils.cs:283-317 | with clamping t is in [0,1] and a non-NaN s is in [0,1]; a zero-length second segment gives s = NaN |
| MathUtils.ClosestParamsDegenerateSegment | Assets/Scripts/MathUtils.cs:297-298 | segment (0,0,0)-(0,0,0) gives s = NaN |
| MathUtils.ClosestParamsSafe | Assets/Scripts/MathUtils.cs:283-317 | both parameters are in [0,1] with clamping, s is 0 for a zero-length segment, and otherwise both agree with the original |
| MathUtils.FindClosestPointsOnLines | Assets/Scripts/MathUtils.cs:283-317 | the corrected closest points: with clamping both points lie on their segments, a zero-length second segment yields its point, and otherwise they agree with the source |
| MathUtils.ClosestPointsAsWritten | Assets/Scripts/MathUtils.cs:283-317 | the source's closest points with NaN carried: a zero-length second segment gives a NaN point, the first point and every finite case agree with the corrected version |
| MathUtils.ClosestPointsAsWrittenDegenerate | Assets/Scripts/MathUtils.cs:297-317 | segment (0,0,0)-(0,0,0) gives a point that is not the segment's point |
| MathUtils.AddScaled | Assets/Scripts/MathUtils.cs:317 | c + d·s is finite for finite s and NaN for NaN s |
| FoamEmitter.Emit | Assets/Obi/Scripts/Common/Utils/ObiFoamEmitter.cs:26-32 | particles plus the kept fraction equal accumulator plus amount; from a non-negative total the count is ≥ 0 and the fraction in [0,1) |
| FoamEmitter.EmitAllConserves | Assets/Obi/Scripts/Common/Utils/ObiFoamEmitter.cs:28-30 | over any sequence of calls, total emitted plus final accumulator equals initial accumulator plus everything added; non-negative amounts keep it in [0,1) |
| FoamEmitter.Emitter.constructor | Assets/Obi/Scripts/Common/Utils/ObiFoamEmitter.cs:24 | the accumulator starts at 0 |
| FoamEmitter.Emitter.GetParticleNumberToEmit | Assets/Obi/Scripts/Common/Utils/ObiFoamEmitter.cs:26-32 | returns the emitted count and keeps the fraction, as one step of Emit with rate·dt |
| FoamEmitter.Emitter.Reset | Assets/Obi/Scripts/Common/Utils/ObiFoamEmitter.cs:34-37 | the accumulator becomes 0 |
| Oni.ConstraintTypeValue | Assets/Obi/Scripts/Oni.cs:14-34 | every constraint type's value is below ConstraintTypeCount |
| Oni.ConstraintTypeOf | Assets/Obi/Scripts/Oni.cs:14-34 | an integer names a constraint type exactly when it is in [0, 18) |
| Oni.ConstraintTypeOrder | Assets/Obi/Scripts/Oni.cs:10-34 | there are exactly ConstraintTypeCount = 18 types, numbered 0..17 in declaration order |
| Oni.ConstraintTypeRoundTrip | Assets/Obi/Scripts/Oni.cs:14-34 | value and type convert back and forth without loss |
| Oni.RenderingSystemFlags | Assets/Obi/Scripts/Oni.cs:36-58 | each basic system is a distinct single bit, the composite masks contain their parts, and smoothed ropes are ropes |
| Oni.SimplexAllContainsEverything | Assets/Obi/Scripts/Oni.cs:60-68 | All contains every flag, Point, Edge and Triangle included |
| Oni.ModeValue | Assets/Obi/Scripts/Oni.cs:101-105 | 3D is 0 and 2D is 1 |
| Oni.NewSolverParameters | Assets/Obi/Scripts/Oni.cs:168-188 | the constructor sets mode 3D, zero damping and wind, maxAnisotropy 3, eight surface iterations and the other defaults, each within its declared range |
| Oni.NewConstraintParameters | Assets/Obi/Scripts/Oni.cs:216-222 | copies enabled, order and iterations and sets the SOR factor to 1, inside its range [0.1, 2] |
| PinholeRatchet.TeethToNext | Assets/Obi/Samples/RopeAndRod/SampleResources/Scripts/PinholeRatchet.cs:24-38 | the loop advances until the next tooth is within one separation, never overshooting to a non-positive distance, and advances at all exactly when the distance exceeds one separation |
| PinholeRatchet.ToothStep | Assets/Obi/Samples/RopeAndRod/SampleResources/Scripts/PinholeRatchet.cs:19 | the normalized tooth width is at least 0.001, and infinite exactly for a zero rest length |
| PinholeRatchet.RatchetMovesOneEnd | Assets/Obi/Samples/RopeAndRod/SampleResources/Scripts/PinholeRatchet.cs:22-39 | one direction only lowers the range's end and the other only raises its start; the distance left is at most one separation and positive when the range moved |
| PinholeRatchet.LowerEnd | Assets/Obi/Samples/RopeAndRod/SampleResources/Scripts/PinholeRatchet.cs:24-29 | the downward loop terminates and computes the ratcheted range and distance |
| PinholeRatchet.RaiseStart | Assets/Obi/Samples/RopeAndRod/SampleResources/Scripts/PinholeRatchet.cs:33-38 | the upward loop terminates and computes the ratcheted range and distance |
| PinholeRatchet.Ratchet.constructor | Assets/Obi/Samples/RopeAndRod/SampleResources/Scripts/PinholeRatchet.cs:7-11 | the serialized defaults |
| PinholeRatchet.Ratchet.Update | Assets/Obi/Samples/RopeAndRod/SampleResources/Scripts/PinholeRatchet.cs:13-42 | nothing changes without a pinhole or rope; otherwise the distance to the next tooth is set and the pinhole's range becomes the ratcheted one through its setter |
| PinholeRatchet.Ratchet.OnDisable | Assets/Obi/Samples/RopeAndRod/SampleResources/Scripts/PinholeRatchet.cs:44-48 | the pinhole's range is reset to (0, 1) |
| Sandbox2.GetActorIndex | Assets/Scripts/Sandbox2.cs:196-206 | the first active index holding the solver index, or -1 when there is none |
| Sandbox2.LocalRopeIndexToSolver | Assets/Scripts/Sandbox2.cs:185-194 | -1 outside [0, Count]; an error exactly for an even index equal to Count; otherwise the chain particle at that index |
| Sandbox2.LocalRopeIndexToSolverLastParticle | Assets/Scripts/Sandbox2.cs:193 | on a two-element rope, index 2 indexes past the end |
| Sandbox2.LocalRopeIndexToSolverSafe | Assets/Scripts/Sandbox2.cs:185-194 | -1 outside [0, Count], otherwise the particle at that position of a joined chain, the last particle included |
| Sandbox2.TransferAsWritten | Assets/Scripts/Sandbox2.cs:72-73 | both rest lengths stay non-negative and the lead-in agrees with the corrected transfer |
| Sandbox2.TransferAsWrittenConserves | Assets/Scripts/Sandbox2.cs:72-73 | the total rest length is conserved exactly when 2·shift ≥ −leadIn or the lead-in is empty |
| Sandbox2.TransferAsWrittenLosesLength | Assets/Scripts/Sandbox2.cs:72-73 | lengths (1, 1) with shift −0.75 become (0.25, 1.25) |
| Sandbox2.Transfer | Assets/Scripts/Sandbox2.cs:70-73 | both lengths stay non-negative, their sum is conserved, and length flows in the direction of the shift |
| Sandbox2.NextLeadIn | Assets/Scripts/Sandbox2.cs:75-78 | the lead-in moves up exactly when the lead-out is nearly empty and there is room above, down exactly when the lead-in is nearly empty otherwise and there is room below, and by at most one |
| Sandbox2.Constrained | Assets/Scripts/Sandbox2.cs:61-73 | the element count is kept |
| Sandbox2.ConstrainedKeepsRestLength | Assets/Scripts/Sandbox2.cs:61-73 | only the two eyelet elements change and only in rest length, which stays non-negative; for non-negative lengths their sum never grows and is kept exactly when 2·shift ≥ −leadIn or the lead-in is empty |
| Sandbox2.EyeletSplitAsWritten | Assets/Scripts/Sandbox2.cs:110-120 | the new element takes half of the first element's rest length, not half of the start element's |
| Sandbox2.EyeletSplitAsWrittenChangesLength | Assets/Scripts/Sandbox2.cs:114 | rest lengths (1, 3) split at element 1 total 3 instead of 4 |
| Sandbox2.EyeletSplitAsWrittenIsUpdate | Assets/Scripts/Sandbox2.cs:110-120 | the as-written split differs from the even split only in the new element's rest length |
| Sandbox2.EyeletSplitAsWrittenRestSum | Assets/Scripts/Sandbox2.cs:110-120 | the total rest length changes by half the difference between element 0 and the start element, is kept exactly when they are equal, and the halves meet at the new particle |
| Sandbox2.EyeletSplit | Assets/Scripts/Sandbox2.cs:110-120 | the two halves add up to the start element's rest length |
| Sandbox2.EyeletSplitKeepsRestLength | Assets/Scripts/Sandbox2.cs:110-120 | the total rest length is kept, the count grows by one and the two halves meet at the new particle |
| Sandbox2.Sandbox.constructor | Assets/Scripts/Sandbox2.cs:10-22 | the field defaults: start element -1, speediness 1, no lead-in element (-1) and zero stretches |
| Sandbox2.Sandbox.SetLeadInElement | Assets/Scripts/Sandbox2.cs:133-162 | stores the lead-in index and hands over the eyelet particle |
| Sandbox2.Sandbox.UpdateEyeletConstraint | Assets/Scripts/Sandbox2.cs:56-83 | a no-op without a lead-in; otherwise measures the stretches, transfers rest length as written (the lead-out clamp reading the updated lead-in) and steps the lead-in |
| Sandbox2.Sandbox.CreateEyeletElement | Assets/Scripts/Sandbox2.cs:99-131 | a no-op for start -1 or at the last element, an index error for other negative starts, otherwise inserts the eyelet element as written (half of element 0's rest length) and makes it the lead-in |
| Common.Trunc | Assets/Obi/Scripts/Common/Utils/ObiFoamEmitter.cs:29 | the C# cast truncates toward zero |
| Common.Clamp01 | Assets/Obi/Scripts/Common/Blueprints/Constraints/Batches/ObiPinholeConstraintsBatch.cs:25 | the result is in [0,1] and equals the input when it is already there |
| Common.MathfClampInt | Assets/Obi/Scripts/Common/Blueprints/Constraints/Batches/ObiPinholeConstraintsBatch.cs:187 | for lo ≤ hi the result is in [lo, hi] and keeps an in-range value |
| Common.Saturate | Assets/Obi/Scripts/Common/Backends/Burst/Solver/FoamParticlesJob.cs:124 | the result is in [0,1] and keeps an in-range value |
| Common.Div | Assets/Scripts/Extensions.cs:96 | float division is exact for a non-zero divisor and NaN exactly for 0/0 |
| Common.Clamp01Float | Assets/Scripts/MathUtils.cs:309-313 | Clamp01 keeps NaN and maps everything else into [0,1] |

## Left out

- Parallelism is not modelled. Each job is a sequential loop over its index range, and `Interlocked`
  counters become ordinary updates. The jobs require their index lists to be distinct and in
  bounds; the source does not check this.
- Floating point is modelled as reals. Rounding is not modelled. NaN and infinities appear only
  where a finding or a guard depends on them (`Float`). The constants 0.001f, π and
  0.3333333333333333 are reals.
- Engine quantities are parameters, not code:
  - distances, norms and normalization, edge lengths, `NearestPointOnEdge`;
  - rigidbody velocity and impulses, `RotationalInvMass`, `BaryScale`;
  - the kernels, `EigenSolve`, `LookRotationSafe`, the moments and mass centres;
  - foam spawning and advection, `Hash21`, `RandomInCylinder`;
  - the inertial frame's transforms and wind;
  - `GetEdgeAt`, `deformableEdgesOffset` and the voxelizer's centres;
  - `BurstMath.epsilon` and `FLT_MIN_NORMAL` (positive constants).
- MeshVoxelizer, ObiUtils and BurstInertialFrame are not part of this model. Their results are
  parameters. A voxel "exists" when it lies inside the grid.
- The GPU backend is not modelled: its batches only bind buffers for shaders.
- ObiPinhole's engine plumbing is not modelled: OnEnable, OnDisable, Bind, enabling and disabling,
  readback, upload and waiting. "Placed in the solver" is a parameter (`slot`).
- `JumpFlood`'s coroutine progress yields are not modelled.
- `VoxelDistanceField.SampleFiltered` is not modelled: it is trilinear interpolation over engine
  vectors.
- Sandbox2's particle snapshots, stitcher, `print`, `CopyParticle`, `TeleportParticle`,
  `ActivateParticle`, rest-length and constraint rebuilding, and `LockEyeletPosition` are not
  modelled.
- RopeUtils' `AddParticleAt`, `InsertParticle`, `ShortenRope`, `GetLengthFromEndToElement`,
  `FindNearestPoint*`, the force queries and `RecalculateState` are not modelled. Rope elements are
  values, so aliasing between element references is not modelled.
- The other Extensions helpers are not modelled: `HierarchyPath`, `Random`, `SetWorldScale`, `Log`,
  `InverseTransformScale`, `SlerpTowards`, `EvaluateWeighted`, `Round`, `Volume`, `MeanMagnitude`.
- Extensions.RandomElement: the random index source is a parameter assumed to return an index in
  range.
- PinholeRatchet.Ratchet.Update: requires teethSeparation > 0. With any other value, an entered loop
  never terminates in the source.
- RopeUtils.Rope.GetRestLengthAtParticle: requires a non-empty rope. The source reads `elements[0]`
  and throws on an empty list.
- RopeUtils.Rope.RemoveElementsAfter: requires a target that is not negative unless it is past the
  last element. The source indexes `elements[t]` and would throw.
- RopeUtils.Rope.RemoveElementsAfter: the removed elements' second particles are returned, not
  deactivated. The solver's particle-to-actor map and `DeactivateParticle` are not part of this
  model. The `Debug.LogError` on a bad target is not modelled either.
- ObiPinholeComponent.BreakPinhole: the breaking constraints are listed, not deactivated, because
  `ObiConstraintsBatch.DeactivateConstraint` is not part of this model. The source re-reads the loop
  bound after each deactivation; that is not modelled. The component's batch holds exactly one
  constraint (ObiPinhole.cs:178-191), so at most one constraint is ever listed.
- BurstDensity.AnisotropyAveraged: the fallback branch requires a non-zero principal radius
  (`FallbackDefined`). In C# a zero radius gives infinite radii and volume, which reals do not
  model. The eigen branch accepts any radius.
- BurstDensity.AverageAnisotropy: requires `FallbackDefined` for each fluid particle, for the same
  reason as `AnisotropyAveraged`.
- BurstDensity.CalculateAnisotropyLaplacianSmoothing: requires `FallbackDefined` for each fluid
  particle as the first three passes leave it, for the same reason as `AnisotropyAveraged`.
- VoxelDistanceField.DistanceField.SampleUnfiltered: requires a grid at least one voxel wide on each
  axis. On an empty field the source's clamp yields index 0 or -1, and the array access throws.
- Integers are unbounded. Counters and indices do not model 32-bit overflow, and `Common.Trunc`
  does not model the float-to-int cast's result for values outside the 32-bit range.
- BurstPinhole.UpdatePins: requires a non-empty, in-bounds edge range for every constraint that is
  not ignored. An empty range makes nfmod divide by zero in the source.
- BurstPinholeProjection.Project: requires that no active constraint's denominator is zero
  (`Solvable`). In C# a zero float denominator gives an infinite or NaN increment; that case is not
  modelled. `MixesOnEdgeSolvable` shows that mixes in [0,1] always satisfy it.
- BurstPinholeProjection.ProjectOne: requires `Solvable`, for the same reason as `Project`.
- BurstPinholeProjection.Project: the rigidbody impulse and the effective rotational inverse mass
  are parameters. Rigidbody deltas are not tracked.
- Sandbox2.Sandbox.SetLeadInElement: the solver particle properties it swaps and the stitch it
  rebuilds are not modelled. Only the lead-in index and the hand-over particle are.
- The GPU-only and editor scripts, samples with no stateable core, and the thin wrapper classes of
  the pinhole constraints are not part of this model.

## Findings

| source | as written | input that shows it | evidently intended | confidence | as-written member | corrected member |
|---|---|---|---|---|---|---|
| Assets/Scripts/Sandbox2.cs:72-73 | the lead-out clamp uses the lead-in length after it was already updated | lead-in 1, lead-out 1, shift −0.75: the lengths become (0.25, 1.25), total 1.5 instead of 2 | rest length moves between the two elements and the total is conserved | not executed | Sandbox2.TransferAsWrittenLosesLength | Sandbox2.Transfer |
| Assets/Scripts/Sandbox2.cs:114 | the new eyelet element takes half of `elements[0]`'s rest length | rest lengths (1, 3), start element 1: the total becomes 3 instead of 4 | the new element takes half of the start element's rest length | not executed | Sandbox2.EyeletSplitAsWrittenChangesLength | Sandbox2.EyeletSplitKeepsRestLength |
| Assets/Scripts/Extensions.cs:94-97 | `NormalizeValue01` divides by the range with no guard | range (1, 1), value 1: 0/0 gives NaN, which Clamp01 keeps | a value in [0, 1] | not executed | Extensions.NormalizeValue01DegenerateRange | Extensions.NormalizeValue01Safe |
| Assets/Scripts/MathUtils.cs:283-317 | `s = e / c` with no guard for a zero-length second segment | C = D: b = c = e = 0, so s is NaN, even with clamping | s in [0, 1], the point C | not executed | MathUtils.ClosestPointsAsWrittenDegenerate | MathUtils.FindClosestPointsOnLines |
| Assets/Scripts/Sandbox2.cs:187-193 | the guard lets an even index equal to `Count` through to `elements[Count]` | two elements, local index 2 (the last particle): index out of range | the last particle, `elements[Count - 1].particle2` | not executed | Sandbox2.LocalRopeIndexToSolverLastParticle | Sandbox2.LocalRopeIndexToSolverSafe |
